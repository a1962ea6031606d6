/** The slot ledger: one counter per resource class, never above the class's limit. */
module CapacityLedger {
  import opened AllocatorState

  class Ledger {
    const cfg: Config
    var used: multiset<string>

    constructor (cfg: Config)
      ensures this.cfg == cfg && used == multiset{}
    {
      this.cfg := cfg;
      used := multiset{};
    }

    /** Takes a slot exactly when the class is configured and not full. */
    method Reserve(class_: string) returns (ok: bool)
      modifies this
      ensures ok <==> old(used)[class_] < Limit(cfg, class_)
      ensures used == if ok then old(used) + multiset{class_} else old(used)
    {
      ok := class_ in cfg.limits && used[class_] < cfg.limits[class_];
      if ok {
        used := used[class_ := used[class_] + 1];
      }
    }

    /** Gives a slot back; a counter at zero stays there. */
    method Release(class_: string)
      modifies this
      ensures used == old(used) - multiset{class_}
    {
      if used[class_] > 0 {
        used := used[class_ := used[class_] - 1];
      }
    }

    function Free(class_: string): (n: nat)
      reads this
      ensures n == 0 <==> used[class_] >= Limit(cfg, class_)
      ensures n > 0 ==> used[class_] + n == Limit(cfg, class_)
    {
      Available(cfg, used, class_)
    }
  }
}
