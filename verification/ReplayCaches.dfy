/** Duplicate-command coalescing with bounded retention. */
module ReplayCaches {
  import opened Protocol
  import opened AllocatorState

  class ReplayCache {
    const cfg: Config
    var entries: map<ReplayKey, ReplayEntry>

    constructor (cfg: Config, entries: map<ReplayKey, ReplayEntry>)
      ensures this.cfg == cfg && this.entries == entries
    {
      this.cfg := cfg;
      this.entries := entries;
    }

    /** A copy that later changes to this cache cannot reach. */
    method Clone() returns (copy: ReplayCache)
      ensures fresh(copy) && copy.cfg == cfg && copy.entries == entries
    {
      copy := new ReplayCache(cfg, entries);
    }

    method Prune(now: Time)
      modifies this
      ensures entries == AllocatorState.Prune(cfg, old(entries), now)
    {
      var todo := entries.Keys;
      while todo != {}
        invariant todo <= entries.Keys <= old(entries).Keys
        invariant forall k | k in entries :: entries[k] == old(entries)[k]
        invariant forall k | k in old(entries) && k !in todo :: k in entries <==> !Stale(cfg, old(entries)[k], now)
        invariant forall k | k in todo :: k in entries
        decreases |todo|
      {
        var k :| k in todo;
        todo := todo - {k};
        if entries[k].seenAt <= now - cfg.replayTTL && entries[k].done {
          entries := entries - {k};
        }
      }
    }

    /** The finished entry seen first, if any entry is finished. */
    method Oldest() returns (oldest: Option<ReplayKey>)
      ensures oldest.None? ==> forall k | k in entries :: !entries[k].done
      ensures oldest.Some? ==> oldest.value in entries && entries[oldest.value].done
      ensures oldest.Some? ==> forall k | k in entries && entries[k].done :: entries[oldest.value].seenAt <= entries[k].seenAt
    {
      oldest := None;
      var todo := entries.Keys;
      while todo != {}
        invariant todo <= entries.Keys
        invariant oldest.None? ==> forall k | k in entries.Keys - todo :: !entries[k].done
        invariant oldest.Some? ==> oldest.value in entries && entries[oldest.value].done
        invariant oldest.Some? ==>
          forall k | k in entries.Keys - todo && entries[k].done :: entries[oldest.value].seenAt <= entries[k].seenAt
        decreases |todo|
      {
        var k :| k in todo;
        todo := todo - {k};
        if entries[k].done && (oldest.None? || entries[k].seenAt < entries[oldest.value].seenAt) {
          oldest := Some(k);
        }
      }
    }

    /** Removes finished entries, oldest first, until the cache is within the limit or none is left. */
    method Evict(limit: int) returns (ghost victims: set<ReplayKey>)
      modifies this
      ensures Evicts(old(entries), victims, limit) && entries == old(entries) - victims
    {
      victims := {};
      ghost var was := entries;
      while |entries| > limit
        invariant Evicting(was, victims, limit) && entries == was - victims
        decreases |entries|
      {
        var oldest := Oldest();
        if oldest.None? {
          EvictionEnds(was, victims, limit);
          return;
        }
        EvictionStep(was, victims, limit, oldest.value);
        victims := victims + {oldest.value};
        entries := entries - {oldest.value};
      }
      SizeAfter(was, victims);
    }

    /** Looks the command up; a miss makes room and inserts an unfinished entry. */
    method Begin(e: Envelope, now: Time) returns (b: Begin, ghost victims: set<ReplayKey>)
      modifies this
      ensures var pruned, key := AllocatorState.Prune(cfg, old(entries), now), ReplayKeyOf(e);
        if key in pruned then
          && entries == pruned
          && b == if pruned[key].envelope == e then Duplicate(pruned[key]) else Refused(ReplayConflict)
        else
          && Evicts(pruned, victims, cfg.replayCapacity - 1)
          && if |pruned - victims| >= cfg.replayCapacity then entries == pruned - victims && b == Refused(ReplayCapacity)
             else entries == (pruned - victims)[key := ReplayEntry(now, e, false, Reply([], None))] && b == Fresh
    {
      victims := {};
      Prune(now);
      var key := ReplayKeyOf(e);
      if key in entries {
        if entries[key].envelope != e {
          return Refused(ReplayConflict), {};
        }
        return Duplicate(entries[key]), {};
      }
      victims := Evict(cfg.replayCapacity - 1);
      if |entries| >= cfg.replayCapacity {
        return Refused(ReplayCapacity), victims;
      }
      entries := entries[key := ReplayEntry(now, e, false, Reply([], None))];
      b := Fresh;
    }

    /** Records the answer of the command under `key` and trims the cache. */
    method Finish(key: ReplayKey, reply: Reply) returns (ghost victims: set<ReplayKey>)
      requires key in entries
      modifies this
      ensures var done := old(entries)[key := Finished(old(entries)[key], reply)];
        Evicts(done, victims, cfg.replayCapacity) && entries == done - victims
    {
      entries := entries[key := Finished(entries[key], reply)];
      victims := Evict(cfg.replayCapacity);
    }
  }

  // ------------------------------------------------------------ eviction proof

  /** The loop invariant of Evict: what has been removed so far was due. */
  ghost predicate Evicting(was: map<ReplayKey, ReplayEntry>, victims: set<ReplayKey>, limit: int) {
    && victims <= was.Keys
    && (forall v | v in victims :: was[v].done)
    && (forall v, k | v in victims && k in was.Keys - victims && was[k].done :: was[v].seenAt <= was[k].seenAt)
    && (victims != {} ==> |was| - |victims| >= limit)
  }

  lemma SizeAfter(was: map<ReplayKey, ReplayEntry>, victims: set<ReplayKey>)
    requires victims <= was.Keys
    ensures |was - victims| == |was| - |victims|
  {
    assert (was - victims).Keys == was.Keys - victims;
  }

  lemma EvictionStep(was: map<ReplayKey, ReplayEntry>, victims: set<ReplayKey>, limit: int, k: ReplayKey)
    requires Evicting(was, victims, limit) && |was - victims| > limit && k in was - victims && was[k].done
    requires forall j | j in was - victims && was[j].done :: was[k].seenAt <= was[j].seenAt
    ensures Evicting(was, victims + {k}, limit)
    ensures was - victims - {k} == was - (victims + {k})
  {
    SizeAfter(was, victims);
    assert forall j | j in was.Keys - victims :: j in was - victims;
  }

  lemma EvictionEnds(was: map<ReplayKey, ReplayEntry>, victims: set<ReplayKey>, limit: int)
    requires Evicting(was, victims, limit) && forall j | j in was - victims :: !was[j].done
    ensures Evicts(was, victims, limit)
  {
    assert forall j | j in was.Keys - victims :: j in was - victims;
  }

  lemma {:induction false} OldestExists(was: map<ReplayKey, ReplayEntry>, keys: set<ReplayKey>)
    requires keys != {} && keys <= was.Keys
    ensures exists k :: k in keys && forall j | j in keys :: was[k].seenAt <= was[j].seenAt
    decreases |keys|
  {
    var a :| a in keys;
    if keys != {a} {
      var rest := keys - {a};
      assert keys == rest + {a};
      OldestExists(was, rest);
      var b :| b in rest && forall j | j in rest :: was[b].seenAt <= was[j].seenAt;
      var k := if was[a].seenAt <= was[b].seenAt then a else b;
      assert k in keys && forall j | j in keys :: was[k].seenAt <= was[j].seenAt;
    } else {
      assert forall j | j in keys :: j == a;
    }
  }

  lemma {:induction false} EvictionExistsFrom(was: map<ReplayKey, ReplayEntry>, victims: set<ReplayKey>, limit: int)
    requires Evicting(was, victims, limit)
    ensures exists all :: Evicts(was, all, limit)
    decreases |was| - |victims|
  {
    SizeAfter(was, victims);
    var done := set k | k in was - victims && was[k].done;
    if |was - victims| <= limit {
      assert Evicts(was, victims, limit);
    } else if done == {} {
      assert forall j | j in was - victims :: j in was && (was[j].done ==> j in done);
      EvictionEnds(was, victims, limit);
    } else {
      OldestExists(was, done);
      var k :| k in done && forall j | j in done :: was[k].seenAt <= was[j].seenAt;
      EvictionStep(was, victims, limit, k);
      EvictionExistsFrom(was, victims + {k}, limit);
    }
  }

  /** However full the cache, some eviction is legal: no command ever waits for one. */
  lemma EvictionExists(was: map<ReplayKey, ReplayEntry>, limit: int)
    ensures exists victims :: Evicts(was, victims, limit)
  {
    EvictionExistsFrom(was, {}, limit);
  }
}
