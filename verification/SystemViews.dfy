/** States over the whole system: what allocators tell the client, lost, repeated
    and reordered at will on the way, never conflicts at the client, and the client
    ends with the highest revision that reached it. */
module SystemViews {
  import opened Protocol
  import opened AllocatorState
  import opened AllocatorRuns
  import opened AllocatorTheorems
  import opened ExecutionViews
  import opened ToldViews
  import opened SystemRuns
  import C = ClientState
  import CT = ClientTheorems

  /** An allocator is answering the client with this state. */
  ghost predicate Telling(sys: System, me: Identity, sender: Identity, v: View) {
    sender in sys.worlds && exists t | t in sys.worlds[sender].threads :: Says(sys.worlds[sender].threads[t], me, v)
  }

  predicate Says(th: Thread, me: Identity, v: View) {
    th.Replying? && th.env.sender == me && StateResponse(v) in th.reply.responses
  }

  /** The states that reach the client were said by their sender at some earlier time. */
  ghost predicate StatesDelivered(setup: Setup, states: seq<System>, happenings: seq<Happening>) {
    |states| == |happenings| + 1 &&
    forall n | 0 <= n < |happenings| && happenings[n].StateSeen? ::
      exists m | 0 <= m <= n :: Telling(states[m], setup.me, happenings[n].sender, happenings[n].view)
  }

  predicate InStep(sys: System, h: Happening) {
    h.Allocate? && h.ev.Crash? && h.a in sys.worlds ==> Synced(sys.worlds[h.a])
  }

  /** Every crash of an allocator finds its disk showing what its memory shows. */
  predicate RestartsInStep(states: seq<System>, happenings: seq<Happening>) {
    |states| == |happenings| + 1 && forall n | 0 <= n < |happenings| :: InStep(states[n], happenings[n])
  }

  // ------------------------------------------------------------------------- allocators

  ghost predicate Tell(sys: System) {
    forall a | a in sys.worlds :: ViewInv(sys.worlds[a]) && TellInv(sys.worlds[a])
  }

  lemma TellKeeps(setup: Setup, sys: System, h: Happening)
    requires SysInv(setup, sys) && Tell(sys) && Possible(setup, sys, h) && InStep(sys, h)
    ensures Tell(Happens(setup, sys, h))
  {
    hide ViewInv, TellInv, C.ClientInv, AssignmentsNamed, Apart, Traced, Enabled, Apply, Synced, Reachable,
         C.Select, C.HandleOffer, C.HandleState, C.HandleReleaseAck, C.RegisterAllocator, C.CreateRequest, C.Chosen, C.EligibleIds;
    if h.Allocate? {
      ReachableInv(setup.configs[h.a], sys.worlds[h.a]);
      ConfigOf(setup.configs[h.a], sys.worlds[h.a]);
      ViewStep(setup.configs[h.a], sys.worlds[h.a], h.ev);
      TellStep(setup.configs[h.a], sys.worlds[h.a], h.ev);
    }
  }

  lemma ConfigOf(cfg: Config, w: World)
    requires Reachable(cfg, w)
    ensures ValidConfig(cfg)
  {
  }

  // ----------------------------------------------------------------------------- client

  predicate HeardOf(worlds: map<Identity, World>, me: Identity, x: string, e: C.ExecutionRecord) {
    e.view.Some? ==>
      e.view.value.executionId == x && e.allocatorId in worlds && ShownTo(worlds[e.allocatorId], me, e.view.value)
  }

  /** Every state on file was shown by its allocator of work launched for this client. */
  predicate Heard(me: Identity, sys: System) {
    forall x | x in sys.client.executions :: HeardOf(sys.worlds, me, x, sys.client.executions[x])
  }

  /** A state shown to the client belongs to the one offer its own record of that execution names. */
  lemma ShownUnderOwnOffer(setup: Setup, sys: System, a: Identity, v: View)
    requires SysInv(setup, sys) && a in sys.worlds && ShownTo(sys.worlds[a], setup.me, v)
    ensures v.executionId in sys.client.executions && (sys.client.executions[v.executionId].offerId, v) in sys.worlds[a].views
  {
    hide C.ClientInv, Reachable, Apart;
    var w := sys.worlds[a];
    var p :| p in w.views && p.1 == v && LaunchedFor(w.launches, p.0, v.executionId, setup.me);
    var i :| 0 <= i < |w.launches| && w.launches[i].offerId == p.0 && w.launches[i].executionId == v.executionId && w.launches[i].client == setup.me;
    assert Traced(setup.me, sys.sent, w) && Backed(setup.me, sys.sent, w.launches[i]);
    var e :| e in sys.sent && e.sender == setup.me && e.payload == ExecutionAssign(w.launches[i].requestId, w.launches[i].offerId, w.launches[i].executionId);
    assert Named(sys.client, e);
  }

  predicate Agree(u: View, v: View) {
    && (u.revision == v.revision ==> u == v)
    && (Terminal(u.phase) ==> v.revision <= u.revision) && (Terminal(v.phase) ==> u.revision <= v.revision)
  }

  lemma ShownAgree(setup: Setup, sys: System, a: Identity, u: View, v: View)
    requires SysInv(setup, sys) && Tell(sys) && a in sys.worlds && u.executionId == v.executionId
    requires ShownTo(sys.worlds[a], setup.me, u) && ShownTo(sys.worlds[a], setup.me, v)
    ensures Agree(u, v)
  {
    hide SysInv, ShownTo, ViewInv, TellInv;
    ShownUnderOwnOffer(setup, sys, a, u);
    ShownUnderOwnOffer(setup, sys, a, v);
    ShownIn(sys.worlds[a]);
    CohereAgree(sys.worlds[a].views, sys.client.executions[v.executionId].offerId, u, v);
  }

  lemma CohereAgree(views: set<(string, View)>, o: string, u: View, v: View)
    requires Coherent(views) && (o, u) in views && (o, v) in views
    ensures Agree(u, v)
  {
  }

  /** One state that agrees with what is on file: accepted, and the higher of the two stays. */
  lemma Accepted(c: C.Client, sender: Identity, v: View)
    requires v.executionId in c.executions && c.executions[v.executionId].allocatorId == sender
    requires c.executions[v.executionId].view.Some? ==> Agree(c.executions[v.executionId].view.value, v)
    ensures v.executionId in C.HandleState(c, sender, v).0.executions
    ensures var (c', err) := C.HandleState(c, sender, v); var e, e' := c.executions[v.executionId], c'.executions[v.executionId];
      && err.None? && e'.allocatorId == sender && e'.view.Some?
      && e'.view.value == if e.view.Some? && v.revision <= e.view.value.revision then e.view.value else v
  {
    var e := c.executions[v.executionId];
    if e.view.Some? { CT.ObserveOne(e, v); }
  }

  lemma RefusedState(c: C.Client, sender: Identity, v: View)
    requires v.executionId in c.executions && c.executions[v.executionId].allocatorId != sender
    ensures C.HandleState(c, sender, v) == (c, Some(C.NotAuthorized))
  {
  }

  /** What a happening does to the states on file: nothing, unless a state is heard. */
  predicate OnFileKept(c: C.Client, c': C.Client) {
    && (forall x | x in c.executions :: x in c'.executions && c'.executions[x] == c.executions[x])
    && (forall x | x in c'.executions && x !in c.executions :: c'.executions[x].view.None?)
  }

  lemma SelectFile(c: C.Client, me: Identity, q: string, sel: C.Selection, chosen: string)
    requires q in c.requests && C.EligibleIds(c, c.requests[q], sel) != {} ==> C.Chosen(c, c.requests[q], sel, chosen)
    ensures OnFileKept(c, C.Select(c, me, q, sel, chosen).0)
  {
    hide C.Chosen, C.EligibleIds, C.Releasable, C.Settled;
  }

  lemma FileKept(setup: Setup, sys: System, h: Happening)
    requires Possible(setup, sys, h) && !h.StateSeen?
    ensures OnFileKept(sys.client, Happens(setup, sys, h).client)
  {
    hide Enabled, Apply, C.Select, C.Chosen, C.EligibleIds, C.NewRelease, C.Blank;
    if h.Choose? { SelectFile(sys.client, setup.me, h.requestId, h.sel, h.chosen); }
  }

  lemma WorldsGrow(setup: Setup, sys: System, h: Happening, a: Identity)
    requires Possible(setup, sys, h) && a in sys.worlds
    ensures var sys' := Happens(setup, sys, h); a in sys'.worlds && Longer(sys.worlds[a], sys'.worlds[a])
  {
    hide Enabled, Apply, C.Select, C.HandleOffer, C.HandleState, C.HandleReleaseAck, C.RegisterAllocator, C.CreateRequest, C.Chosen, C.EligibleIds;
    if h.Allocate? { HistoryGrows(setup.configs[h.a], sys.worlds[h.a], h.ev); }
  }

  lemma HeardLater(setup: Setup, sys: System, h: Happening, x: string, e: C.ExecutionRecord)
    requires Possible(setup, sys, h) && HeardOf(sys.worlds, setup.me, x, e)
    ensures HeardOf(Happens(setup, sys, h).worlds, setup.me, x, e)
  {
    hide Possible, Happens, ShownTo, Longer;
    if e.view.Some? {
      WorldsGrow(setup, sys, h, e.allocatorId);
      ShownStill(sys.worlds[e.allocatorId], Happens(setup, sys, h).worlds[e.allocatorId], setup.me, e.view.value);
    }
  }

  lemma HeardKeeps(setup: Setup, sys: System, h: Happening)
    requires SysInv(setup, sys) && Tell(sys) && Heard(setup.me, sys) && Possible(setup, sys, h)
    requires h.StateSeen? ==> h.sender in sys.worlds && ShownTo(sys.worlds[h.sender], setup.me, h.view)
    ensures Heard(setup.me, Happens(setup, sys, h))
  {
    hide SysInv, Tell, Possible, HeardOf, ShownTo;
    if h.StateSeen? {
      StateHeard(setup, sys, h.sender, h.view);
    } else {
      var sys' := Happens(setup, sys, h);
      FileKept(setup, sys, h);
      hide Happens;
      forall x | x in sys'.client.executions ensures HeardOf(sys'.worlds, setup.me, x, sys'.client.executions[x]) {
        if x in sys.client.executions {
          HeardLater(setup, sys, h, x, sys.client.executions[x]);
        } else {
          Unheard(sys'.worlds, setup.me, x, sys'.client.executions[x]);
        }
      }
    }
  }

  lemma Unheard(worlds: map<Identity, World>, me: Identity, x: string, e: C.ExecutionRecord)
    requires e.view.None?
    ensures HeardOf(worlds, me, x, e)
  {
  }

  /** What an allocator told the client is accepted: it can neither be unknown nor conflict with what is on file. */
  lemma StateAccepted(setup: Setup, sys: System, sender: Identity, v: View)
    requires SysInv(setup, sys) && Tell(sys) && Heard(setup.me, sys) && sender in sys.worlds && ShownTo(sys.worlds[sender], setup.me, v)
    ensures v.executionId in sys.client.executions
    ensures var e := sys.client.executions[v.executionId]; e.allocatorId == sender && e.view.Some? ==> Agree(e.view.value, v)
  {
    hide SysInv, Tell, ShownTo, Agree;
    ShownUnderOwnOffer(setup, sys, sender, v);
    var e := sys.client.executions[v.executionId];
    if e.allocatorId == sender && e.view.Some? {
      assert HeardOf(sys.worlds, setup.me, v.executionId, e);
      ShownAgree(setup, sys, sender, e.view.value, v);
    }
  }

  lemma StateHeard(setup: Setup, sys: System, sender: Identity, v: View)
    requires SysInv(setup, sys) && Tell(sys) && Heard(setup.me, sys) && sender in sys.worlds && ShownTo(sys.worlds[sender], setup.me, v)
    ensures Heard(setup.me, sys.(client := C.HandleState(sys.client, sender, v).0))
  {
    hide SysInv, Tell, ShownTo, Agree, C.Observe;
    StateAccepted(setup, sys, sender, v);
    if sys.client.executions[v.executionId].allocatorId == sender { Accepted(sys.client, sender, v); }
  }

  // -------------------------------------------------------------------------------- runs

  ghost predicate ViewRun(setup: Setup, states: seq<System>, happenings: seq<Happening>) {
    SystemRun(setup, states, happenings) && StatesDelivered(setup, states, happenings) && RestartsInStep(states, happenings)
  }

  ghost predicate Sound(setup: Setup, sys: System) {
    SysInv(setup, sys) && Tell(sys) && Heard(setup.me, sys)
  }

  lemma TellingShown(me: Identity, sys: System, sender: Identity, v: View)
    requires Tell(sys) && Telling(sys, me, sender, v)
    ensures sender in sys.worlds && ShownTo(sys.worlds[sender], me, v)
  {
    hide ViewInv, RecordsLaunched, ShownTo, OwnWork;
    var t :| t in sys.worlds[sender].threads && Says(sys.worlds[sender].threads[t], me, v);
    assert ThreadTells(sys.worlds[sender], sys.worlds[sender].threads[t]);
  }

  lemma {:induction false} ShownFrom(setup: Setup, states: seq<System>, happenings: seq<Happening>, m: nat, n: nat, sender: Identity, v: View)
    requires SystemRun(setup, states, happenings) && m <= n < |states|
    requires sender in states[m].worlds && ShownTo(states[m].worlds[sender], setup.me, v)
    ensures sender in states[n].worlds && ShownTo(states[n].worlds[sender], setup.me, v)
    decreases n
  {
    hide Possible, Happens, Starts, ShownTo, Longer;
    if m < n {
      ShownFrom(setup, states, happenings, m, n - 1, sender, v);
      WorldsGrow(setup, states[n - 1], happenings[n - 1], sender);
      assert states[n - 1 + 1] == Happens(setup, states[n - 1], happenings[n - 1]);
      ShownStill(states[n - 1].worlds[sender], states[n].worlds[sender], setup.me, v);
    }
  }

  /** What is being delivered now has been shown by its sender by now. */
  lemma DeliveredShown(setup: Setup, states: seq<System>, happenings: seq<Happening>, n: nat)
    requires ViewRun(setup, states, happenings) && n < |happenings| && happenings[n].StateSeen?
    requires forall m | 0 <= m <= n :: Tell(states[m])
    ensures var h := happenings[n]; h.sender in states[n].worlds && ShownTo(states[n].worlds[h.sender], setup.me, h.view)
  {
    hide SystemRun, RestartsInStep, Telling, Tell, ShownTo;
    var h := happenings[n];
    var m :| 0 <= m <= n && Telling(states[m], setup.me, h.sender, h.view);
    TellingShown(setup.me, states[m], h.sender, h.view);
    ShownFrom(setup, states, happenings, m, n, h.sender, h.view);
  }

  lemma StartsSound(setup: Setup, sys: System)
    requires Starts(setup, sys)
    ensures Sound(setup, sys)
  {
    StartsInv(setup, sys);
    hide SysInv;
    StartViews();
    StartTells();
  }

  lemma {:induction false} RunSound(setup: Setup, states: seq<System>, happenings: seq<Happening>, n: nat)
    requires ViewRun(setup, states, happenings) && n < |states|
    ensures forall m | 0 <= m <= n :: Sound(setup, states[m])
  {
    hide Possible, Happens, Starts, SysInv, Tell, Heard, StatesDelivered, InStep, ShownTo;
    if n == 0 {
      StartsSound(setup, states[0]);
    } else {
      RunSound(setup, states, happenings, n - 1);
      var sys, h := states[n - 1], happenings[n - 1];
      assert Sound(setup, sys) && Possible(setup, sys, h) && states[n - 1 + 1] == Happens(setup, sys, h) && InStep(sys, h);
      StepKeeps(setup, sys, h);
      TellKeeps(setup, sys, h);
      if h.StateSeen? {
        forall m | 0 <= m <= n - 1 ensures Tell(states[m]) { assert Sound(setup, states[m]); }
        DeliveredShown(setup, states, happenings, n - 1);
      }
      HeardKeeps(setup, sys, h);
    }
  }

  // --------------------------------------------------------------------------- theorems

  /** Over every run of the whole system, lost, repeated and reordered as messages may be: a state an allocator told
      the client is never unknown and never a conflict; it is refused only if the client took that work to another allocator. */
  lemma StatesNeverConflict(setup: Setup, states: seq<System>, happenings: seq<Happening>, n: nat)
    requires ViewRun(setup, states, happenings) && n < |happenings| && happenings[n].StateSeen?
    ensures var c, h := states[n].client, happenings[n];
      && h.view.executionId in c.executions
      && C.HandleState(c, h.sender, h.view).1
           == if c.executions[h.view.executionId].allocatorId == h.sender then None else Some(C.NotAuthorized)
  {
    hide SystemRun, StatesDelivered, SysInv, Tell, Heard, Agree, ShownTo, C.HandleState;
    RunSound(setup, states, happenings, n);
    assert Sound(setup, states[n]);
    var c, h := states[n].client, happenings[n];
    DeliveredShown(setup, states, happenings, n);
    StateAccepted(setup, states[n], h.sender, h.view);
    if c.executions[h.view.executionId].allocatorId == h.sender {
      Accepted(c, h.sender, h.view);
    } else {
      RefusedState(c, h.sender, h.view);
    }
  }

  /** On file is a state at least as new: this one, if the revision is the same. */
  predicate AtLeast(c: C.Client, x: string, v: View) {
    && x in c.executions && c.executions[x].view.Some?
    && var u := c.executions[x].view.value; u.revision >= v.revision && (u.revision == v.revision ==> u == v)
  }

  lemma NeverFalls(setup: Setup, sys: System, h: Happening, x: string, v: View)
    requires Sound(setup, sys) && Possible(setup, sys, h) && AtLeast(sys.client, x, v)
    requires h.StateSeen? ==> h.sender in sys.worlds && ShownTo(sys.worlds[h.sender], setup.me, h.view)
    ensures AtLeast(Happens(setup, sys, h).client, x, v)
  {
    hide Possible, SysInv, Tell, Heard, Agree, ShownTo, C.HandleState;
    if h.StateSeen? {
      StateAccepted(setup, sys, h.sender, h.view);
      StateFile(sys.client, h.sender, h.view, x);
    } else {
      FileKept(setup, sys, h);
    }
  }

  lemma StateFile(c: C.Client, sender: Identity, v: View, x: string)
    requires x in c.executions && v.executionId in c.executions
    requires var e := c.executions[v.executionId]; e.allocatorId == sender && e.view.Some? ==> Agree(e.view.value, v)
    ensures var c' := C.HandleState(c, sender, v).0;
      && x in c'.executions && c'.executions[x].allocatorId == c.executions[x].allocatorId
      && (if x == v.executionId && sender == c.executions[x].allocatorId && (c.executions[x].view.Some? ==> c.executions[x].view.value.revision < v.revision)
          then c'.executions[x].view == Some(v) else c'.executions[x].view == c.executions[x].view)
  {
    hide C.Observe, Agree;
    if c.executions[v.executionId].allocatorId == sender { Accepted(c, sender, v); }
  }

  /** The sender is the allocator the client gave this work to. */
  predicate FromItsAllocator(c: C.Client, sender: Identity, v: View) {
    v.executionId in c.executions && c.executions[v.executionId].allocatorId == sender
  }

  /** A state the client accepted stays the least it knows. */
  lemma {:induction false} HeardStays(setup: Setup, states: seq<System>, happenings: seq<Happening>, i: nat, j: nat)
    requires ViewRun(setup, states, happenings) && i < j < |states| && happenings[i].StateSeen?
    requires FromItsAllocator(states[i].client, happenings[i].sender, happenings[i].view)
    ensures AtLeast(states[j].client, happenings[i].view.executionId, happenings[i].view)
    decreases j
  {
    hide Possible, Happens, Starts, StatesDelivered, RestartsInStep, SysInv, Tell, Heard, Agree, ShownTo, C.HandleState;
    var h := happenings[i];
    RunSound(setup, states, happenings, j - 1);
    assert Sound(setup, states[j - 1]) && Possible(setup, states[j - 1], happenings[j - 1]);
    assert states[j - 1 + 1] == Happens(setup, states[j - 1], happenings[j - 1]);
    if happenings[j - 1].StateSeen? { DeliveredShown(setup, states, happenings, j - 1); }
    if j - 1 > i {
      HeardStays(setup, states, happenings, i, j - 1);
      NeverFalls(setup, states[j - 1], happenings[j - 1], h.view.executionId, h.view);
    } else {
      NowAtLeast(setup, states[i], h);
    }
  }

  lemma NowAtLeast(setup: Setup, sys: System, h: Happening)
    requires Sound(setup, sys) && h.StateSeen? && Possible(setup, sys, h)
    requires h.sender in sys.worlds && ShownTo(sys.worlds[h.sender], setup.me, h.view)
    requires FromItsAllocator(sys.client, h.sender, h.view)
    ensures AtLeast(Happens(setup, sys, h).client, h.view.executionId, h.view)
  {
    hide SysInv, Tell, Heard, ShownTo, C.HandleState;
    StateAccepted(setup, sys, h.sender, h.view);
    Accepted(sys.client, h.sender, h.view);
  }

  /** The state on file is one of those delivered from the execution's allocator. */
  predicate DeliveredBefore(happenings: seq<Happening>, n: nat, sender: Identity, v: View) {
    exists i | 0 <= i < n && i < |happenings| :: happenings[i] == StateSeen(sender, v)
  }

  lemma {:induction false} OnFileDelivered(setup: Setup, states: seq<System>, happenings: seq<Happening>, n: nat, x: string)
    requires ViewRun(setup, states, happenings) && n < |states| && x in states[n].client.executions
    requires states[n].client.executions[x].view.Some?
    ensures DeliveredBefore(happenings, n, states[n].client.executions[x].allocatorId, states[n].client.executions[x].view.value)
  {
    hide Possible, Happens, StatesDelivered, RestartsInStep, SysInv, Tell, Heard, Agree, ShownTo, C.HandleState;
    if n > 0 {
      var sys, h := states[n - 1], happenings[n - 1];
      RunSound(setup, states, happenings, n - 1);
      assert Sound(setup, sys) && Possible(setup, sys, h) && states[n - 1 + 1] == Happens(setup, sys, h);
      if h.StateSeen? { DeliveredShown(setup, states, happenings, n - 1); }
      FileFrom(setup, sys, h, x);
      if x in sys.client.executions && sys.client.executions[x] == states[n].client.executions[x] {
        OnFileDelivered(setup, states, happenings, n - 1, x);
      } else if x in sys.client.executions && sys.client.executions[x].view == states[n].client.executions[x].view {
        OnFileDelivered(setup, states, happenings, n - 1, x);
      } else {
        assert happenings[n - 1] == StateSeen(states[n].client.executions[x].allocatorId, states[n].client.executions[x].view.value);
      }
    }
  }

  lemma FileFrom(setup: Setup, sys: System, h: Happening, x: string)
    requires Sound(setup, sys) && Possible(setup, sys, h) && x in Happens(setup, sys, h).client.executions
    requires h.StateSeen? ==> h.sender in sys.worlds && ShownTo(sys.worlds[h.sender], setup.me, h.view)
    ensures var e' := Happens(setup, sys, h).client.executions[x];
      e'.view.None? || h == StateSeen(e'.allocatorId, e'.view.value)
      || (x in sys.client.executions && sys.client.executions[x].view == e'.view && sys.client.executions[x].allocatorId == e'.allocatorId)
  {
    hide Possible, SysInv, Tell, Heard, Agree, ShownTo, C.HandleState;
    if h.StateSeen? {
      StateAccepted(setup, sys, h.sender, h.view);
      StateKeys(sys.client, h.sender, h.view);
      StateFile(sys.client, h.sender, h.view, x);
    } else {
      FileKept(setup, sys, h);
    }
  }

  lemma StateKeys(c: C.Client, sender: Identity, v: View)
    requires v.executionId in c.executions
    ensures C.HandleState(c, sender, v).0.executions.Keys == c.executions.Keys
  {
    hide C.Observe;
  }

  /** The client converges: what it has on file of an execution is one of the states that execution's allocator sent
      and that reached it, and the highest revision of them all. */
  lemma ClientConverges(setup: Setup, states: seq<System>, happenings: seq<Happening>, i: nat, n: nat)
    requires ViewRun(setup, states, happenings) && i < n < |states| && happenings[i].StateSeen?
    requires FromItsAllocator(states[i].client, happenings[i].sender, happenings[i].view)
    ensures AtLeast(states[n].client, happenings[i].view.executionId, happenings[i].view)
    ensures var e := states[n].client.executions[happenings[i].view.executionId]; DeliveredBefore(happenings, n, e.allocatorId, e.view.value)
  {
    hide SystemRun, StatesDelivered, DeliveredBefore;
    HeardStays(setup, states, happenings, i, n);
    OnFileDelivered(setup, states, happenings, n, happenings[i].view.executionId);
  }
}
