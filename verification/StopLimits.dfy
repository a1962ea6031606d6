/** How an interrupted stop comes back from a crash. Recovery tells an eviction
    from a cancellation by the stored detail alone, and a cancellation stores
    whatever reason its client gives. */
module StopLimits {
  import opened Protocol
  import opened AllocatorState
  import opened AllocatorInvariant
  import opened AllocatorSteps
  import opened AllocatorRuns
  import opened WorldInvariant
  import opened WorldSteps
  import opened AllocatorTheorems
  import opened LifecyclePasses
  import opened RetirementLimits
  import opened ViewLimits

  predicate Answering(outcome: RuntimeOutcome) {
    outcome.Ok? || outcome.Missing?
  }

  /** A cancellation that committed and was cut off by a restart before its stop returned. */
  ghost function CutOff(cfg: Config, s: State, e: Envelope, x: string, reason: string, now: Time, at: Time): State {
    Reload(cfg, CancelBegin(s, e, x, reason, now, true).0, at)
  }

  lemma CutOffIs(cfg: Config, s: State, e: Envelope, x: string, reason: string, now: Time, at: Time)
    requires ValidConfig(cfg) && Inv(cfg, s) && now > UNSET && CancelBegin(s, e, x, reason, now, true).1.Halt?
    ensures var t := CutOff(cfg, s, e, x, reason, now, at);
      Inv(cfg, t) && x in t.executions && t.executions[x].phase == Phase.Cancelling && t.executions[x].detail == reason
  {
    var t := CancelBegin(s, e, x, reason, now, true).0;
    assert x in t.executions && t.executions[x].phase == Phase.Cancelling && t.executions[x].detail == reason;
    CancelKeeps(cfg, s, e, x, reason, now, true);
    hide CancelBegin, Inv, Reload;
    ReloadInv(cfg, t, at);
    ShapesOf(cfg, t);
    ReloadKeepsExecutions(cfg, t, at);
  }

  /** For every cancellation, every restart and every visit of recovery that the runtime answers: the execution comes
      back cancelled if and only if the client's reason is not the lease marker, and as a lease failure if and only
      if it is. */
  lemma CancelResumesExactly(cfg: Config, s: State, e: Envelope, x: string, reason: string, now: Time, at: Time, v: RecoveryVisit)
    requires ValidConfig(cfg) && Inv(cfg, s) && now > UNSET && CancelBegin(s, e, x, reason, now, true).1.Halt?
    requires Answering(v.outcome) && !Names(v.report, x)
    ensures x in CutOff(cfg, s, e, x, reason, now, at).executions
    ensures var t := Visited(cfg, CutOff(cfg, s, e, x, reason, now, at), x, v);
      && x in t.executions && (t.executions[x].phase == Cancelled <==> reason != LEASE_EXPIRED)
      && (LeaseFailed(t.executions[x]) <==> reason == LEASE_EXPIRED)
  {
    hide Inv, CancelBegin, CutOff, Visited;
    CutOffIs(cfg, s, e, x, reason, now, at);
    VisitFates(cfg, CutOff(cfg, s, e, x, reason, now, at), x, v, x);
  }

  lemma CancelCommits(cfg: Config, w: World, t: nat, now: Time)
    requires Enabled(cfg, w, Cancel(t, now, true)) && Apply(cfg, w, Cancel(t, now, true)).threads[t].Stopping?
    ensures var e := w.threads[t].env; var r := CancelBegin(w.mem, e, e.payload.executionId, e.payload.reason, now, true);
      r.1.Halt? && Apply(cfg, w, Cancel(t, now, true)).disk == r.0
  {
    hide ViewsOf, Touch;
  }

  lemma CrashReloads(cfg: Config, w: World, at: Time)
    requires Enabled(cfg, w, Crash(at))
    ensures Apply(cfg, w, Crash(at)).mem == Reload(cfg, w.disk, at) && Apply(cfg, w, Crash(at)).threads == map[]
  {
    hide Reload, ViewsOf;
  }

  lemma RecoverVisits(cfg: Config, w: World, x: string, outcome: RuntimeOutcome, checked: Time, now: Time, saved: bool)
    requires w.threads == map[] && x in w.mem.executions && now > UNSET
    ensures Enabled(cfg, w, Recover(x, outcome, checked, now, saved))
    ensures Apply(cfg, w, Recover(x, outcome, checked, now, saved)).mem == RecoverVisit(cfg, w.mem, x, outcome, checked, now)
  {
    hide RecoverVisit, ViewsOf;
  }

  lemma VisitedSilently(cfg: Config, s: State, x: string, v: RecoveryVisit)
    requires x in s.executions && !Terminal(s.executions[x].phase) && v.report.Silent?
    ensures Visited(cfg, s, x, v) == RecoverVisit(cfg, s, x, v.outcome, v.checked, v.now)
  {
    hide RecoverVisit;
  }

  /** How the execution of an interrupted cancellation came back. */
  predicate CameBack(m: map<string, Execution>, x: string, reason: string) {
    && x in m && (m[x].phase == Cancelled <==> reason != LEASE_EXPIRED)
    && (LeaseFailed(m[x]) <==> reason == LEASE_EXPIRED)
  }

  /** The same in the allocator's own runs: from every reachable state, a cancellation that commits, a crash, and the
      visit of recovery. */
  lemma CancelCrashRecover(cfg: Config, w: World, t: nat, now: Time, at: Time, outcome: RuntimeOutcome, checked: Time, later: Time, saved: bool)
    requires Reachable(cfg, w) && Enabled(cfg, w, Cancel(t, now, true)) && at > UNSET && later > UNSET && Answering(outcome)
    requires Apply(cfg, w, Cancel(t, now, true)).threads[t].Stopping?
    ensures Enabled(cfg, Apply(cfg, w, Cancel(t, now, true)), Crash(at))
    ensures var p, w2 := w.threads[t].env.payload, Apply(cfg, Apply(cfg, w, Cancel(t, now, true)), Crash(at));
      && Enabled(cfg, w2, Recover(p.executionId, outcome, checked, later, saved))
      && CameBack(Apply(cfg, w2, Recover(p.executionId, outcome, checked, later, saved)).mem.executions, p.executionId, p.reason)
  {
    hide Reachable, WorldInv, Inv, Apply, CancelBegin, Reload, RecoverVisit, Visited, LeaseFailed;
    ReachableInv(cfg, w);
    InvOf(cfg, w);
    ConfigOf(cfg, w);
    var e := w.threads[t].env;
    var x, reason := e.payload.executionId, e.payload.reason;
    var v := RecoveryVisit(false, checked, Silent, outcome, later, saved);
    CancelCommits(cfg, w, t, now);
    CrashReloads(cfg, Apply(cfg, w, Cancel(t, now, true)), at);
    CutOffIs(cfg, w.mem, e, x, reason, now, at);
    var w2 := Apply(cfg, Apply(cfg, w, Cancel(t, now, true)), Crash(at));
    RecoverVisits(cfg, w2, x, outcome, checked, later, saved);
    CancelResumesExactly(cfg, w.mem, e, x, reason, now, at, v);
    VisitedSilently(cfg, w2.mem, x, v);
  }

  lemma ConfigOf(cfg: Config, w: World)
    requires Reachable(cfg, w)
    ensures ValidConfig(cfg)
  {
  }

  // ------------------------------------------------------------------------- such a run

  const CANCEL := Envelope("b", SENDER, 1, ExecutionCancel("x", LEASE_EXPIRED))
  const HELD := ReplayEntry(1, CANCEL, false, Reply([], None))
  const STOPPING := BOUND.(replay := BOUND.replay[(SENDER, "b") := HELD])

  function AfterCancel(mem: State, disk: State, thread: Thread): World {
    World(mem, disk, map[1 := Launching(ASSIGN, "x"), 2 := thread], {}, [Launched("o", "x", SENDER, "r")], {"o"}, map[], {}, SHOWN)
  }

  lemma StepCancelArrives()
    ensures var w := AfterAssign(BOUND, Launching(ASSIGN, "x"), SHOWN);
      && Enabled(CFG, w, Arrive(2, CANCEL, 1))
      && Apply(CFG, w, Arrive(2, CANCEL, 1)) == AfterCancel(BOUND, BOUND, Checked(CANCEL, 1))
  {
    hide ViewsOf;
    OneShown(RECORD, BOUND);
    assert map[1 := Launching(ASSIGN, "x")][2 := Checked(CANCEL, 1)] == map[1 := Launching(ASSIGN, "x"), 2 := Checked(CANCEL, 1)];
  }

  lemma CancelEnters()
    ensures BeginReplay(CFG, BOUND, CANCEL, 1, {}, true) == (STOPPING, Begin.Fresh)
    ensures Evicts(Prune(CFG, BOUND.replay, 1), {}, CFG.replayCapacity - 1)
  {
    NoneDue(BOUND, 1);
    hide Expire;
    TwoHeld();
    hide Prune;
    assert BOUND.replay - {} == BOUND.replay;
  }

  lemma TwoHeld()
    ensures Prune(CFG, BOUND.replay, 1) == BOUND.replay && |BOUND.replay| == 2
  {
    assert BOUND.replay.Keys == {(SENDER, "m"), (SENDER, "a")};
  }

  lemma StepCancelEnters()
    ensures var w := AfterCancel(BOUND, BOUND, Checked(CANCEL, 1));
      && Enabled(CFG, w, Enter(2, 1, {}, true))
      && Apply(CFG, w, Enter(2, 1, {}, true)) == AfterCancel(STOPPING, STOPPING, Begun(CANCEL, 1))
  {
    hide BeginReplay, Evicts, ViewsOf;
    CancelEnters();
    OneShown(RECORD, STOPPING);
    assert map[1 := Launching(ASSIGN, "x"), 2 := Checked(CANCEL, 1)][2 := Begun(CANCEL, 1)]
        == map[1 := Launching(ASSIGN, "x"), 2 := Begun(CANCEL, 1)];
  }

  lemma BegunReached()
    ensures Reached(AfterCancel(STOPPING, STOPPING, Begun(CANCEL, 1)))
  {
    hide Reached, Enabled, Apply;
    LaunchReached();
    StepCancelArrives();
    Reaches(AfterAssign(BOUND, Launching(ASSIGN, "x"), SHOWN), Arrive(2, CANCEL, 1));
    StepCancelEnters();
    Reaches(AfterCancel(BOUND, BOUND, Checked(CANCEL, 1)), Enter(2, 1, {}, true));
  }

  lemma CancelHalts()
    ensures var w := AfterCancel(STOPPING, STOPPING, Begun(CANCEL, 1));
      Enabled(CFG, w, Cancel(2, 1, true)) && Apply(CFG, w, Cancel(2, 1, true)).threads[2].Stopping?
  {
    hide ViewsOf;
  }

  /** The last three events: a cancellation, a crash before its stop returned, and the visit of recovery, which finds
      a lease that has not lapsed. */
  ghost predicate EndsAsLeaseFailure(worlds: seq<World>, events: seq<Event>) {
    && |worlds| == |events| + 1 && |events| >= 3
    && var n := |events| - 3;
    && events[n..] == [Cancel(2, 1, true), Crash(1), Recover("x", Ok, 1, 1, true)] && AboutToCancel(worlds[n])
    && "x" in worlds[n + 3].mem.executions && LeaseFailed(worlds[n + 3].mem.executions["x"])
  }

  predicate AboutToCancel(w: World) {
    && 2 in w.threads && w.threads[2] == Begun(CANCEL, 1)
    && "x" in w.mem.executions && w.mem.executions["x"].leaseUntil > 1
  }

  /** A whole run whose client cancels and whose allocator, after a crash, says the lease ran out. */
  lemma CancelledAsLeaseFailure()
    ensures exists worlds, events :: Run(CFG, worlds, events) && EndsAsLeaseFailure(worlds, events)
  {
    hide Reachable, Enabled, Apply, LeaseFailed;
    var w := AfterCancel(STOPPING, STOPPING, Begun(CANCEL, 1));
    BegunReached();
    ReachedReachable(w);
    CancelHalts();
    CancelCrashRecover(CFG, w, 2, 1, 1, Ok, 1, 1, true);
    var worlds, events :| Run(CFG, worlds, events) && worlds[|events|] == w && NoCrash(events);
    var a, b, c := Cancel(2, 1, true), Crash(1), Recover("x", Ok, 1, 1, true);
    var w1 := Apply(CFG, w, a);
    var w2 := Apply(CFG, w1, b);
    var w3 := Apply(CFG, w2, c);
    ThreeMore(worlds, events, w1, w2, w3, a, b, c);
    assert EndsAsLeaseFailure(worlds + [w1, w2, w3], events + [a, b, c]);
  }

  lemma ThreeMore(worlds: seq<World>, events: seq<Event>, w1: World, w2: World, w3: World, a: Event, b: Event, c: Event)
    requires Run(CFG, worlds, events) && Enabled(CFG, worlds[|events|], a) && w1 == Apply(CFG, worlds[|events|], a)
    requires Enabled(CFG, w1, b) && w2 == Apply(CFG, w1, b) && Enabled(CFG, w2, c) && w3 == Apply(CFG, w2, c)
    ensures Run(CFG, worlds + [w1, w2, w3], events + [a, b, c])
  {
    hide Enabled, Apply;
    var n, all, done := |events|, worlds + [w1, w2, w3], events + [a, b, c];
    forall i | 0 <= i < |done| ensures Enabled(CFG, all[i], done[i]) && all[i + 1] == Apply(CFG, all[i], done[i]) {
      if i < n { assert all[i] == worlds[i] && all[i + 1] == worlds[i + 1] && done[i] == events[i]; }
    }
  }
}
