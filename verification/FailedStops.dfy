/** What a failed stop leaves over a run: a record being cancelled is nobody
    else's to change, and the thread that cancels remembers what it found. */
module FailedStops {
  import opened Protocol
  import opened AllocatorState
  import opened AllocatorInvariant
  import opened AllocatorRuns
  import opened WorldInvariant
  import opened WorldSteps
  import opened RecordFates

  predicate Spared(s: State, s': State, x: string)
    requires x in s.executions
  {
    x in s'.executions && s'.executions[x] == s.executions[x]
  }

  /** A stop of `x` returns, to a cancellation or an eviction. */
  predicate StopReturns(w: World, ev: Event, x: string) {
    ev.Stopped? && ev.t in w.threads && (w.threads[ev.t].Stopping? || w.threads[ev.t].Evicting?) && w.threads[ev.t].x == x
  }

  lemma StartSpares(cfg: Config, s: State, x: string, startErr: Option<string>, now: Time, y: string)
    requires x in s.executions && y in s.executions && s.executions[y].phase == Phase.Cancelling
    ensures Spared(s, AssignEnd(cfg, s, x, startErr, now), y)
  {
    hide Touch, Ended;
  }

  lemma StopSpares(cfg: Config, s: State, th: Thread, stopped: bool, now: Time, y: string)
    requires (th.Stopping? || th.Evicting?) && y in s.executions && th.x != y
    ensures Spared(s, AfterStop(cfg, s, th, stopped, now), y)
  {
    hide Touch, Ended;
  }

  lemma ReportSpares(cfg: Config, s: State, c: Completion, now: Time, saved: bool, y: string)
    requires y in s.executions && (c.executionId != y || y == "")
    ensures Spared(s, RuntimeCompleted(cfg, s, c, now, saved).0, y)
  {
    hide Ended, CompletionPhase, CompletionDetail;
  }

  lemma VisitSpares(cfg: Config, s: State, x: string, outcome: RuntimeOutcome, checked: Time, now: Time, y: string)
    requires x in s.executions && y in s.executions && s.executions[y].phase == Phase.Cancelling
    requires x == y ==> !RecoveryEnds(s.executions[y], outcome, checked)
    ensures Spared(s, RecoverVisit(cfg, s, x, outcome, checked, now), y)
  {
    hide Touch, Ended;
  }

  lemma CancelSpares(s: State, e: Envelope, x: string, reason: string, now: Time, saved: bool, y: string)
    requires y in s.executions && s.executions[y].phase == Phase.Cancelling
    ensures Spared(s, CancelBegin(s, e, x, reason, now, saved).0, y)
  {
    hide Touch;
  }

  lemma RenewSpares(s: State, e: Envelope, x: string, duration: int, now: Time, saved: bool, y: string)
    requires y in s.executions && s.executions[y].phase == Phase.Cancelling
    ensures Spared(s, HandleRenew(s, e, x, duration, now, saved).0, y)
  {
  }

  lemma EvictSpares(s: State, x: string, now: Time, saved: bool, y: string)
    requires x in s.executions && y in s.executions && x != y
    ensures var s1 := Advance(s, now); Spared(s, EvictBegin(s1, x, s1.highWater, saved), y)
  {
    hide Touch;
  }

  lemma ReturnSpares(cfg: Config, w: World, ev: Event, x: string)
    requires WorldInv(cfg, w) && Enabled(cfg, w, ev) && (ev.Started? || ev.Stopped?)
    requires x in w.mem.executions && w.mem.executions[x].phase == Phase.Cancelling && !StopReturns(w, ev, x)
    ensures Spared(w.mem, Apply(cfg, w, ev).mem, x)
  {
    hide WorldInv, StartReturned, StopReturned, ViewsOf, AssignEnd, AfterStop;
    match ev
    case Started(t, startErr, now, saved) =>
      SoundAt(cfg, w, t);
      StartedMemory(cfg, w, t, startErr, now, saved);
      StartSpares(cfg, w.mem, w.threads[t].x, startErr, now, x);
    case Stopped(t, stopped, now, saved) =>
      StoppedMemory(cfg, w, t, stopped, now, saved);
      StopSpares(cfg, w.mem, w.threads[t], stopped, now, x);
  }

  lemma EndSpares(cfg: Config, w: World, ev: Event, x: string)
    requires WorldInv(cfg, w) && Enabled(cfg, w, ev) && (ev.Complete? || ev.Recover? || ev.SweepUp?)
    requires x in w.mem.executions && w.mem.executions[x].phase == Phase.Cancelling && Ending(w, ev) != Some(x)
    ensures Spared(w.mem, Apply(cfg, w, ev).mem, x)
  {
    hide WorldInv, Sweeping, ViewsOf, RuntimeCompleted, RecoverVisit, Sweep, Inv;
    match ev
    case Complete(c, now, saved) => ReportSpares(cfg, w.mem, c, now, saved, x);
    case Recover(y, outcome, checked, now, saved) => VisitSpares(cfg, w.mem, y, outcome, checked, now, x);
    case SweepUp(now, saved) =>
      InvOf(cfg, w);
      SweptMemory(cfg, w, now, saved);
      SweepKeepsRecord(cfg, w.mem, now, x);
  }

  lemma CommandSpares(cfg: Config, w: World, ev: Event, x: string)
    requires Enabled(cfg, w, ev) && Commands(ev) && x in w.mem.executions && w.mem.executions[x].phase == Phase.Cancelling
    ensures Spared(w.mem, Apply(cfg, w, ev).mem, x)
  {
    hide ViewsOf, AssignBegin, CancelBegin, HandleRenew, EvictBegin, Advance;
    match ev
    case Assign(t, now, placed, saved) =>
      var e := w.threads[t].env;
      AssignRecords(cfg, w.mem, e, e.payload.requestId, e.payload.offerId, e.payload.executionId, now, placed, saved, x);
    case Cancel(t, now, saved) =>
      var e := w.threads[t].env;
      CancelSpares(w.mem, e, e.payload.executionId, e.payload.reason, now, saved, x);
    case Renew(t, now, saved) =>
      var e := w.threads[t].env;
      RenewSpares(w.mem, e, e.payload.executionId, e.payload.duration, now, saved, x);
    case Evict(t, y, now, saved) => EvictSpares(w.mem, y, now, saved, x);
  }

  /** A record being cancelled stays as it is until a stop of it returns or something ends it. */
  lemma CancellingStays(cfg: Config, w: World, ev: Event, x: string)
    requires WorldInv(cfg, w) && Enabled(cfg, w, ev) && !ev.Crash? && x in w.mem.executions && w.mem.executions[x].phase == Phase.Cancelling
    requires Ending(w, ev) != Some(x) && !StopReturns(w, ev, x)
    ensures Spared(w.mem, Apply(cfg, w, ev).mem, x)
  {
    hide WorldInv, Enabled, Apply, Ending, StopReturns;
    if ev.Started? || ev.Stopped? {
      ReturnSpares(cfg, w, ev, x);
    } else if Ends(ev) {
      EndSpares(cfg, w, ev, x);
    } else if Commands(ev) {
      CommandSpares(cfg, w, ev, x);
    } else {
      OtherRecords(cfg, w, ev);
    }
  }

  predicate Undisturbed(w: World, ev: Event, x: string) {
    !ev.Crash? && Ending(w, ev) != Some(x) && !StopReturns(w, ev, x)
  }

  lemma {:induction false} CancellingKept(cfg: Config, worlds: seq<World>, events: seq<Event>, i: nat, j: nat, x: string)
    requires ValidConfig(cfg) && Run(cfg, worlds, events) && i <= j < |worlds|
    requires x in worlds[i].mem.executions && worlds[i].mem.executions[x].phase == Phase.Cancelling
    requires forall k | i <= k < j :: Undisturbed(worlds[k], events[k], x)
    ensures x in worlds[j].mem.executions && worlds[j].mem.executions[x] == worlds[i].mem.executions[x]
    decreases j
  {
    hide WorldInv, Enabled, Apply, Ending, StopReturns;
    if i < j {
      CancellingKept(cfg, worlds, events, i, j - 1, x);
      RunInv(cfg, worlds, events, j - 1);
      assert Undisturbed(worlds[j - 1], events[j - 1], x);
      CancellingStays(cfg, worlds[j - 1], events[j - 1], x);
      assert worlds[j - 1 + 1] == Apply(cfg, worlds[j - 1], events[j - 1]);
    }
  }

  /** The thread of a cancellation remembers what it found until its stop returns. */
  predicate Remembers(w: World, w': World, ev: Event, t: nat) {
    t in w.threads && w.threads[t].Stopping? && !ev.Crash? && !(ev.Stopped? && ev.t == t) ==> t in w'.threads && w'.threads[t] == w.threads[t]
  }

  predicate Handles(ev: Event) {
    ev.Serve? || ev.Assign? || ev.Started? || ev.Cancel? || ev.Stopped? || ev.Release? || ev.Renew? || ev.Read?
  }

  lemma HandlerRemembers(cfg: Config, w: World, ev: Event, t: nat)
    requires Enabled(cfg, w, ev) && Handles(ev)
    ensures Remembers(w, Apply(cfg, w, ev), ev, t)
  {
    hide AssignBegin, AssignEnd, CancelBegin, CancelEnd, EvictEnd, HandleRelease, HandleRequest, HandleRenew, HandleRead, ViewsOf;
  }

  lemma OtherRemembers(cfg: Config, w: World, ev: Event, t: nat)
    requires Enabled(cfg, w, ev) && !Handles(ev)
    ensures Remembers(w, Apply(cfg, w, ev), ev, t)
  {
    hide Expire, EvictBegin, BeginReplay, RuntimeCompleted, RecoverVisit, ViewsOf, CleanedUp, Freshness, Sweep, SweepReady,
         Evicts, Prune, CollectableIds, FinishReplay, Reload;
  }

  lemma {:induction false} ThreadKept(cfg: Config, worlds: seq<World>, events: seq<Event>, i: nat, j: nat, t: nat)
    requires Run(cfg, worlds, events) && i <= j < |worlds| && t in worlds[i].threads && worlds[i].threads[t].Stopping?
    requires forall k | i <= k < j :: !events[k].Crash? && !(events[k].Stopped? && events[k].t == t)
    ensures t in worlds[j].threads && worlds[j].threads[t] == worlds[i].threads[t]
    decreases j
  {
    hide Enabled, Apply;
    if i < j {
      ThreadKept(cfg, worlds, events, i, j - 1, t);
      var ev := events[j - 1];
      assert Enabled(cfg, worlds[j - 1], ev) && worlds[j - 1 + 1] == Apply(cfg, worlds[j - 1], ev);
      if Handles(ev) { HandlerRemembers(cfg, worlds[j - 1], ev, t); } else { OtherRemembers(cfg, worlds[j - 1], ev, t); }
    }
  }

  /** The record is what it was, two revisions on. */
  predicate Back(was: map<string, Execution>, now: map<string, Execution>, x: string, at: Time) {
    x in was && x in now && now[x] == was[x].(occurredAt := at, revision := was[x].revision + 2)
  }

  lemma CancelBegun(cfg: Config, w: World, t: nat, now: Time)
    requires Enabled(cfg, w, Cancel(t, now, true)) && Apply(cfg, w, Cancel(t, now, true)).threads[t].Stopping?
    ensures var p, w' := w.threads[t].env.payload, Apply(cfg, w, Cancel(t, now, true)); var x := p.executionId;
      && x in w.mem.executions && x in w'.mem.executions && t in w'.threads
      && w'.mem.executions[x] == Touch(w.mem.executions[x], Phase.Cancelling, p.reason, now)
      && w'.threads[t] == Stopping(w.threads[t].env, x, p.reason, w.mem.executions[x].phase, w.mem.executions[x].detail)
  {
    hide ViewsOf, Touch;
  }

  lemma StopUndone(cfg: Config, w: World, t: nat, now: Time, saved: bool, r: Execution)
    requires Enabled(cfg, w, Stopped(t, false, now, saved)) && w.threads[t].Stopping? && w.threads[t].x in w.mem.executions
    requires w.threads[t].wasPhase == r.phase && w.threads[t].wasDetail == r.detail
    requires exists reason, at :: w.mem.executions[w.threads[t].x] == Touch(r, Phase.Cancelling, reason, at)
    ensures var m := Apply(cfg, w, Stopped(t, false, now, saved)).mem.executions;
      w.threads[t].x in m && m[w.threads[t].x] == r.(occurredAt := now, revision := r.revision + 2)
  {
    hide ViewsOf;
    StoppedMemory(cfg, w, t, false, now, saved);
    hide StopReturned;
  }

  /** A cancellation whose stop fails: if meanwhile nothing ended the execution and no other stop of it returned, it is
      then what it was before, phase, detail and lease, two revisions on, whatever else the run did in between. */
  lemma FailedStopRestores(cfg: Config, worlds: seq<World>, events: seq<Event>, i: nat, j: nat)
    requires ValidConfig(cfg) && Run(cfg, worlds, events) && i < j < |events|
    requires events[i].Cancel? && events[i].saved && events[i].t in worlds[i + 1].threads && worlds[i + 1].threads[events[i].t].Stopping?
    requires events[j].Stopped? && !events[j].stopped && events[j].t == events[i].t
    requires forall k | i < k < j :: Undisturbed(worlds[k], events[k], worlds[i + 1].threads[events[i].t].x)
    ensures Back(worlds[i].mem.executions, worlds[j + 1].mem.executions, worlds[i + 1].threads[events[i].t].x, events[j].now)
  {
    hide WorldInv, Enabled, Apply, Ending;
    var t, x := events[i].t, worlds[i + 1].threads[events[i].t].x;
    assert events[i] == Cancel(t, events[i].now, true) && worlds[i + 1] == Apply(cfg, worlds[i], events[i]) && Enabled(cfg, worlds[i], events[i]);
    CancelBegun(cfg, worlds[i], t, events[i].now);
    OnlyOwnStops(cfg, worlds, events, i + 1, j, t, x);
    ThreadKept(cfg, worlds, events, i + 1, j, t);
    hide StopReturns;
    CancellingKept(cfg, worlds, events, i + 1, j, x);
    assert events[j] == Stopped(t, false, events[j].now, events[j].saved) && worlds[j + 1] == Apply(cfg, worlds[j], events[j]) && Enabled(cfg, worlds[j], events[j]);
    StopUndone(cfg, worlds[j], t, events[j].now, events[j].saved, worlds[i].mem.executions[x]);
  }

  lemma {:induction false} OnlyOwnStops(cfg: Config, worlds: seq<World>, events: seq<Event>, i: nat, j: nat, t: nat, x: string)
    requires Run(cfg, worlds, events) && i <= j <= |events| && t in worlds[i].threads && worlds[i].threads[t].Stopping? && worlds[i].threads[t].x == x
    requires forall k | i <= k < j :: Undisturbed(worlds[k], events[k], x)
    ensures forall k | i <= k < j :: !events[k].Crash? && !(events[k].Stopped? && events[k].t == t)
    decreases j
  {
    hide Enabled, Apply, Ending;
    if i < j {
      OnlyOwnStops(cfg, worlds, events, i, j - 1, t, x);
      ThreadKept(cfg, worlds, events, i, j - 1, t);
      assert Undisturbed(worlds[j - 1], events[j - 1], x);
    }
  }
}
