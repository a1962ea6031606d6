/** What one event of a run may do to one execution record: the first outcome
    wins, a result stays for its retention, a lease changes only by renewal, and
    work ends only where the runtime bridge ends it. */
module RecordFates {
  import opened Protocol
  import opened AllocatorState
  import opened AllocatorInvariant
  import opened AllocatorSteps
  import opened AllocatorRuns
  import opened WorldInvariant
  import opened WorldSteps
  import opened CommandMeaning
  import ExecutionViews

  /** Whether a recovery visit ends the execution it finds. */
  predicate RecoveryEnds(r: Execution, outcome: RuntimeOutcome, checked: Time) {
    && !Terminal(r.phase)
    && (if r.phase == Cancelling || LeaseLapsed(r, checked) then outcome.Ok? || outcome.Missing?
        else outcome.Missing? || outcome.Conflicting?)
  }

  /** The execution on which an event calls finishLocked, if any. */
  function Ending(w: World, ev: Event): Option<string> {
    match ev
    case Started(t, startErr, _, _) =>
      if t in w.threads && w.threads[t].Launching? && w.threads[t].x in w.mem.executions
         && w.mem.executions[w.threads[t].x].phase == Starting && startErr.Some? then Some(w.threads[t].x) else None
    case Stopped(t, stopped, _, _) =>
      if t in w.threads && (w.threads[t].Stopping? || w.threads[t].Evicting?) && w.threads[t].x in w.mem.executions
         && !Terminal(w.mem.executions[w.threads[t].x].phase) && stopped then Some(w.threads[t].x) else None
    case Complete(c, _, _) =>
      if c.executionId != "" && c.executionId in w.mem.executions && !Terminal(w.mem.executions[c.executionId].phase)
      then Some(c.executionId) else None
    case Recover(x, outcome, checked, _, _) =>
      if x in w.mem.executions && RecoveryEnds(w.mem.executions[x], outcome, checked) then Some(x) else None
    case _ => None
  }

  /** The lease command that names `y`, if the event is one. */
  predicate Renews(w: World, ev: Event, y: string) {
    ev.Renew? && ev.t in w.threads && !w.threads[ev.t].Evicting? && NamedExecution(w.threads[ev.t].env.payload) == y
  }

  /** A live record stays live under the same lease, unless the lease is renewed. */
  predicate LiveKept(r: Execution, r': Execution, renewed: bool) {
    !Terminal(r'.phase) && (r'.leaseUntil == r.leaseUntil || renewed)
  }

  /** An end stays, retained from the high-water mark on; only a report whose save fails is taken back. */
  predicate EndKept(cfg: Config, r: Execution, r': Execution, highWater: Time, undone: bool) {
    (Terminal(r'.phase) && r'.retainUntil >= highWater + cfg.retention) || (undone && r' == r)
  }

  /** What one locked section does to the record of `y`. */
  predicate Fate(cfg: Config, s: State, s': State, y: string, ends: bool, renewed: bool, undone: bool, swept: bool)
    requires y in s.executions
  {
    var r, m := s.executions[y], s'.executions;
    if Terminal(r.phase) then (y in m && m[y] == r) || (swept && y !in m && r.retainUntil <= s'.highWater)
    else y in m && if ends then EndKept(cfg, r, m[y], s'.highWater, undone) else LiveKept(r, m[y], renewed)
  }

  predicate FateIn(cfg: Config, w: World, ev: Event, mem: State, y: string)
    requires y in w.mem.executions
  {
    Fate(cfg, w.mem, mem, y, Ending(w, ev) == Some(y), Renews(w, ev, y), ev.Complete? && !ev.saved, ev.SweepUp?)
  }

  // ----------------------------------------------------------------- sections, on states

  lemma SameRecords(cfg: Config, s: State, s': State, y: string, renewed: bool, undone: bool, swept: bool)
    requires y in s.executions && s'.executions == s.executions
    ensures Fate(cfg, s, s', y, false, renewed, undone, swept)
  {
  }

  lemma FinishFate(cfg: Config, s: State, x: string, phase: Phase, detail: string, exit: Option<int>, now: Time, y: string)
    requires x in s.executions && !Terminal(s.executions[x].phase) && Terminal(phase) && y in s.executions
    ensures Fate(cfg, s, Finish(cfg, s, x, phase, detail, exit, now), y, y == x, false, false, false)
  {
  }

  lemma TouchFate(cfg: Config, s: State, x: string, phase: Phase, detail: string, now: Time, y: string)
    requires x in s.executions && !Terminal(s.executions[x].phase) && !Terminal(phase) && y in s.executions
    ensures Fate(cfg, s, SetExecution(s, x, Touch(s.executions[x], phase, detail, now)), y, false, false, false, false)
  {
  }

  lemma StartFate(cfg: Config, s: State, x: string, startErr: Option<string>, now: Time, y: string)
    requires x in s.executions && y in s.executions
    ensures Fate(cfg, s, AssignEnd(cfg, s, x, startErr, now), y,
                 y == x && s.executions[x].phase == Starting && startErr.Some?, false, false, false)
  {
    hide Fate, Finish, Touch, SetExecution;
    var r := s.executions[x];
    if r.phase != Starting {
      SameRecords(cfg, s, s, y, false, false, false);
    } else if startErr.Some? {
      FinishFate(cfg, s, x, Failed, startErr.value, None, now, y);
    } else {
      TouchFate(cfg, s, x, Running, r.detail, now, y);
    }
  }

  lemma HaltFate(cfg: Config, s: State, x: string, phase: Phase, detail: string, now: Time, y: string)
    requires x in s.executions && Terminal(phase) && y in s.executions
    ensures Fate(cfg, s, Halted(cfg, s, x, phase, detail, now), y, y == x && !Terminal(s.executions[x].phase), false, false, false)
  {
    hide Fate, Finish;
    if Terminal(s.executions[x].phase) {
      SameRecords(cfg, s, s, y, false, false, false);
    } else {
      FinishFate(cfg, s, x, phase, detail, None, now, y);
    }
  }

  lemma UnhaltFate(cfg: Config, s: State, x: string, phase: Phase, detail: string, now: Time, y: string)
    requires x in s.executions && Live(phase) && y in s.executions
    ensures Fate(cfg, s, Unhalt(s, x, phase, detail, now), y, false, false, false, false)
  {
    hide Fate, Touch, SetExecution;
    if s.executions[x].phase == Cancelling {
      TouchFate(cfg, s, x, phase, detail, now, y);
    } else {
      SameRecords(cfg, s, s, y, false, false, false);
    }
  }

  lemma ReportFate(cfg: Config, s: State, c: Completion, now: Time, saved: bool, y: string)
    requires y in s.executions
    ensures Fate(cfg, s, RuntimeCompleted(cfg, s, c, now, saved).0, y,
                 y == c.executionId && y != "" && !Terminal(s.executions[y].phase), false, !saved, false)
  {
    hide Finish, CompletionDetail;
    if c.executionId in s.executions && !Terminal(s.executions[c.executionId].phase) {
      FinishFate(cfg, s, c.executionId, CompletionPhase(c), CompletionDetail(c), c.exitCode, now, y);
    }
  }

  lemma VisitFate(cfg: Config, s: State, x: string, outcome: RuntimeOutcome, checked: Time, now: Time, y: string)
    requires x in s.executions && y in s.executions
    ensures Fate(cfg, s, RecoverVisit(cfg, s, x, outcome, checked, now), y,
                 y == x && RecoveryEnds(s.executions[x], outcome, checked), false, false, false)
  {
    var r := s.executions[x];
    hide Fate, Finish, Touch, SetExecution;
    if !RecoveryEnds(r, outcome, checked) {
      if Live(r.phase) && !LeaseLapsed(r, checked) && outcome.Ok? && r.phase == Starting {
        TouchFate(cfg, s, x, Running, r.detail, now, y);
      } else {
        SameRecords(cfg, s, s, y, false, false, false);
      }
    } else if r.phase == Cancelling {
      FinishFate(cfg, s, x, if r.detail == LEASE_EXPIRED then Failed else Cancelled, r.detail, None, now, y);
    } else if LeaseLapsed(r, checked) {
      FinishFate(cfg, s, x, Failed, LEASE_EXPIRED, None, now, y);
    } else {
      FinishFate(cfg, s, x, Failed, outcome.detail, None, now, y);
    }
  }

  lemma CancelFate(cfg: Config, s: State, e: Envelope, x: string, reason: string, now: Time, saved: bool, y: string)
    requires y in s.executions
    ensures Fate(cfg, s, CancelBegin(s, e, x, reason, now, saved).0, y, false, false, false, false)
  {
    hide Fate, Touch, SetExecution;
    SameRecords(cfg, s, s, y, false, false, false);
    if x in s.executions && !Terminal(s.executions[x].phase) { TouchFate(cfg, s, x, Phase.Cancelling, reason, now, y); }
  }

  lemma RenewFate(cfg: Config, s: State, e: Envelope, x: string, duration: int, now: Time, saved: bool, y: string)
    requires y in s.executions
    ensures Fate(cfg, s, HandleRenew(s, e, x, duration, now, saved).0, y, false, y == x, false, false)
  {
  }

  lemma EvictFate(cfg: Config, s: State, x: string, now: Time, saved: bool, y: string)
    requires x in s.executions && !Terminal(s.executions[x].phase) && y in s.executions
    ensures var s1 := Advance(s, now); Fate(cfg, s, EvictBegin(s1, x, s1.highWater, saved), y, false, false, false, false)
  {
  }

  lemma AssignFate(cfg: Config, s: State, e: Envelope, r: string, o: string, x: string, now: Time, placed: bool, saved: bool, y: string)
    requires y in s.executions
    ensures Fate(cfg, s, AssignBegin(cfg, s, e, r, o, x, now, placed, saved).0, y, false, false, false, false)
  {
    hide Fate;
    AssignRecords(cfg, s, e, r, o, x, now, placed, saved, y);
    hide AssignBegin;
    RecordStays(cfg, s, AssignBegin(cfg, s, e, r, o, x, now, placed, saved).0, y);
  }

  lemma RecordStays(cfg: Config, s: State, s': State, y: string)
    requires y in s.executions && y in s'.executions && s'.executions[y] == s.executions[y]
    ensures Fate(cfg, s, s', y, false, false, false, false)
  {
  }

  lemma AssignRecords(cfg: Config, s: State, e: Envelope, r: string, o: string, x: string, now: Time, placed: bool, saved: bool, y: string)
    requires y in s.executions
    ensures var t := AssignBegin(cfg, s, e, r, o, x, now, placed, saved).0; y in t.executions && t.executions[y] == s.executions[y]
  {
    ExpireFrame(s, now);
    hide Expire, Admit;
  }

  lemma SweepFate(cfg: Config, s: State, now: Time, y: string)
    requires Inv(cfg, s) && y in s.executions
    ensures Fate(cfg, s, Sweep(cfg, s, now), y, false, false, false, true)
  {
    SweepKeepsRecord(cfg, s, now, y);
    hide Inv, Sweep;
  }

  lemma SweepKeepsRecord(cfg: Config, s: State, now: Time, y: string)
    requires Inv(cfg, s) && y in s.executions
    ensures var t := Sweep(cfg, s, now);
      && t.highWater == Max(s.highWater, now) && (y in t.executions ==> t.executions[y] == s.executions[y])
      && (y !in t.executions ==> Terminal(s.executions[y].phase) && s.executions[y].retainUntil <= t.highWater)
  {
    hide Inv;
    if y !in Sweep(cfg, s, now).executions { ResultsRetained(cfg, s, now, y); }
    hide Expire, CollectableIds;
    ExpireFrame(Advance(s, now), Max(s.highWater, now));
  }

  // ----------------------------------------------------------------- events, on worlds

  lemma SoundAt(cfg: Config, w: World, t: nat)
    requires WorldInv(cfg, w) && t in w.threads
    ensures ThreadSound(w.mem, w.threads[t])
  {
    hide Core, ThreadSound;
  }

  lemma StartedMemory(cfg: Config, w: World, t: nat, startErr: Option<string>, now: Time, saved: bool)
    requires t in w.threads && w.threads[t].Launching? && w.threads[t].x in w.mem.executions
    ensures StartReturned(cfg, w, t, startErr, now, saved).mem == AssignEnd(cfg, w.mem, w.threads[t].x, startErr, now)
  {
    hide AssignEnd, ViewsOf;
  }

  lemma StartedFate(cfg: Config, w: World, ev: Event, y: string)
    requires WorldInv(cfg, w) && Enabled(cfg, w, ev) && ev.Started? && y in w.mem.executions
    ensures FateIn(cfg, w, ev, StartReturned(cfg, w, ev.t, ev.startErr, ev.now, ev.saved).mem, y)
  {
    hide WorldInv, Fate, AssignEnd, StartReturned;
    var th := w.threads[ev.t];
    SoundAt(cfg, w, ev.t);
    StartedMemory(cfg, w, ev.t, ev.startErr, ev.now, ev.saved);
    StartFate(cfg, w.mem, th.x, ev.startErr, ev.now, y);
  }

  /** What a returned stop leaves of the state. */
  function AfterStop(cfg: Config, s: State, th: Thread, stopped: bool, now: Time): State
    requires th.Stopping? || th.Evicting?
  {
    if th.x !in s.executions then s
    else if !stopped then Unhalt(s, th.x, th.wasPhase, th.wasDetail, now)
    else if th.Evicting? then Halted(cfg, s, th.x, Failed, LEASE_EXPIRED, now)
    else Halted(cfg, s, th.x, Cancelled, th.reason, now)
  }

  lemma StoppedMemory(cfg: Config, w: World, t: nat, stopped: bool, now: Time, saved: bool)
    requires t in w.threads && (w.threads[t].Stopping? || w.threads[t].Evicting?)
    ensures StopReturned(cfg, w, t, stopped, now, saved).mem == AfterStop(cfg, w.mem, w.threads[t], stopped, now)
  {
    hide Halted, Unhalt, ViewsOf;
  }

  lemma AfterStopFate(cfg: Config, s: State, th: Thread, stopped: bool, now: Time, y: string)
    requires (th.Stopping? || th.Evicting?) && Live(th.wasPhase) && y in s.executions
    ensures Fate(cfg, s, AfterStop(cfg, s, th, stopped, now), y,
                 y == th.x && !Terminal(s.executions[y].phase) && stopped, false, false, false)
  {
    hide Fate, Halted, Unhalt;
    if th.x !in s.executions {
      SameRecords(cfg, s, s, y, false, false, false);
    } else if !stopped {
      UnhaltFate(cfg, s, th.x, th.wasPhase, th.wasDetail, now, y);
    } else if th.Evicting? {
      HaltFate(cfg, s, th.x, Failed, LEASE_EXPIRED, now, y);
    } else {
      HaltFate(cfg, s, th.x, Cancelled, th.reason, now, y);
    }
  }

  lemma StoppedFate(cfg: Config, w: World, ev: Event, y: string)
    requires WorldInv(cfg, w) && Enabled(cfg, w, ev) && ev.Stopped? && y in w.mem.executions
    ensures FateIn(cfg, w, ev, StopReturned(cfg, w, ev.t, ev.stopped, ev.now, ev.saved).mem, y)
  {
    hide WorldInv, Fate, AfterStop, StopReturned;
    SoundAt(cfg, w, ev.t);
    StoppedMemory(cfg, w, ev.t, ev.stopped, ev.now, ev.saved);
    AfterStopFate(cfg, w.mem, w.threads[ev.t], ev.stopped, ev.now, y);
  }

  lemma ReportedFate(cfg: Config, w: World, ev: Event, y: string)
    requires ev.Complete? && y in w.mem.executions
    ensures FateIn(cfg, w, ev, RuntimeCompleted(cfg, w.mem, ev.c, ev.now, ev.saved).0, y)
  {
    hide Fate, RuntimeCompleted;
    ReportFate(cfg, w.mem, ev.c, ev.now, ev.saved, y);
  }

  lemma RecoverFate(cfg: Config, w: World, ev: Event, y: string)
    requires ev.Recover? && ev.x in w.mem.executions && y in w.mem.executions
    ensures FateIn(cfg, w, ev, RecoverVisit(cfg, w.mem, ev.x, ev.outcome, ev.checked, ev.now), y)
  {
    hide Fate, RecoverVisit, RecoveryEnds;
    VisitFate(cfg, w.mem, ev.x, ev.outcome, ev.checked, ev.now, y);
  }

  lemma SweptMemory(cfg: Config, w: World, now: Time, saved: bool)
    ensures Sweeping(cfg, w, now, saved).mem == if saved then Sweep(cfg, w.mem, now) else w.mem
  {
    hide Sweep, SweepReady, CollectableIds, ViewsOf;
  }

  lemma SweptFate(cfg: Config, w: World, ev: Event, y: string)
    requires WorldInv(cfg, w) && ev.SweepUp? && y in w.mem.executions
    ensures FateIn(cfg, w, ev, Sweeping(cfg, w, ev.now, ev.saved).mem, y)
  {
    hide WorldInv, Inv, Sweep, Sweeping, Fate;
    InvOf(cfg, w);
    SweptMemory(cfg, w, ev.now, ev.saved);
    if ev.saved {
      SweepFate(cfg, w.mem, ev.now, y);
    } else {
      SameRecords(cfg, w.mem, w.mem, y, false, false, true);
    }
  }

  lemma CommandFate(cfg: Config, w: World, ev: Event, y: string)
    requires Enabled(cfg, w, ev) && (ev.Assign? || ev.Cancel? || ev.Renew? || ev.Evict?) && y in w.mem.executions
    ensures FateIn(cfg, w, ev, Apply(cfg, w, ev).mem, y)
  {
    hide ViewsOf, Fate, AssignBegin, CancelBegin, HandleRenew, EvictBegin, Advance;
    match ev
    case Assign(t, now, placed, saved) =>
      var e := w.threads[t].env;
      AssignFate(cfg, w.mem, e, e.payload.requestId, e.payload.offerId, e.payload.executionId, now, placed, saved, y);
    case Cancel(t, now, saved) =>
      var e := w.threads[t].env;
      CancelFate(cfg, w.mem, e, e.payload.executionId, e.payload.reason, now, saved, y);
    case Renew(t, now, saved) =>
      var e := w.threads[t].env;
      RenewFate(cfg, w.mem, e, e.payload.executionId, e.payload.duration, now, saved, y);
    case Evict(t, x, now, saved) => EvictFate(cfg, w.mem, x, now, saved, y);
  }

  predicate Ends(ev: Event) {
    ev.Started? || ev.Stopped? || ev.Complete? || ev.Recover? || ev.SweepUp?
  }

  lemma EndFate(cfg: Config, w: World, ev: Event, y: string)
    requires WorldInv(cfg, w) && Enabled(cfg, w, ev) && Ends(ev) && y in w.mem.executions
    ensures FateIn(cfg, w, ev, Apply(cfg, w, ev).mem, y)
  {
    hide WorldInv, FateIn, StartReturned, StopReturned, Sweeping, ViewsOf, RuntimeCompleted, RecoverVisit;
    match ev
    case Started(_, _, _, _) => StartedFate(cfg, w, ev, y);
    case Stopped(_, _, _, _) => StoppedFate(cfg, w, ev, y);
    case Complete(_, _, _) => ReportedFate(cfg, w, ev, y);
    case Recover(_, _, _, _, _) => RecoverFate(cfg, w, ev, y);
    case SweepUp(_, _) => SweptFate(cfg, w, ev, y);
  }

  predicate Commands(ev: Event) {
    ev.Assign? || ev.Cancel? || ev.Renew? || ev.Evict?
  }

  lemma OtherRecords(cfg: Config, w: World, ev: Event)
    requires Enabled(cfg, w, ev) && !Ends(ev) && !Commands(ev) && !ev.Crash?
    ensures Apply(cfg, w, ev).mem.executions == w.mem.executions && Ending(w, ev) == None
  {
    hide ViewsOf, Expire, HandleRequest, BeginReplay, HandleRelease, HandleRead, Freshness, Evicts, Prune, FinishReplay;
    match ev
    case Arrive(_, _, _) =>
    case Serve(t, now, renv) => RequestRecords(cfg, w.mem, w.threads[t].env.sender, w.threads[t].env.payload.request, now, renv);
    case Enter(t, now, victims, saved) => ExecutionViews.BeginRecords(cfg, w.mem, w.threads[t].env, now, victims, saved);
    case Release(t, now, saved) => ReleaseRecords(w.mem, w.threads[t].env, now, saved);
    case Read(_, _) =>
    case Leave(t, victims, saved) => LeaveRecords(w.mem, w.threads[t].env, w.threads[t].reply, victims);
    case Tick(now, _) => ExpireFrame(w.mem, now);
    case Clean(_, _) =>
    case Swept =>
  }

  lemma RequestRecords(cfg: Config, s: State, client: Identity, q: Request, now: Time, env: RequestEnv)
    ensures HandleRequest(cfg, s, client, q, now, env).0.executions == s.executions
  {
    hide Expire, RequestRefusal;
    ExpireFrame(s, now);
  }

  lemma ReleaseRecords(s: State, e: Envelope, now: Time, saved: bool)
    requires e.payload.ExecutionOfferRelease?
    ensures HandleRelease(s, e, e.payload.requestId, e.payload.offerId, now, saved).0.executions == s.executions
  {
  }

  lemma LeaveRecords(s: State, e: Envelope, reply: Reply, victims: set<ReplayKey>)
    ensures FinishReplay(s, e, reply, victims).executions == s.executions
  {
  }

  /** Short of a crash, in every event of a run: an ended execution keeps its record until its retention has passed
      and a sweep takes it; a live one ends only where finishLocked is called on it; a lease changes only by renewal. */
  lemma RecordFate(cfg: Config, w: World, ev: Event, y: string)
    requires WorldInv(cfg, w) && Enabled(cfg, w, ev) && !ev.Crash? && y in w.mem.executions
    ensures FateIn(cfg, w, ev, Apply(cfg, w, ev).mem, y)
  {
    hide WorldInv, Enabled, Apply, Fate, Ending;
    if Ends(ev) {
      EndFate(cfg, w, ev, y);
    } else if Commands(ev) {
      CommandFate(cfg, w, ev, y);
    } else {
      OtherRecords(cfg, w, ev);
      SameRecords(cfg, w.mem, Apply(cfg, w, ev).mem, y, Renews(w, ev, y), false, false);
    }
  }

  // --------------------------------------------------------------------------- over runs

  predicate NoCrashIn(events: seq<Event>, i: nat, j: nat) {
    forall k | i <= k < j && k < |events| :: !events[k].Crash?
  }

  /** In one process lifetime: once an execution has ended, its whole record is there, unchanged, as long as the
      high-water mark has not reached the end of its retention, whatever start, stop, eviction, report, command or
      sweep comes back in between. */
  lemma {:induction false} ResultKept(cfg: Config, worlds: seq<World>, events: seq<Event>, i: nat, j: nat, x: string)
    requires ValidConfig(cfg) && Run(cfg, worlds, events) && i <= j < |worlds| && NoCrashIn(events, i, j)
    requires x in worlds[i].mem.executions && Terminal(worlds[i].mem.executions[x].phase)
    requires forall k | i < k <= j :: worlds[k].mem.highWater < worlds[i].mem.executions[x].retainUntil
    ensures x in worlds[j].mem.executions && worlds[j].mem.executions[x] == worlds[i].mem.executions[x]
    decreases j
  {
    hide WorldInv, Enabled, Apply, Ending, Renews;
    if i < j {
      ResultKept(cfg, worlds, events, i, j - 1, x);
      RunInv(cfg, worlds, events, j - 1);
      RecordFate(cfg, worlds[j - 1], events[j - 1], x);
      assert worlds[j - 1 + 1] == Apply(cfg, worlds[j - 1], events[j - 1]);
    }
  }

  /** The outcome on record is the one the report names. */
  predicate SameOutcome(phase: Phase, c: Completion) {
    (phase == Phase.Completed && c.failure.None?) || (phase == Phase.Failed && c.failure.Some?)
  }

  /** So a later report of an ended execution changes nothing, and is accepted exactly if it names the first outcome:
      no failure and completed, or a failure and failed. */
  lemma ReportSettled(cfg: Config, worlds: seq<World>, events: seq<Event>, i: nat, j: nat, c: Completion, now: Time, saved: bool)
    requires ValidConfig(cfg) && Run(cfg, worlds, events) && i <= j < |worlds| && NoCrashIn(events, i, j) && c.executionId != ""
    requires c.executionId in worlds[i].mem.executions && Terminal(worlds[i].mem.executions[c.executionId].phase)
    requires forall k | i < k <= j :: worlds[k].mem.highWater < worlds[i].mem.executions[c.executionId].retainUntil
    ensures RuntimeCompleted(cfg, worlds[j].mem, c, now, saved)
         == (worlds[j].mem, if SameOutcome(worlds[i].mem.executions[c.executionId].phase, c) then None else Some(InvalidTransition))
  {
    hide Enabled, Apply, Finish;
    ResultKept(cfg, worlds, events, i, j, c.executionId);
    hide Run;
  }

  /** In one process lifetime: a live execution's lease stays as it is until a renewal names it or it ends, so no
      eviction of it begins before effective time reaches that lease. */
  lemma {:induction false} LeaseProtects(cfg: Config, worlds: seq<World>, events: seq<Event>, i: nat, j: nat, x: string)
    requires ValidConfig(cfg) && Run(cfg, worlds, events) && i <= j < |events| && NoCrashIn(events, i, j)
    requires x in worlds[i].mem.executions
    requires forall k | i <= k < j :: !Renews(worlds[k], events[k], x) && Ending(worlds[k], events[k]) != Some(x)
    requires !Terminal(worlds[i].mem.executions[x].phase)
    ensures x in worlds[j].mem.executions && !Terminal(worlds[j].mem.executions[x].phase)
    ensures worlds[j].mem.executions[x].leaseUntil == worlds[i].mem.executions[x].leaseUntil
    ensures events[j].Evict? && events[j].x == x ==> Max(worlds[j].mem.highWater, events[j].now) >= worlds[i].mem.executions[x].leaseUntil
    decreases j
  {
    hide WorldInv, Enabled, Apply, Ending, Renews;
    if i < j {
      LeaseProtects(cfg, worlds, events, i, j - 1, x);
      RunInv(cfg, worlds, events, j - 1);
      RecordFate(cfg, worlds[j - 1], events[j - 1], x);
      assert worlds[j - 1 + 1] == Apply(cfg, worlds[j - 1], events[j - 1]);
    }
    assert Enabled(cfg, worlds[j], events[j]);
    EvictsLapsed(cfg, worlds[j], events[j]);
  }

  lemma EvictsLapsed(cfg: Config, w: World, ev: Event)
    requires Enabled(cfg, w, ev)
    ensures ev.Evict? ==> ev.x in w.mem.executions && w.mem.executions[ev.x].leaseUntil <= Max(w.mem.highWater, ev.now)
  {
  }

  predicate Renewed(w: World, t: nat, x: string, until: Time) {
    t in w.threads && w.threads[t].Replying? && w.threads[t].reply == Answer(RenewAck(x, until))
  }

  /** `until` is the duration the command asks for, from the time it was handled. */
  predicate AskedFor(w: World, ev: Event, x: string, until: Time) {
    && ev.Renew? && ev.t in w.threads && w.threads[ev.t].Begun?
    && w.threads[ev.t].env.payload == ExecutionLeaseRenew(x, until - ev.now)
  }

  /** A renewal answered with a lease binds: until that time no eviction of the work begins, unless it is renewed again. */
  lemma RenewalProtects(cfg: Config, worlds: seq<World>, events: seq<Event>, i: nat, j: nat, x: string, until: Time)
    requires ValidConfig(cfg) && Run(cfg, worlds, events) && i < j < |events| && NoCrashIn(events, i, j)
    requires events[i].Renew? && Renewed(worlds[i + 1], events[i].t, x, until)
    requires forall k | i < k < j :: !Renews(worlds[k], events[k], x) && Ending(worlds[k], events[k]) != Some(x)
    ensures AskedFor(worlds[i], events[i], x, until)
    ensures x in worlds[j].mem.executions && worlds[j].mem.executions[x].leaseUntil == until
    ensures events[j].Evict? && events[j].x == x ==> Max(worlds[j].mem.highWater, events[j].now) >= until
  {
    hide WorldInv, Enabled, Apply, Renews, Ending, Renewed, AskedFor;
    assert worlds[i + 1] == Apply(cfg, worlds[i], events[i]) && Enabled(cfg, worlds[i], events[i]);
    RenewedAt(cfg, worlds[i], events[i], x, until);
    LeaseProtects(cfg, worlds, events, i + 1, j, x);
  }

  lemma RenewedAt(cfg: Config, w: World, ev: Event, x: string, until: Time)
    requires Enabled(cfg, w, ev) && ev.Renew? && Renewed(Apply(cfg, w, ev), ev.t, x, until)
    ensures var m := Apply(cfg, w, ev).mem.executions; x in m && !Terminal(m[x].phase) && m[x].leaseUntil == until
    ensures AskedFor(w, ev, x, until)
  {
    hide ViewsOf;
  }
}
