/** Every run of one allocator: commands in flight between their locked
    sections, evictions, completions, sweeps, failed saves, crashes, reloads and
    recoveries, in any interleaving and with a clock that may move backwards.
    An event's `saved` says whether its save committed; where a branch saves
    nothing, both values are runs of the model and the real one is among them. */
module AllocatorRuns {
  import opened Protocol
  import opened AllocatorState

  /** What one goroutine still has to do once it has released the lock. */
  datatype Thread =
    | Checked(env: Envelope, at: Time)
    | Begun(env: Envelope, at: Time)
    | Launching(env: Envelope, x: string)
    | Stopping(env: Envelope, x: string, reason: string, wasPhase: Phase, wasDetail: string)
    | Evicting(x: string, wasPhase: Phase, wasDetail: string)
    | Replying(env: Envelope, reply: Reply)

  /** One call of runtime.Start. */
  datatype Launched = Launched(offerId: string, executionId: string, client: Identity, requestId: string)

  /** `mem` is the live state, `disk` the last committed save; the fields from `launches` on only record history. */
  datatype World = World(
    mem: State, disk: State, threads: map<nat, Thread>, cleaning: set<string>,
    launches: seq<Launched>, issued: set<string>, retired: map<RequestKey, Time>, buried: set<string>,
    views: set<(string, View)>)

  datatype Event =
    | Arrive(t: nat, env: Envelope, now: Time)
    | Enter(t: nat, now: Time, victims: set<ReplayKey>, saved: bool)
    | Serve(t: nat, now: Time, renv: RequestEnv)
    | Assign(t: nat, now: Time, placed: bool, saved: bool)
    | Started(t: nat, startErr: Option<string>, now: Time, saved: bool)
    | Cancel(t: nat, now: Time, saved: bool)
    | Stopped(t: nat, stopped: bool, now: Time, saved: bool)
    | Release(t: nat, now: Time, saved: bool)
    | Renew(t: nat, now: Time, saved: bool)
    | Read(t: nat, bound: bool)
    | Leave(t: nat, victims: set<ReplayKey>, saved: bool)
    | Evict(t: nat, x: string, now: Time, saved: bool)
    | Complete(c: Completion, now: Time, saved: bool)
    | Tick(now: Time, saved: bool)
    | SweepUp(now: Time, saved: bool)
    | Clean(id: string, saved: bool)
    | Swept
    | Recover(x: string, outcome: RuntimeOutcome, checked: Time, now: Time, saved: bool)
    | Crash(now: Time)

  function ViewsOf(s: State): set<(string, View)> {
    set x | x in s.executions :: (s.executions[x].offerId, ViewOf(x, s.executions[x]))
  }

  function Commit(w: World, mem: State, saved: bool): World {
    w.(mem := mem, disk := if saved then mem else w.disk, views := w.views + ViewsOf(mem))
  }

  function Goto(w: World, t: nat, thread: Thread): World {
    w.(threads := w.threads[t := thread])
  }

  predicate Handling(w: World, t: nat) {
    t in w.threads && w.threads[t].Begun?
  }

  ghost predicate Leavable(cfg: Config, w: World, t: nat, victims: set<ReplayKey>) {
    && t in w.threads && w.threads[t].Replying? && ReplayKeyOf(w.threads[t].env) in w.mem.replay
    && (var key := ReplayKeyOf(w.threads[t].env);
        Evicts(w.mem.replay[key := Finished(w.mem.replay[key], w.threads[t].reply)], victims, cfg.replayCapacity))
  }

  /** When an event can happen. */
  ghost predicate Enabled(cfg: Config, w: World, ev: Event) {
    match ev
    case Arrive(t, env, now) => t !in w.threads && ValidEnvelope(env) && now > UNSET
    case Enter(t, now, victims, saved) =>
      && t in w.threads && w.threads[t].Checked? && now > UNSET
      && Evicts(Prune(cfg, w.mem.replay, now), victims, cfg.replayCapacity - 1)
    case Serve(t, now, renv) =>
      && Handling(w, t) && w.threads[t].env.payload.ExecutionRequest? && now > UNSET && renv.newId !in w.issued
    case Assign(t, now, placed, saved) => Handling(w, t) && w.threads[t].env.payload.ExecutionAssign? && now > UNSET
    case Started(t, startErr, now, saved) => t in w.threads && w.threads[t].Launching? && now > UNSET
    case Cancel(t, now, saved) => Handling(w, t) && w.threads[t].env.payload.ExecutionCancel? && now > UNSET
    case Stopped(t, stopped, now, saved) =>
      t in w.threads && (w.threads[t].Stopping? || w.threads[t].Evicting?) && now > UNSET
    case Release(t, now, saved) => Handling(w, t) && w.threads[t].env.payload.ExecutionOfferRelease? && now > UNSET
    case Renew(t, now, saved) => Handling(w, t) && w.threads[t].env.payload.ExecutionLeaseRenew? && now > UNSET
    case Read(t, bound) =>
      Handling(w, t) && (w.threads[t].env.payload.ExecutionInspect? || w.threads[t].env.payload.ExecutionTunnelOpen?)
    case Leave(t, victims, saved) => Leavable(cfg, w, t, victims)
    case Evict(t, x, now, saved) =>
      t !in w.threads && now > UNSET && x in w.mem.executions && LeaseLapsed(w.mem.executions[x], Max(w.mem.highWater, now))
    case Complete(c, now, saved) => now > UNSET
    case Tick(now, saved) => now > UNSET
    case SweepUp(now, saved) => w.cleaning == {} && now > UNSET
    case Clean(id, saved) => id in w.cleaning
    case Swept => true
    case Recover(x, outcome, checked, now, saved) => w.threads == map[] && x in w.mem.executions && now > UNSET
    case Crash(now) => now > UNSET
  }

  // ----------------------------------------------- one function per locked section

  function Arriving(w: World, t: nat, env: Envelope, now: Time): World {
    var s := Advance(w.mem, now);
    if Freshness(s, env).None? then Goto(Commit(w, s, false), t, Checked(env, s.highWater)) else Commit(w, s, false)
  }

  ghost function Entering(cfg: Config, w: World, t: nat, now: Time, victims: set<ReplayKey>, saved: bool): World
    requires t in w.threads && w.threads[t].Checked?
  {
    var th := w.threads[t];
    var (s, b) := BeginReplay(cfg, w.mem, th.env, now, victims, saved);
    if b.Fresh? then Goto(Commit(w, s, saved), t, Begun(th.env, th.at)) else Commit(w, s, false).(threads := w.threads - {t})
  }

  ghost function Serving(cfg: Config, w: World, t: nat, now: Time, renv: RequestEnv): World
    requires Handling(w, t) && w.threads[t].env.payload.ExecutionRequest?
  {
    var e := w.threads[t].env;
    var (s, reply) := HandleRequest(cfg, w.mem, e.sender, e.payload.request, now, renv);
    Goto(Commit(w, s, renv.saved), t, Replying(e, reply)).(issued := w.issued + {renv.newId})
  }

  ghost function Assigning(cfg: Config, w: World, t: nat, now: Time, placed: bool, saved: bool): World
    requires Handling(w, t) && w.threads[t].env.payload.ExecutionAssign?
  {
    var e := w.threads[t].env;
    var p := e.payload;
    var (s, a) := AssignBegin(cfg, w.mem, e, p.requestId, p.offerId, p.executionId, now, placed, saved);
    if a.Settled? then Goto(Commit(w, s, saved), t, Replying(e, a.reply))
    else Goto(Commit(w, s, saved), t, Launching(e, p.executionId))
           .(launches := w.launches + [Launched(p.offerId, p.executionId, e.sender, p.requestId)])
  }

  function StartReturned(cfg: Config, w: World, t: nat, startErr: Option<string>, now: Time, saved: bool): World
    requires t in w.threads && w.threads[t].Launching?
  {
    var th := w.threads[t];
    if th.x !in w.mem.executions then w else
    var s := AssignEnd(cfg, w.mem, th.x, startErr, now);
    Goto(Commit(w, s, saved), t,
         Replying(th.env, Reply([StateResponse(ViewOf(th.x, s.executions[th.x]))],
                                if !saved then Some(StoreFailure) else if startErr.Some? then Some(RuntimeStart) else None)))
  }

  function CancelBegins(w: World, t: nat, now: Time, saved: bool): World
    requires Handling(w, t) && w.threads[t].env.payload.ExecutionCancel?
  {
    var e := w.threads[t].env;
    var x := e.payload.executionId;
    var (s, c) := CancelBegin(w.mem, e, x, e.payload.reason, now, saved);
    if c.Answered? then Goto(Commit(w, s, saved), t, Replying(e, c.reply))
    else Goto(Commit(w, s, saved), t, Stopping(e, x, e.payload.reason, w.mem.executions[x].phase, w.mem.executions[x].detail))
  }

  function StopReturned(cfg: Config, w: World, t: nat, stopped: bool, now: Time, saved: bool): World
    requires t in w.threads && (w.threads[t].Stopping? || w.threads[t].Evicting?)
  {
    var th := w.threads[t];
    if th.Evicting? then
      Commit(w, EvictEnd(cfg, w.mem, th.x, th.wasPhase, th.wasDetail, stopped, now), saved).(threads := w.threads - {t})
    else if th.x !in w.mem.executions then w else
    var s := CancelEnd(cfg, w.mem, th.x, th.reason, th.wasPhase, th.wasDetail, stopped, now);
    Goto(Commit(w, s, saved), t, Replying(th.env,
         if !stopped then Fail(RuntimeStop)
         else Reply([StateResponse(ViewOf(th.x, s.executions[th.x]))], if saved then None else Some(StoreFailure))))
  }

  function Replied(w: World, t: nat, s: State, reply: Reply, saved: bool): World
    requires Handling(w, t)
  {
    Goto(Commit(w, s, saved), t, Replying(w.threads[t].env, reply))
  }

  function Leaving(w: World, t: nat, victims: set<ReplayKey>, saved: bool): World
    requires t in w.threads && w.threads[t].Replying?
  {
    var th := w.threads[t];
    Commit(w, FinishReplay(w.mem, th.env, th.reply, victims), saved).(threads := w.threads - {t})
  }

  function EvictingBegins(w: World, t: nat, x: string, now: Time, saved: bool): World
    requires x in w.mem.executions
  {
    var s := Advance(w.mem, now);
    var w1 := Commit(w, EvictBegin(s, x, s.highWater, saved), saved);
    if saved then Goto(w1, t, Evicting(x, s.executions[x].phase, s.executions[x].detail)) else w1
  }

  /** A sweep whose save fails restores everything it had cloned, the clock included. */
  ghost function Sweeping(cfg: Config, w: World, now: Time, saved: bool): World {
    if !saved then w else
    var s1, s := SweepReady(cfg, w.mem, now), Sweep(cfg, w.mem, now);
    var dead := CollectableIds(s1, s1.highWater);
    Commit(w, s, true).(
      cleaning := (set id | id in s.tombstones && s.tombstones[id].cleanupPending),
      retired := w.retired + (map k | k in s1.requests && s1.requests[k] in dead :: s1.highWater),
      buried := w.buried + dead)
  }

  function Cleaning(w: World, id: string, saved: bool): World {
    (if saved then Commit(w, CleanedUp(w.mem, id), true) else w).(cleaning := w.cleaning - {id})
  }

  ghost function Restarting(cfg: Config, w: World, now: Time): World {
    Commit(w, Reload(cfg, w.disk, now), false).(threads := map[], cleaning := {})
  }

  ghost function Apply(cfg: Config, w: World, ev: Event): (w': World)
    requires Enabled(cfg, w, ev)
  {
    match ev
    case Arrive(t, env, now) => Arriving(w, t, env, now)
    case Enter(t, now, victims, saved) => Entering(cfg, w, t, now, victims, saved)
    case Serve(t, now, renv) => Serving(cfg, w, t, now, renv)
    case Assign(t, now, placed, saved) => Assigning(cfg, w, t, now, placed, saved)
    case Started(t, startErr, now, saved) => StartReturned(cfg, w, t, startErr, now, saved)
    case Cancel(t, now, saved) => CancelBegins(w, t, now, saved)
    case Stopped(t, stopped, now, saved) => StopReturned(cfg, w, t, stopped, now, saved)
    case Release(t, now, saved) =>
      var e := w.threads[t].env;
      var (s, reply) := HandleRelease(w.mem, e, e.payload.requestId, e.payload.offerId, now, saved);
      Replied(w, t, s, reply, saved)
    case Renew(t, now, saved) =>
      var e := w.threads[t].env;
      var (s, reply) := HandleRenew(w.mem, e, e.payload.executionId, e.payload.duration, now, saved);
      Replied(w, t, s, reply, saved)
    case Read(t, bound) => Replied(w, t, w.mem, HandleRead(w.mem, w.threads[t].env, bound), false)
    case Leave(t, victims, saved) => Leaving(w, t, victims, saved)
    case Evict(t, x, now, saved) => EvictingBegins(w, t, x, now, saved)
    case Complete(c, now, saved) => Commit(w, RuntimeCompleted(cfg, w.mem, c, now, saved).0, saved)
    case Tick(now, saved) => Commit(w, Expire(w.mem, now), saved)
    case SweepUp(now, saved) => Sweeping(cfg, w, now, saved)
    case Clean(id, saved) => Cleaning(w, id, saved)
    case Swept => w.(cleaning := {})
    case Recover(x, outcome, checked, now, saved) => Commit(w, RecoverVisit(cfg, w.mem, x, outcome, checked, now), saved)
    case Crash(now) => Restarting(cfg, w, now)
  }

  const START := World(EMPTY, EMPTY, map[], {}, [], {}, map[], {}, {})

  /** A run: a start state and, for each event, the state it leads to. */
  ghost predicate Run(cfg: Config, worlds: seq<World>, events: seq<Event>) {
    && |worlds| == |events| + 1 && worlds[0] == START
    && forall i | 0 <= i < |events| :: Enabled(cfg, worlds[i], events[i]) && worlds[i + 1] == Apply(cfg, worlds[i], events[i])
  }
}
