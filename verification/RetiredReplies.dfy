/** The replay cache never revives retired work either: a stored answer to a
    request that was sent before the request was collected holds an offer only
    once no envelope of that age passes the freshness check any more. */
module RetiredReplies {
  import opened Protocol
  import opened AllocatorState
  import opened AllocatorInvariant
  import opened AllocatorSteps
  import opened AllocatorQuiet
  import opened AllocatorRuns
  import opened WorldInvariant
  import opened WorldSteps
  import opened AllocatorTheorems

  predicate HoldsOffer(reply: Reply) {
    exists i | 0 <= i < |reply.responses| :: reply.responses[i].OfferResponse?
  }

  function Wanted(env: Envelope): RequestKey
    requires env.payload.ExecutionRequest?
  {
    (env.sender, env.payload.request.requestId)
  }

  predicate Predates(retired: map<RequestKey, Time>, env: Envelope) {
    env.payload.ExecutionRequest? && Wanted(env) in retired && env.sentAt < retired[Wanted(env)]
  }

  predicate ReplyPast(highWater: Time, retired: map<RequestKey, Time>, env: Envelope, reply: Reply) {
    Predates(retired, env) && HoldsOffer(reply) ==> highWater >= retired[Wanted(env)] + COMMAND_HORIZON
  }

  predicate RepliesPast(s: State, retired: map<RequestKey, Time>) {
    forall k | k in s.replay && s.replay[k].done :: ReplyPast(s.highWater, retired, s.replay[k].envelope, s.replay[k].reply)
  }

  predicate ThreadsPast(w: World) {
    forall t | t in w.threads && w.threads[t].Replying? ::
      ReplyPast(w.mem.highWater, w.retired, w.threads[t].env, w.threads[t].reply)
  }

  predicate RepliesInv(w: World) {
    RepliesPast(w.mem, w.retired) && RepliesPast(w.disk, w.retired) && ThreadsPast(w)
  }

  // ------------------------------------------------------ sections of a command

  /** The cache only loses finished entries or gains unfinished ones, and the clock does not go back. */
  predicate CacheStep(s: State, s': State) {
    s.highWater <= s'.highWater && NothingNew(s.replay, s'.replay)
  }

  predicate NothingNew(was: map<ReplayKey, ReplayEntry>, now: map<ReplayKey, ReplayEntry>) {
    forall k | k in now && now[k].done :: k in was && now[k] == was[k]
  }

  /** Only `t` may have got a new answer. */
  predicate OneAnswer(w: World, w': World, t: nat) {
    forall u | u in w'.threads && w'.threads[u].Replying? && u != t :: u in w.threads && w'.threads[u] == w.threads[u]
  }

  predicate NewAnswer(w': World, t: nat) {
    t in w'.threads && w'.threads[t].Replying? ==>
      ReplyPast(w'.mem.highWater, w'.retired, w'.threads[t].env, w'.threads[t].reply)
  }

  lemma CacheKeeps(w: World, w': World, t: nat)
    requires RepliesInv(w) && CacheStep(w.mem, w'.mem) && w'.retired == w.retired && (w'.disk == w.disk || w'.disk == w'.mem)
    requires OneAnswer(w, w', t) && NewAnswer(w', t)
    ensures RepliesInv(w')
  {
  }

  lemma PrunedCache(cfg: Config, replay: map<ReplayKey, ReplayEntry>, now: Time, victims: set<ReplayKey>, key: ReplayKey, entry: ReplayEntry)
    requires !entry.done
    ensures NothingNew(replay, Prune(cfg, replay, now))
    ensures NothingNew(replay, Prune(cfg, replay, now) - victims)
    ensures NothingNew(replay, (Prune(cfg, replay, now) - victims)[key := entry])
  {
  }

  lemma BeginCache(cfg: Config, s: State, e: Envelope, now: Time, victims: set<ReplayKey>, saved: bool)
    ensures CacheStep(s, BeginReplay(cfg, s, e, now, victims, saved).0)
  {
    hide Expire, Prune, NothingNew;
    ExpireFrame(s, now);
    PrunedCache(cfg, s.replay, now, victims, ReplayKeyOf(e), ReplayEntry(now, e, false, Reply([], None)));
  }

  lemma ServeAnswer(cfg: Config, w: World, t: nat, now: Time, renv: RequestEnv)
    requires WorldInv(cfg, w) && Handling(w, t) && w.threads[t].env.payload.ExecutionRequest?
    ensures var (s, reply) := HandleRequest(cfg, w.mem, w.threads[t].env.sender, w.threads[t].env.payload.request, now, renv);
      ReplyPast(w.mem.highWater, w.retired, w.threads[t].env, reply)
  {
    hide Inv, LogSound, ThreadsSound, Expire, Admit, IdsIssued, LaunchesKept;
    var e := w.threads[t].env;
    if Predates(w.retired, e) {
      assert Guarded(w.mem, Wanted(e), w.retired[Wanted(e)]);
      ExpireFrame(w.mem, now);
      if w.mem.highWater < w.retired[Wanted(e)] + COMMAND_HORIZON {
        assert Tombstoned(Expire(w.mem, now), Wanted(e));
      }
    }
  }

  predicate Plain(ev: Event) {
    !ev.Serve? && !ev.Enter? && !ev.Leave? && !ev.SweepUp? && !ev.Crash?
  }

  predicate CacheIdle(w: World, w': World) {
    && w'.mem.replay == w.mem.replay && w.mem.highWater <= w'.mem.highWater && w'.retired == w.retired
    && (w'.disk == w.disk || w'.disk == w'.mem)
  }

  predicate TwoPhase(ev: Event) {
    ev.Arrive? || ev.Assign? || ev.Started? || ev.Cancel? || ev.Stopped? || ev.Evict?
  }

  /** Sections that answer neither a request nor touch the cache. */
  lemma PlainMem(cfg: Config, w: World, ev: Event)
    requires Enabled(cfg, w, ev) && Plain(ev)
    ensures CacheIdle(w, Apply(cfg, w, ev)) && (!ev.Clean? ==> Apply(cfg, w, ev).mem.tombstones == w.mem.tombstones)
  {
    hide Apply, Enabled, Plain;
    if TwoPhase(ev) {
      TwoPhaseIdle(cfg, w, ev);
    } else {
      OthersIdle(cfg, w, ev);
    }
  }

  lemma TwoPhaseIdle(cfg: Config, w: World, ev: Event)
    requires Enabled(cfg, w, ev) && Plain(ev) && TwoPhase(ev)
    ensures CacheIdle(w, Apply(cfg, w, ev)) && (!ev.Clean? ==> Apply(cfg, w, ev).mem.tombstones == w.mem.tombstones)
  {
    hide AssignBegin, AssignEnd, CancelBegin, CancelEnd, EvictEnd, EvictBegin, Quiet, ViewsOf, Freshness;
    match ev
    case Arrive(_, env, now) =>
    case Assign(t, now, placed, saved) => AssignCache(cfg, w.mem, w.threads[t].env, now, placed, saved);
    case Started(t, startErr, now, saved) =>
      if w.threads[t].x in w.mem.executions { AssignEndCache(cfg, w.mem, w.threads[t].x, startErr, now); }
    case Cancel(t, now, saved) => CancelCache(w.mem, w.threads[t].env, now, saved);
    case Stopped(t, stopped, now, saved) =>
      var th := w.threads[t];
      StopCache(cfg, w.mem, th.x, if th.Stopping? then th.reason else "", th.wasPhase, th.wasDetail, stopped, now);
    case Evict(_, x, now, saved) => EvictFrame(w.mem, x, now, saved);
  }

  lemma OthersIdle(cfg: Config, w: World, ev: Event)
    requires Enabled(cfg, w, ev) && Plain(ev) && !TwoPhase(ev)
    ensures CacheIdle(w, Apply(cfg, w, ev)) && (!ev.Clean? ==> Apply(cfg, w, ev).mem.tombstones == w.mem.tombstones)
  {
    hide Expire, HandleRelease, Quiet, HandleRenew, RuntimeCompleted, RecoverVisit, HandleRead, ViewsOf, CleanedUp;
    match ev
    case Release(t, now, saved) => ReleaseCache(w.mem, w.threads[t].env, now, saved);
    case Renew(t, now, saved) => RenewCache(w.mem, w.threads[t].env, now, saved);
    case Read(_, _) =>
    case Complete(c, now, saved) => CompletedCache(cfg, w.mem, c, now, saved);
    case Tick(now, saved) => ExpireFrame(w.mem, now);
    case Clean(id, saved) => CleanedFrame(w.mem, id);
    case Swept =>
    case Recover(x, outcome, checked, now, saved) => RecoverFrame(cfg, w.mem, x, outcome, checked, now);
  }

  predicate Untouched(s: State, s': State) {
    s'.replay == s.replay && s'.highWater == s.highWater && s'.tombstones == s.tombstones
  }

  lemma AssignCache(cfg: Config, s: State, e: Envelope, now: Time, placed: bool, saved: bool)
    requires e.payload.ExecutionAssign?
    ensures Untouched(s, AssignBegin(cfg, s, e, e.payload.requestId, e.payload.offerId, e.payload.executionId, now, placed, saved).0)
  {
    AssignOutcome(cfg, s, e, e.payload.requestId, e.payload.offerId, e.payload.executionId, now, placed, saved);
    ExpireFrame(s, now);
    hide AssignBegin, Expire;
  }

  lemma AssignEndCache(cfg: Config, s: State, x: string, startErr: Option<string>, now: Time)
    requires x in s.executions
    ensures Untouched(s, AssignEnd(cfg, s, x, startErr, now))
  {
  }

  lemma CancelCache(s: State, e: Envelope, now: Time, saved: bool)
    requires e.payload.ExecutionCancel?
    ensures Untouched(s, CancelBegin(s, e, e.payload.executionId, e.payload.reason, now, saved).0)
  {
  }

  lemma StopCache(cfg: Config, s: State, x: string, reason: string, wasPhase: Phase, wasDetail: string, stopped: bool, now: Time)
    ensures x in s.executions ==> Untouched(s, CancelEnd(cfg, s, x, reason, wasPhase, wasDetail, stopped, now))
    ensures Untouched(s, EvictEnd(cfg, s, x, wasPhase, wasDetail, stopped, now))
  {
    hide Ended, Touch;
  }

  lemma ReleaseCache(s: State, e: Envelope, now: Time, saved: bool)
    requires e.payload.ExecutionOfferRelease?
    ensures Untouched(s, HandleRelease(s, e, e.payload.requestId, e.payload.offerId, now, saved).0)
  {
  }

  lemma RenewCache(s: State, e: Envelope, now: Time, saved: bool)
    requires e.payload.ExecutionLeaseRenew?
    ensures Untouched(s, HandleRenew(s, e, e.payload.executionId, e.payload.duration, now, saved).0)
  {
  }

  lemma CompletedCache(cfg: Config, s: State, c: Completion, now: Time, saved: bool)
    ensures Untouched(s, RuntimeCompleted(cfg, s, c, now, saved).0)
  {
    hide Ended, Touch;
  }

  lemma PlainThreads(cfg: Config, w: World, ev: Event, u: nat)
    requires ThreadsSound(w) && Enabled(cfg, w, ev) && Plain(ev)
    ensures var w' := Apply(cfg, w, ev);
      u in w'.threads && w'.threads[u].Replying? ==>
        || (u in w.threads && w'.threads[u] == w.threads[u])
        || !w'.threads[u].env.payload.ExecutionRequest?
  {
    hide Expire, AssignBegin, AssignEnd, CancelBegin, CancelEnd, EvictEnd, EvictBegin, HandleRelease, Quiet,
         HandleRenew, RuntimeCompleted, RecoverVisit, HandleRead, ViewsOf, CleanedUp, Freshness, Keyed;
    if u in w.threads { assert ThreadSound(w.mem, w.threads[u]); }
  }

  lemma EvictFrame(s: State, x: string, now: Time, saved: bool)
    requires x in s.executions
    ensures var s' := EvictBegin(Advance(s, now), x, Advance(s, now).highWater, saved);
      s'.replay == s.replay && s.highWater <= s'.highWater && s'.tombstones == s.tombstones
  {
  }

  lemma CleanedFrame(s: State, id: string)
    ensures CleanedUp(s, id).replay == s.replay && CleanedUp(s, id).highWater == s.highWater
  {
  }

  lemma FinishFrame(cfg: Config, s: State, x: string, phase: Phase, detail: string, exit: Option<int>, now: Time)
    requires x in s.executions
    ensures Untouched(s, AllocatorState.Finish(cfg, s, x, phase, detail, exit, now))
  {
  }

  lemma RecoverFrame(cfg: Config, s: State, x: string, outcome: RuntimeOutcome, checked: Time, now: Time)
    requires x in s.executions
    ensures Untouched(s, RecoverVisit(cfg, s, x, outcome, checked, now))
  {
    hide AllocatorState.Finish, Touch, LeaseLapsed;
    var r := s.executions[x];
    FinishFrame(cfg, s, x, if r.detail == LEASE_EXPIRED then Failed else Cancelled, r.detail, None, now);
    FinishFrame(cfg, s, x, Failed, LEASE_EXPIRED, None, now);
    if outcome.Missing? || outcome.Conflicting? { FinishFrame(cfg, s, x, Failed, outcome.detail, None, now); }
  }

  lemma PlainStep(cfg: Config, w: World, ev: Event)
    requires WorldInv(cfg, w) && RepliesInv(w) && Enabled(cfg, w, ev) && Plain(ev)
    ensures RepliesInv(Apply(cfg, w, ev))
  {
    hide Core, ThreadsSound, Enabled, Apply, Plain;
    var w' := Apply(cfg, w, ev);
    PlainMem(cfg, w, ev);
    forall u | u in w'.threads && w'.threads[u].Replying?
      ensures ReplyPast(w'.mem.highWater, w'.retired, w'.threads[u].env, w'.threads[u].reply)
    {
      PlainThreads(cfg, w, ev, u);
    }
  }

  lemma EnterReplies(cfg: Config, w: World, t: nat, now: Time, victims: set<ReplayKey>, saved: bool)
    requires RepliesInv(w) && t in w.threads && w.threads[t].Checked?
    ensures RepliesInv(Entering(cfg, w, t, now, victims, saved))
  {
    hide BeginReplay, CacheStep, RepliesInv;
    BeginCache(cfg, w.mem, w.threads[t].env, now, victims, saved);
    CacheKeeps(w, Entering(cfg, w, t, now, victims, saved), t);
  }

  lemma ServeReplies(cfg: Config, w: World, t: nat, now: Time, renv: RequestEnv)
    requires WorldInv(cfg, w) && RepliesInv(w) && Handling(w, t) && w.threads[t].env.payload.ExecutionRequest?
    ensures RepliesInv(Serving(cfg, w, t, now, renv))
  {
    hide Inv, Hist, LogSound, ThreadsSound, HandleRequest, RepliesInv, ReplyPast;
    ServeAnswer(cfg, w, t, now, renv);
    RequestOutcome(cfg, w.mem, w.threads[t].env.sender, w.threads[t].env.payload.request, now, renv);
    CacheKeeps(w, Serving(cfg, w, t, now, renv), t);
  }

  lemma LeaveReplies(cfg: Config, w: World, t: nat, victims: set<ReplayKey>, saved: bool)
    requires WorldInv(cfg, w) && RepliesInv(w) && Leavable(cfg, w, t, victims)
    ensures RepliesInv(Leaving(w, t, victims, saved))
  {
    hide Inv, Hist, LogSound, ReplyPast, Evicts;
    var w' := Leaving(w, t, victims, saved);
    OwnedStays(w, t, w.mem);
    forall k | k in w'.mem.replay && w'.mem.replay[k].done
      ensures ReplyPast(w'.mem.highWater, w'.retired, w'.mem.replay[k].envelope, w'.mem.replay[k].reply)
    {
      if k == ReplayKeyOf(w.threads[t].env) {
        assert ReplyPast(w.mem.highWater, w.retired, w.threads[t].env, w.threads[t].reply);
      }
    }
  }

  // -------------------------------------------------------------------- sweep

  /** A request that is being collected has no command in flight and no stored answer left. */
  lemma NoAnswerLeft(cfg: Config, s: State, now: Time, k: RequestKey, key: ReplayKey)
    requires Inv(cfg, s) && k in s.requests && s.requests[k] in CollectableIds(s, now)
    ensures var s' := Retire(AllocatorState.Collect(s, CollectableIds(s, now), now), now);
      key in s'.replay && s'.replay[key].envelope.payload.ExecutionRequest? ==> Wanted(s'.replay[key].envelope) != k
  {
    IndexHits(cfg, s, k);
    hide Inv;
    var dead, id := CollectableIds(s, now), s.requests[k];
    var s1 := AllocatorState.Collect(s, dead, now);
    if key in s1.replay && s1.replay[key].envelope.payload.ExecutionRequest? && Wanted(s1.replay[key].envelope) == k {
      if s1.replay[key].done {
        assert id in s1.tombstones && s1.tombstones[id] == Bury(id, s.offers[id], now);
        assert Tombstoned(s1, k);
      } else {
        assert false;
      }
    }
  }

  lemma SweptReply(cfg: Config, w: World, now: Time, env: Envelope, reply: Reply)
    requires ReplyPast(w.mem.highWater, w.retired, env, reply)
    requires var s1 := SweepReady(cfg, w.mem, now);
      env.payload.ExecutionRequest? && Wanted(env) in s1.requests ==> s1.requests[Wanted(env)] !in CollectableIds(s1, s1.highWater)
    ensures var w' := Sweeping(cfg, w, now, true); ReplyPast(w'.mem.highWater, w'.retired, env, reply)
  {
    SweepFrame(cfg, w.mem, now);
    ReadyQuiet(cfg, w.mem, now);
    hide SweepReady, CollectableIds, Sweep, ViewsOf, Quiet, EntriesKept, HoldsOffer;
  }

  lemma SweepReplies(cfg: Config, w: World, now: Time, saved: bool)
    requires WorldInv(cfg, w) && RepliesInv(w)
    ensures RepliesInv(Sweeping(cfg, w, now, saved))
  {
    hide LogSound, Hist, Inv, SweepReady, CollectableIds, ReplyPast, Quiet, EntriesKept, Keyed;
    if saved {
      var w', s1 := Sweeping(cfg, w, now, true), SweepReady(cfg, w.mem, now);
      SweepInv(cfg, w.mem, now);
      SweepCache(cfg, w.mem, now);
      forall key | key in w'.mem.replay && w'.mem.replay[key].done
        ensures ReplyPast(w'.mem.highWater, w'.retired, w'.mem.replay[key].envelope, w'.mem.replay[key].reply)
      {
        var env := w'.mem.replay[key].envelope;
        if env.payload.ExecutionRequest? && Wanted(env) in s1.requests && s1.requests[Wanted(env)] in CollectableIds(s1, s1.highWater) {
          NoAnswerLeft(cfg, s1, s1.highWater, Wanted(env), key);
        }
        SweptReply(cfg, w, now, env, w'.mem.replay[key].reply);
      }
      forall t | t in w'.threads && w'.threads[t].Replying?
        ensures ReplyPast(w'.mem.highWater, w'.retired, w'.threads[t].env, w'.threads[t].reply)
      {
        SweptThreadReply(cfg, w, now, t);
      }
    }
  }

  lemma SweepCache(cfg: Config, s: State, now: Time)
    ensures var s' := Sweep(cfg, s, now); forall k | k in s'.replay :: k in s.replay && s'.replay[k] == s.replay[k]
    ensures var s1, s' := SweepReady(cfg, s, now), Sweep(cfg, s, now); forall k | k in s'.replay :: k in s1.replay && s'.replay[k] == s1.replay[k]
    ensures var s1 := SweepReady(cfg, s, now);
      Sweep(cfg, s, now) == Retire(AllocatorState.Collect(s1, CollectableIds(s1, s1.highWater), s1.highWater), s1.highWater)
  {
    ExpireFrame(Advance(s, now), Max(s.highWater, now));
    hide Expire, CollectableIds;
  }

  lemma SweptThreadReply(cfg: Config, w: World, now: Time, t: nat)
    requires WorldInv(cfg, w) && RepliesInv(w) && t in w.threads && w.threads[t].Replying?
    ensures var w' := Sweeping(cfg, w, now, true);
      ReplyPast(w'.mem.highWater, w'.retired, w.threads[t].env, w.threads[t].reply)
  {
    hide LogSound, Hist, Inv, SweepReady, ReplyPast, Quiet, Collectable, Sweep;
    var env, s1 := w.threads[t].env, SweepReady(cfg, w.mem, now);
    SweepInv(cfg, w.mem, now);
    SweepEntries(cfg, w.mem, now);
    OwnedStays(w, t, w.mem);
    if env.payload.ExecutionRequest? && Wanted(env) in s1.requests {
      NotCollected(cfg, s1, s1.highWater, env);
    }
    SweptReply(cfg, w, now, env, w.threads[t].reply);
  }

  lemma NotCollected(cfg: Config, s: State, now: Time, env: Envelope)
    requires Inv(cfg, s) && Owned(s, env) && env.payload.ExecutionRequest? && Wanted(env) in s.requests
    ensures s.requests[Wanted(env)] !in CollectableIds(s, now)
  {
    IndexHits(cfg, s, Wanted(env));
    hide Inv;
    assert BusyKey(s, s.replay[ReplayKeyOf(env)]) == Some(Wanted(env));
    assert Busy(s, Wanted(env));
  }

  lemma CrashReplies(cfg: Config, w: World, now: Time)
    requires RepliesInv(w)
    ensures RepliesInv(Restarting(cfg, w, now))
  {
    hide ReplyPast;
  }

  // ----------------------------------------------------------------- theorem

  lemma ReplyStepInv(cfg: Config, w: World, ev: Event)
    requires WorldInv(cfg, w) && RepliesInv(w) && Enabled(cfg, w, ev)
    ensures RepliesInv(Apply(cfg, w, ev))
  {
    hide WorldInv, RepliesInv, Entering, Serving, Leaving, Sweeping, Restarting, Evicts, Leavable;
    match ev
    case Enter(t, now, victims, saved) => EnterReplies(cfg, w, t, now, victims, saved);
    case Serve(t, now, renv) => ServeReplies(cfg, w, t, now, renv);
    case Leave(t, victims, saved) => LeaveReplies(cfg, w, t, victims, saved);
    case SweepUp(now, saved) => SweepReplies(cfg, w, now, saved);
    case Crash(now) => CrashReplies(cfg, w, now);
    case _ => PlainStep(cfg, w, ev);
  }

  lemma StartReplies()
    ensures RepliesInv(START)
  {
  }

  lemma {:induction false} RunReplies(cfg: Config, worlds: seq<World>, events: seq<Event>, n: nat)
    requires ValidConfig(cfg) && Run(cfg, worlds, events) && n < |worlds|
    ensures RepliesInv(worlds[n])
  {
    hide RepliesInv, WorldInv, Apply, Enabled;
    if n == 0 {
      StartReplies();
    } else {
      RunReplies(cfg, worlds, events, n - 1);
      RunInv(cfg, worlds, events, n - 1);
      ReplyStepInv(cfg, worlds[n - 1], events[n - 1]);
    }
  }

  /** A redelivered request that was sent before its request was collected, and is still within the horizon when
      it is looked up, gets no offer from the replay cache. */
  lemma NoOfferFromCache(cfg: Config, w: World, t: nat, now: Time, victims: set<ReplayKey>, saved: bool)
    requires Reachable(cfg, w) && Enabled(cfg, w, Enter(t, now, victims, saved))
    requires Predates(w.retired, w.threads[t].env) && w.mem.highWater <= w.threads[t].env.sentAt + COMMAND_HORIZON
    ensures var b := BeginReplay(cfg, w.mem, w.threads[t].env, now, victims, saved).1;
      b.Duplicate? && b.entry.done ==> !HoldsOffer(b.entry.reply)
  {
    var worlds, events, n :| Run(cfg, worlds, events) && 0 <= n < |worlds| && worlds[n] == w;
    hide Reachable, Run;
    RunReplies(cfg, worlds, events, n);
    var e := w.threads[t].env;
    ExpireFrame(w.mem, now);
    hide Expire, HoldsOffer, Enabled;
    if ReplayKeyOf(e) in w.mem.replay && w.mem.replay[ReplayKeyOf(e)].done {
      assert ReplyPast(w.mem.highWater, w.retired, w.mem.replay[ReplayKeyOf(e)].envelope, w.mem.replay[ReplayKeyOf(e)].reply);
    }
  }

  // ------------------------------------------------------------------ deferred cleanup

  lemma EnterTombstones(cfg: Config, w: World, t: nat, now: Time, victims: set<ReplayKey>, saved: bool)
    requires t in w.threads && w.threads[t].Checked?
    ensures Entering(cfg, w, t, now, victims, saved).mem.tombstones == w.mem.tombstones
  {
    hide Expire, Prune, ViewsOf, BeginReplay;
    BeginTombstones(cfg, w.mem, w.threads[t].env, now, victims, saved);
  }

  lemma BeginTombstones(cfg: Config, s: State, e: Envelope, now: Time, victims: set<ReplayKey>, saved: bool)
    ensures BeginReplay(cfg, s, e, now, victims, saved).0.tombstones == s.tombstones
  {
    hide Expire, Prune;
    ExpireFrame(s, now);
  }

  lemma ServeTombstones(cfg: Config, w: World, t: nat, now: Time, renv: RequestEnv)
    requires Handling(w, t) && w.threads[t].env.payload.ExecutionRequest?
    ensures Serving(cfg, w, t, now, renv).mem.tombstones == w.mem.tombstones
  {
    hide Expire, RequestRefusal, ViewsOf;
    ExpireFrame(w.mem, now);
  }

  /** While a sweep works off its pending cleanups nothing else touches their tombstones, so the copy it took is
      still the one on record when it marks it clean or puts it back. */
  lemma CleanupUndisturbed(cfg: Config, w: World, ev: Event, id: string)
    requires Enabled(cfg, w, ev) && id in w.cleaning && id in w.mem.tombstones && id in Apply(cfg, w, ev).cleaning
    ensures id in Apply(cfg, w, ev).mem.tombstones && Apply(cfg, w, ev).mem.tombstones[id] == w.mem.tombstones[id]
  {
    hide Enabled, Apply, Plain;
    if Plain(ev) && !ev.Clean? {
      PlainTombstones(cfg, w, ev);
    } else {
      OwnTombstones(cfg, w, ev, id);
    }
  }

  lemma OwnTombstones(cfg: Config, w: World, ev: Event, id: string)
    requires Enabled(cfg, w, ev) && (ev.Clean? || !Plain(ev))
    requires id in w.cleaning && id in w.mem.tombstones && id in Apply(cfg, w, ev).cleaning
    ensures id in Apply(cfg, w, ev).mem.tombstones && Apply(cfg, w, ev).mem.tombstones[id] == w.mem.tombstones[id]
  {
    hide Entering, Serving, Sweeping, Leaving, Cleaning, Restarting, Evicts, Prune, Leavable;
    match ev
    case Enter(t, now, victims, saved) => EnterTombstones(cfg, w, t, now, victims, saved);
    case Serve(t, now, renv) => ServeTombstones(cfg, w, t, now, renv);
    case Leave(t, victims, saved) => LeaveTombstones(cfg, w, t, victims, saved);
    case Clean(other, saved) => CleanTombstones(w, other, saved, id);
    case Crash(now) => RestartCleans(cfg, w, now);
    case SweepUp(_, _) =>
  }

  lemma LeaveTombstones(cfg: Config, w: World, t: nat, victims: set<ReplayKey>, saved: bool)
    requires Leavable(cfg, w, t, victims)
    ensures Leaving(w, t, victims, saved).mem.tombstones == w.mem.tombstones
  {
    hide Evicts, ViewsOf;
  }

  lemma CleanTombstones(w: World, other: string, saved: bool, id: string)
    requires id in w.mem.tombstones && id in Cleaning(w, other, saved).cleaning
    ensures id in Cleaning(w, other, saved).mem.tombstones && Cleaning(w, other, saved).mem.tombstones[id] == w.mem.tombstones[id]
  {
    hide ViewsOf;
  }

  lemma RestartCleans(cfg: Config, w: World, now: Time)
    ensures Restarting(cfg, w, now).cleaning == {}
  {
    hide Reload, ViewsOf;
  }

  lemma PlainTombstones(cfg: Config, w: World, ev: Event)
    requires Enabled(cfg, w, ev) && Plain(ev) && !ev.Clean?
    ensures Apply(cfg, w, ev).mem.tombstones == w.mem.tombstones
  {
    hide Enabled, Apply, Plain;
    PlainMem(cfg, w, ev);
  }
}
