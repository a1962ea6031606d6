/** Every event keeps the world invariant. */
module WorldSteps {
  import opened Protocol
  import opened AllocatorState
  import opened AllocatorInvariant
  import opened AllocatorSteps
  import opened AllocatorQuiet
  import opened AllocatorRuns
  import opened WorldInvariant

  lemma ArriveStep(cfg: Config, w: World, t: nat, env: Envelope, now: Time)
    requires WorldInv(cfg, w) && t !in w.threads && ValidEnvelope(env)
    ensures WorldInv(cfg, Arriving(w, t, env, now))
  {
    hide Inv, Quiet, Hist, LogSound, EntriesKept;
    var w' := Arriving(w, t, env, now);
    AdvanceInv(cfg, w.mem, now);
    AdvanceQuiet(w.mem, now);
    CalmKeeps(cfg, w, w');
    hide Core;
    ThreadsFrame(w, w', t);
  }

  lemma AdvanceQuiet(s: State, now: Time)
    ensures Quiet(s, Advance(s, now)) && EntriesKept(s.replay, Advance(s, now).replay)
  {
  }

  lemma EnterStep(cfg: Config, w: World, t: nat, now: Time, victims: set<ReplayKey>, saved: bool)
    requires WorldInv(cfg, w) && t in w.threads && w.threads[t].Checked?
    requires Evicts(Prune(cfg, w.mem.replay, now), victims, cfg.replayCapacity - 1)
    ensures WorldInv(cfg, Entering(cfg, w, t, now, victims, saved))
  {
    hide Inv, Quiet, Hist, LogSound, EntriesKept, BeginReplay, ThreadSound, Evicts;
    var w', th := Entering(cfg, w, t, now, victims, saved), w.threads[t];
    BeginKeeps(cfg, w.mem, th.env, now, victims, saved);
    BeginQuiet(cfg, w.mem, th.env, now, victims, saved);
    CalmKeeps(cfg, w, w');
    if BeginReplay(cfg, w.mem, th.env, now, victims, saved).1.Fresh? {
      EnteredKey(cfg, w, t, now, victims, saved);
    }
    hide Core;
    ThreadsFrame(w, w', t);
  }

  lemma EnteredKey(cfg: Config, w: World, t: nat, now: Time, victims: set<ReplayKey>, saved: bool)
    requires ThreadsSound(w) && t in w.threads && w.threads[t].Checked?
    requires BeginReplay(cfg, w.mem, w.threads[t].env, now, victims, saved).1.Fresh?
    ensures NewKey(w, t, w.threads[t].env)
    ensures ThreadSound(BeginReplay(cfg, w.mem, w.threads[t].env, now, victims, saved).0, Begun(w.threads[t].env, w.threads[t].at))
  {
    var th := w.threads[t];
    EnteredFresh(cfg, w.mem, th.env, now, victims, saved);
    hide BeginReplay;
    forall u | u in w.threads && u != t && HasEntry(w.threads[u]) ensures ReplayKeyOf(w.threads[u].env) != ReplayKeyOf(th.env) {
      OwnedStays(w, u, w.mem);
    }
    assert ThreadSound(w.mem, th);
  }

  lemma EnteredFresh(cfg: Config, s: State, e: Envelope, now: Time, victims: set<ReplayKey>, saved: bool)
    requires BeginReplay(cfg, s, e, now, victims, saved).1.Fresh?
    ensures var s' := BeginReplay(cfg, s, e, now, victims, saved).0; Owned(s', e) && s'.highWater == s.highWater
    ensures ReplayKeyOf(e) in s.replay ==> s.replay[ReplayKeyOf(e)].done
  {
    ExpireFrame(s, now);
    hide Expire;
  }

  /** A handler that answers after a quiet section. */
  lemma ReplyStep(cfg: Config, w: World, t: nat, s: State, reply: Reply, saved: bool)
    requires WorldInv(cfg, w) && t in w.threads && HasEntry(w.threads[t])
    requires Inv(cfg, s) && Quiet(w.mem, s) && s.replay == w.mem.replay
    ensures WorldInv(cfg, Goto(Commit(w, s, saved), t, Replying(w.threads[t].env, reply)))
  {
    hide Inv, Quiet, Hist, LogSound;
    var w' := Goto(Commit(w, s, saved), t, Replying(w.threads[t].env, reply));
    CalmKeeps(cfg, w, w');
    hide Core;
    OwnedStays(w, t, s);
    hide ThreadSound;
    ThreadMoves(w, w', t);
  }

  lemma OwnedStays(w: World, t: nat, s: State)
    requires ThreadsSound(w) && t in w.threads && HasEntry(w.threads[t]) && s.replay == w.mem.replay
    ensures Owned(s, w.threads[t].env)
  {
    assert ThreadSound(w.mem, w.threads[t]);
  }

  lemma MintHist(cfg: Config, s: State, client: Identity, q: Request, now: Time, env: RequestEnv, w: World)
    requires Hist(s, w) && LogSound(w) && env.newId !in w.issued
    requires (client, q.requestId) !in s.requests && RequestRefusal(cfg, s, client, q, env).None?
    ensures Hist(Mint(cfg, s, client, q, now, env.newId), w.(issued := w.issued + {env.newId}))
  {
    var k, t := (client, q.requestId), Mint(cfg, s, client, q, now, env.newId);
    hide Admit;
    forall j | j in w.retired ensures Guarded(t, j, w.retired[j]) {
      assert Guarded(s, j, w.retired[j]);
      if j == k { MintTooEarly(cfg, s, client, q, env, w.retired[k]); }
    }
    hide Guarded, RequestRefusal;
  }

  /** No offer is minted for a retired request before the clock has passed its horizon. */
  lemma MintTooEarly(cfg: Config, s: State, client: Identity, q: Request, env: RequestEnv, at: Time)
    requires Guarded(s, (client, q.requestId), at) && RequestRefusal(cfg, s, client, q, env).None?
    ensures s.highWater >= at + COMMAND_HORIZON
  {
    hide Admit;
    assert !Tombstoned(s, (client, q.requestId));
  }

  /** A request either only expires offers or mints exactly one. */
  lemma RequestOutcome(cfg: Config, s: State, client: Identity, q: Request, now: Time, env: RequestEnv)
    requires Inv(cfg, s)
    ensures var s', s1 := HandleRequest(cfg, s, client, q, now, env).0, Expire(s, now);
      && s'.replay == s.replay && s'.executions == s.executions && s'.highWater == s.highWater
      && (|| s' == s1
          || (&& s' == Mint(cfg, s1, client, q, now, env.newId) && (client, q.requestId) !in s1.requests && env.saved
              && RequestRefusal(cfg, s1, client, q, env).None?))
  {
    hide Inv, Expire, RequestRefusal;
    var s1 := Expire(s, now);
    ExpireFrame(s, now);
    ExpireInv(cfg, s, now);
    if (client, q.requestId) in s1.requests { IndexHits(cfg, s1, (client, q.requestId)); }
  }

  lemma ServeStep(cfg: Config, w: World, t: nat, now: Time, renv: RequestEnv)
    requires WorldInv(cfg, w) && Handling(w, t) && w.threads[t].env.payload.ExecutionRequest? && renv.newId !in w.issued
    ensures WorldInv(cfg, Serving(cfg, w, t, now, renv))
  {
    hide Inv, Quiet, Hist, LogSound, Expire, RequestRefusal, Mint, HandleRequest, IdsIssued;
    var e := w.threads[t].env;
    var q, s1 := e.payload.request, Expire(w.mem, now);
    var (s, reply) := HandleRequest(cfg, w.mem, e.sender, q, now, renv);
    RequestOutcome(cfg, w.mem, e.sender, q, now, renv);
    ServeInv(cfg, w, t, now, renv);
    if s == s1 {
      ExpireQuiet(w.mem, now);
      hide ThreadSound, Core, ThreadsSound;
      ReplyStep(cfg, w, t, s1, reply, renv.saved);
      IssueMore(cfg, Goto(Commit(w, s1, renv.saved), t, Replying(e, reply)), renv.newId);
    } else {
      hide ThreadSound, Core, ThreadsSound;
      ServeMint(cfg, w, t, now, renv);
    }
  }

  lemma ServeInv(cfg: Config, w: World, t: nat, now: Time, renv: RequestEnv)
    requires WorldInv(cfg, w) && Handling(w, t) && w.threads[t].env.payload.ExecutionRequest? && renv.newId !in w.issued
    ensures Inv(cfg, HandleRequest(cfg, w.mem, w.threads[t].env.sender, w.threads[t].env.payload.request, now, renv).0)
  {
    hide Inv, HandleRequest, LaunchesKept, RetiredKept;
    assert ThreadSound(w.mem, w.threads[t]);
    RequestKeeps(cfg, w.mem, w.threads[t].env.sender, w.threads[t].env.payload.request, now, renv);
  }

  lemma IssuedIn(s: State, w: World)
    requires Hist(s, w)
    ensures IdsIssued(s, w.issued)
  {
  }

  lemma IssueMore(cfg: Config, w: World, id: string)
    requires WorldInv(cfg, w)
    ensures WorldInv(cfg, w.(issued := w.issued + {id}))
  {
    hide Inv, ThreadSound, LaunchesKept, RetiredKept;
  }

  lemma ServeMint(cfg: Config, w: World, t: nat, now: Time, renv: RequestEnv)
    requires WorldInv(cfg, w) && Handling(w, t) && w.threads[t].env.payload.ExecutionRequest? && renv.newId !in w.issued
    requires var e, s1 := w.threads[t].env, Expire(w.mem, now);
      && (e.sender, e.payload.request.requestId) !in s1.requests && renv.saved
      && RequestRefusal(cfg, s1, e.sender, e.payload.request, renv).None?
      && HandleRequest(cfg, w.mem, e.sender, e.payload.request, now, renv).0
           == Mint(cfg, s1, e.sender, e.payload.request, now, renv.newId)
    requires Inv(cfg, HandleRequest(cfg, w.mem, w.threads[t].env.sender, w.threads[t].env.payload.request, now, renv).0)
    ensures WorldInv(cfg, Serving(cfg, w, t, now, renv))
  {
    hide Inv, Quiet, Hist, LogSound, Expire, RequestRefusal, EntriesKept, HandleRequest, ThreadSound;
    var e, w' := w.threads[t].env, Serving(cfg, w, t, now, renv);
    var s1 := Expire(w.mem, now);
    ExpireQuiet(w.mem, now);
    ExpireFrame(w.mem, now);
    QuietHist(w.mem, s1, w);
    MintHist(cfg, s1, e.sender, e.payload.request, now, renv, w);
    HistFields(w'.mem, w.(issued := w'.issued), w');
    LogGrows(w, w');
    MintThreads(w, w', t);
  }

  lemma HistFields(s: State, w: World, w': World)
    requires Hist(s, w) && w'.issued == w.issued && w'.launches == w.launches && w'.retired == w.retired && w'.buried == w.buried
    ensures Hist(s, w')
  {
  }

  lemma LogGrows(w: World, w': World)
    requires LogSound(w) && w'.launches == w.launches && w'.buried == w.buried && w.issued <= w'.issued
    ensures LogSound(w')
  {
  }

  lemma MintThreads(w: World, w': World, t: nat)
    requires ThreadsSound(w) && t in w.threads && HasEntry(w.threads[t]) && t in w'.threads && w'.threads[t].Replying?
    requires w'.threads == w.threads[t := w'.threads[t]] && w'.threads[t].env == w.threads[t].env
    requires w'.mem.replay == w.mem.replay && w'.mem.executions == w.mem.executions && w'.mem.highWater == w.mem.highWater
    ensures ThreadsSound(w')
  {
    OwnedStays(w, t, w'.mem);
    forall u | u in w'.threads && u != t ensures ThreadSound(w'.mem, w'.threads[u]) { assert ThreadSound(w.mem, w.threads[u]); }
  }

  // -------------------------------------------------------------- assignment

  /** An assignment either only expires offers or binds exactly one outstanding offer, durably. */
  lemma AssignOutcome(cfg: Config, s: State, e: Envelope, r: string, o: string, x: string, now: Time, placed: bool, saved: bool)
    ensures var (s', a) := AssignBegin(cfg, s, e, r, o, x, now, placed, saved);
      var s1 := Expire(s, now);
      && (a.Settled? ==> s' == s1)
      && (a.Launch? ==> && saved && o in s1.offers && s1.offers[o].status == Outstanding && x !in s1.executions
                        && s1.offers[o].client == e.sender && s1.offers[o].requestId == r
                        && s' == Bind(cfg, s1, o, x, now))
  {
    hide Expire, Admit;
  }

  lemma BindHist(cfg: Config, s: State, o: string, x: string, now: Time, w: World, l: Launched)
    requires Hist(s, w) && o in s.offers && s.offers[o].status == Outstanding && l.offerId == o
    ensures Hist(Bind(cfg, s, o, x, now), w.(launches := w.launches + [l]))
  {
    var t := Bind(cfg, s, o, x, now);
    forall k | k in w.retired ensures Guarded(t, k, w.retired[k]) { assert Guarded(s, k, w.retired[k]); }
    hide Guarded;
  }

  lemma BindLog(s: State, w: World, l: Launched)
    requires Hist(s, w) && LogSound(w) && l.offerId in s.offers && s.offers[l.offerId].status == Outstanding
    ensures LogSound(w.(launches := w.launches + [l]))
  {
  }

  lemma BindThreads(cfg: Config, w: World, w': World, t: nat, s1: State, o: string, x: string, now: Time)
    requires ThreadsSound(w) && Handling(w, t) && w.threads[t].env.payload.ExecutionAssign?
    requires Quiet(w.mem, s1) && s1.replay == w.mem.replay && o in s1.offers && x !in s1.executions
    requires s1.offers[o].client == w.threads[t].env.sender
    requires s1.offers[o].request.requestId == w.threads[t].env.payload.requestId
    requires w'.mem == Bind(cfg, s1, o, x, now) && w'.threads == w.threads[t := Launching(w.threads[t].env, x)]
    ensures ThreadsSound(w')
  {
    hide Quiet, EntriesKept;
    OwnedStays(w, t, w'.mem);
    SameEntries(w.mem.replay);
    forall u | u in w'.threads && u != t ensures ThreadSound(w'.mem, w'.threads[u]) {
      ThreadFrame(w.mem, s1, w.threads[u]);
    }
  }

  lemma AssignStep(cfg: Config, w: World, t: nat, now: Time, placed: bool, saved: bool)
    requires ValidConfig(cfg) && WorldInv(cfg, w) && Handling(w, t) && w.threads[t].env.payload.ExecutionAssign? && now > UNSET
    ensures WorldInv(cfg, Assigning(cfg, w, t, now, placed, saved))
  {
    hide Inv, Quiet, Hist, LogSound, Expire, AssignBegin, Bind;
    var e, p := w.threads[t].env, w.threads[t].env.payload;
    var s1 := Expire(w.mem, now);
    var (s, a) := AssignBegin(cfg, w.mem, e, p.requestId, p.offerId, p.executionId, now, placed, saved);
    AssignOutcome(cfg, w.mem, e, p.requestId, p.offerId, p.executionId, now, placed, saved);
    AssignNonEmpty(w, t);
    hide ThreadSound, ThreadsSound;
    AssignKeeps(cfg, w.mem, e, p.requestId, p.offerId, p.executionId, now, placed, saved);
    ExpireQuiet(w.mem, now);
    ExpireFrame(w.mem, now);
    ExpireInv(cfg, w.mem, now);
    if a.Settled? {
      hide Core;
      ReplyStep(cfg, w, t, s1, a.reply, saved);
    } else {
      AssignLaunch(cfg, w, t, now, placed, s1);
    }
  }

  lemma AssignNonEmpty(w: World, t: nat)
    requires ThreadsSound(w) && Handling(w, t) && w.threads[t].env.payload.ExecutionAssign?
    ensures w.threads[t].env.payload.executionId != ""
  {
    assert ThreadSound(w.mem, w.threads[t]);
  }

  lemma AssignLaunch(cfg: Config, w: World, t: nat, now: Time, placed: bool, s1: State)
    requires WorldInv(cfg, w) && Handling(w, t) && w.threads[t].env.payload.ExecutionAssign?
    requires Quiet(w.mem, s1) && s1.replay == w.mem.replay && Inv(cfg, s1)
    requires var e, p := w.threads[t].env, w.threads[t].env.payload;
      && p.offerId in s1.offers && s1.offers[p.offerId].status == Outstanding && p.executionId !in s1.executions
      && s1.offers[p.offerId].client == e.sender && s1.offers[p.offerId].requestId == p.requestId
      && AssignBegin(cfg, w.mem, e, p.requestId, p.offerId, p.executionId, now, placed, true)
           == (Bind(cfg, s1, p.offerId, p.executionId, now), Launch)
      && Inv(cfg, Bind(cfg, s1, p.offerId, p.executionId, now))
    ensures WorldInv(cfg, Assigning(cfg, w, t, now, placed, true))
  {
    hide Inv, Quiet, Hist, LogSound, AssignBegin, ThreadSound, Bind;
    var e, p, w' := w.threads[t].env, w.threads[t].env.payload, Assigning(cfg, w, t, now, placed, true);
    var l := Launched(p.offerId, p.executionId, e.sender, p.requestId);
    QuietHist(w.mem, s1, w);
    BindHist(cfg, s1, p.offerId, p.executionId, now, w, l);
    BindLog(s1, w, l);
    HistFields(w'.mem, w.(launches := w'.launches), w');
    LogFields(w.(launches := w'.launches), w');
    BindTombstones(cfg, w.mem, s1, p.offerId, p.executionId, now);
    RequestNamed(cfg, s1, p.offerId);
    hide ThreadsSound;
    BindThreads(cfg, w, w', t, s1, p.offerId, p.executionId, now);
  }

  lemma BindTombstones(cfg: Config, s: State, s1: State, o: string, x: string, now: Time)
    requires Quiet(s, s1) && o in s1.offers
    ensures Bind(cfg, s1, o, x, now).tombstones.Keys == s.tombstones.Keys
  {
  }

  lemma RequestNamed(cfg: Config, s: State, o: string)
    requires Inv(cfg, s) && o in s.offers
    ensures s.offers[o].request.requestId == s.offers[o].requestId
  {
    hide Indexed, Paired, Shaped, LedgerExact, QuotaKept, ReplaySound, Budgeted;
  }

  lemma LogFields(w: World, w': World)
    requires LogSound(w) && w'.launches == w.launches && w'.buried == w.buried && w'.issued == w.issued
    ensures LogSound(w')
  {
  }

  lemma StartedStep(cfg: Config, w: World, t: nat, startErr: Option<string>, now: Time, saved: bool)
    requires ValidConfig(cfg) && WorldInv(cfg, w) && t in w.threads && w.threads[t].Launching? && now > UNSET
    ensures WorldInv(cfg, StartReturned(cfg, w, t, startErr, now, saved))
  {
    hide Inv, Quiet, Hist, LogSound, AssignEnd, ThreadSound, Core, ThreadsSound;
    var x := w.threads[t].x;
    if x in w.mem.executions {
      InvOf(cfg, w);
      AssignEndKeeps(cfg, w.mem, x, startErr, now);
      AssignEndQuiet(cfg, w.mem, x, startErr, now);
      ReplyStep(cfg, w, t, AssignEnd(cfg, w.mem, x, startErr, now), StartReturned(cfg, w, t, startErr, now, saved).threads[t].reply, saved);
    }
  }

  lemma InvOf(cfg: Config, w: World)
    requires WorldInv(cfg, w)
    ensures Inv(cfg, w.mem) && Inv(cfg, w.disk)
  {
    hide Inv;
  }

  // ---------------------------------------------- cancellation and eviction

  lemma CancelStep(cfg: Config, w: World, t: nat, now: Time, saved: bool)
    requires WorldInv(cfg, w) && Handling(w, t) && w.threads[t].env.payload.ExecutionCancel? && now > UNSET
    ensures WorldInv(cfg, CancelBegins(w, t, now, saved))
  {
    hide Inv, Quiet, Hist, LogSound, CancelBegin, ThreadSound;
    var e, p := w.threads[t].env, w.threads[t].env.payload;
    var (s, c) := CancelBegin(w.mem, e, p.executionId, p.reason, now, saved);
    CancelKeeps(cfg, w.mem, e, p.executionId, p.reason, now, saved);
    CancelQuiet(w.mem, e, p.executionId, p.reason, now, saved);
    if c.Answered? {
      hide Core, ThreadsSound;
      ReplyStep(cfg, w, t, s, c.reply, saved);
    } else {
      var w' := CancelBegins(w, t, now, saved);
      CalmKeeps(cfg, w, w');
      hide Core;
      CancelHolds(cfg, w, t, now, saved);
      ThreadMoves(w, w', t);
    }
  }

  lemma CancelHolds(cfg: Config, w: World, t: nat, now: Time, saved: bool)
    requires Inv(cfg, w.mem) && ThreadsSound(w) && Handling(w, t) && w.threads[t].env.payload.ExecutionCancel?
    requires var e := w.threads[t].env; CancelBegin(w.mem, e, e.payload.executionId, e.payload.reason, now, saved).1.Halt?
    ensures var w' := CancelBegins(w, t, now, saved); ThreadSound(w'.mem, w'.threads[t])
  {
    hide Inv;
    var w' := CancelBegins(w, t, now, saved);
    OwnedStays(w, t, w'.mem);
    PhaseKnown(cfg, w.mem, w.threads[t].env.payload.executionId);
  }

  lemma PhaseKnown(cfg: Config, s: State, x: string)
    requires Inv(cfg, s)
    ensures x in s.executions ==> s.executions[x].phase != Unspecified
  {
    hide Offered, Indexed, Paired, LedgerExact, QuotaKept, ReplaySound, Budgeted;
    if x in s.executions { ShapeOf(s.executions, x); }
  }

  lemma StoppedStep(cfg: Config, w: World, t: nat, stopped: bool, now: Time, saved: bool)
    requires ValidConfig(cfg) && WorldInv(cfg, w) && now > UNSET
    requires t in w.threads && (w.threads[t].Stopping? || w.threads[t].Evicting?)
    ensures WorldInv(cfg, StopReturned(cfg, w, t, stopped, now, saved))
  {
    hide Inv, Quiet, Hist, LogSound, CancelEnd, EvictEnd, EntriesKept;
    var th, w' := w.threads[t], StopReturned(cfg, w, t, stopped, now, saved);
    assert ThreadSound(w.mem, th);
    hide ThreadSound;
    var reason := if th.Stopping? then th.reason else "";
    StopKeeps(cfg, w.mem, th.x, reason, th.wasPhase, th.wasDetail, stopped, now);
    StopQuiet(cfg, w.mem, th.x, reason, th.wasPhase, th.wasDetail, stopped, now);
    if th.Evicting? {
      CalmKeeps(cfg, w, w');
      SameEntries(w.mem.replay);
      hide Core;
      ThreadsFrame(w, w', t);
    } else if th.x in w.mem.executions {
      hide Core, ThreadsSound;
      ReplyStep(cfg, w, t, CancelEnd(cfg, w.mem, th.x, reason, th.wasPhase, th.wasDetail, stopped, now), w'.threads[t].reply, saved);
    }
  }

  lemma SameEntries(replay: map<ReplayKey, ReplayEntry>)
    ensures EntriesKept(replay, replay)
  {
  }

  lemma EvictStep(cfg: Config, w: World, t: nat, x: string, now: Time, saved: bool)
    requires WorldInv(cfg, w) && t !in w.threads && now > UNSET
    requires x in w.mem.executions && LeaseLapsed(w.mem.executions[x], Max(w.mem.highWater, now))
    ensures WorldInv(cfg, EvictingBegins(w, t, x, now, saved))
  {
    hide Inv, Quiet, Hist, LogSound, EvictBegin, EntriesKept;
    var w', s := EvictingBegins(w, t, x, now, saved), Advance(w.mem, now);
    AdvanceInv(cfg, w.mem, now);
    EvictBeginKeeps(cfg, s, x, s.highWater, saved);
    EvictQuiet(w.mem, x, now, saved);
    CalmKeeps(cfg, w, w');
    PhaseKnown(cfg, w.mem, x);
    hide Core;
    ThreadsFrame(w, w', t);
  }

  lemma EvictQuiet(s: State, x: string, now: Time, saved: bool)
    requires x in s.executions && !Terminal(s.executions[x].phase)
    ensures var s' := EvictBegin(Advance(s, now), x, Advance(s, now).highWater, saved);
            Quiet(s, s') && EntriesKept(s.replay, s'.replay)
  {
    EvictBeginQuiet(Advance(s, now), x, Advance(s, now).highWater, saved);
    hide RecordStep;
  }

  // ------------------------------------------------------------ other sections

  /** A section outside any command: completion, expiry, recovery. */
  lemma BackgroundStep(cfg: Config, w: World, s: State, saved: bool)
    requires WorldInv(cfg, w) && Inv(cfg, s) && Quiet(w.mem, s) && EntriesKept(w.mem.replay, s.replay)
    ensures WorldInv(cfg, Commit(w, s, saved))
  {
    hide Inv, Quiet, Hist, LogSound, EntriesKept, ThreadSound;
    var w' := Commit(w, s, saved);
    CalmKeeps(cfg, w, w');
    hide Core;
    forall u | u in w'.threads ensures ThreadSound(w'.mem, w'.threads[u]) { ThreadFrame(w.mem, s, w.threads[u]); }
  }

  lemma LeaveStep(cfg: Config, w: World, t: nat, victims: set<ReplayKey>, saved: bool)
    requires WorldInv(cfg, w) && Leavable(cfg, w, t, victims)
    ensures WorldInv(cfg, Leaving(w, t, victims, saved))
  {
    hide Inv, Quiet, Hist, LogSound, ThreadSound, Evicts;
    var th, w' := w.threads[t], Leaving(w, t, victims, saved);
    FinishReplayKeeps(cfg, w.mem, th.env, th.reply, victims);
    SelfQuiet(w.mem);
    QuietElsewhere(w.mem, w.mem, w'.mem.replay);
    CalmKeeps(cfg, w, w');
    hide Core;
    forall u | u in w'.threads ensures ThreadSound(w'.mem, w'.threads[u]) { LeaveThread(cfg, w, t, victims, saved, u); }
  }

  lemma LeaveThread(cfg: Config, w: World, t: nat, victims: set<ReplayKey>, saved: bool, u: nat)
    requires ThreadsSound(w) && Leavable(cfg, w, t, victims) && u in w.threads && u != t
    ensures ThreadSound(Leaving(w, t, victims, saved).mem, w.threads[u])
  {
    assert ThreadSound(w.mem, w.threads[u]);
  }

  // -------------------------------------------------------------------- sweep

  /** Collection spares every execution a command in flight will look up again. */
  lemma BusySpared(cfg: Config, s: State, now: Time, env: Envelope, x: string)
    requires Inv(cfg, s) && Holding(s, env, x)
    ensures x in AllocatorState.Collect(s, CollectableIds(s, now), now).executions
  {
    var id := s.executions[x].offerId;
    PairOf(cfg, s, x);
    var k := ReplayKeyOf(env);
    assert BusyKey(s, s.replay[k]) == Some(KeyOf(s.offers[id]));
    assert Busy(s, KeyOf(s.offers[id]));
    assert id !in CollectableIds(s, now);
    CollectSpares(cfg, s, now, x);
  }

  lemma PairOf(cfg: Config, s: State, x: string)
    requires Inv(cfg, s) && x in s.executions
    ensures s.executions[x].offerId in s.offers
    ensures var o := s.offers[s.executions[x].offerId];
      Backs(s.executions[x].offerId, o, x, s.executions[x]) && o.request.requestId == o.requestId
  {
    hide Indexed, Shaped, LedgerExact, QuotaKept, ReplaySound, Budgeted;
  }

  lemma CollectSpares(cfg: Config, s: State, now: Time, x: string)
    requires Inv(cfg, s) && x in s.executions && s.executions[x].offerId !in CollectableIds(s, now)
    ensures x in AllocatorState.Collect(s, CollectableIds(s, now), now).executions
  {
    hide Offered, Indexed, LedgerExact, QuotaKept, ReplaySound, Budgeted, Collectable, AllocatorState.Collect;
    if "" in s.executions { ShapeOf(s.executions, ""); }
    CollectKeeps(s, CollectableIds(s, now), now);
  }

  lemma SweepEntries(cfg: Config, s: State, now: Time)
    ensures EntriesKept(s.replay, SweepReady(cfg, s, now).replay)
    ensures EntriesKept(s.replay, Sweep(cfg, s, now).replay)
  {
    var s0 := Advance(s, now);
    ExpireFrame(s0, s0.highWater);
    hide Expire, CollectableIds;
  }

  lemma ReadyQuiet(cfg: Config, s: State, now: Time)
    ensures Quiet(s, SweepReady(cfg, s, now)) && SweepReady(cfg, s, now).highWater == Max(s.highWater, now)
  {
    var s0 := Advance(s, now);
    ExpireQuiet(s0, s0.highWater);
    ExpireFrame(s0, s0.highWater);
    hide Expire, RecordStep, OfferStep, SameGuard;
  }

  lemma SweepThread(cfg: Config, s: State, now: Time, th: Thread)
    requires Inv(cfg, s) && ThreadSound(s, th)
    ensures ThreadSound(Sweep(cfg, s, now), th)
  {
    hide Inv, Quiet, EntriesKept, SweepReady;
    var s1 := SweepReady(cfg, s, now);
    SweepInv(cfg, s, now);
    ReadyQuiet(cfg, s, now);
    SweepEntries(cfg, s, now);
    ThreadFrame(s, s1, th);
    SweepFrame(cfg, s, now);
    if th.Launching? || th.Stopping? { BusySpared(cfg, s1, s1.highWater, th.env, th.x); }
    SweptThread(s1, Sweep(cfg, s, now), th);
  }

  /** The collection pass leaves the clock, and the records and entries it keeps, as they were. */
  lemma SweepFrame(cfg: Config, s: State, now: Time)
    ensures var s1, s2 := SweepReady(cfg, s, now), Sweep(cfg, s, now);
      && s2.highWater == s1.highWater && EntriesKept(s1.replay, s2.replay)
      && s2.executions == AllocatorState.Collect(s1, CollectableIds(s1, s1.highWater), s1.highWater).executions
  {
    hide SweepReady, CollectableIds;
  }

  lemma SweptThread(s1: State, s2: State, th: Thread)
    requires ThreadSound(s1, th) && EntriesKept(s1.replay, s2.replay) && s2.highWater == s1.highWater
    requires forall x | x in s2.executions :: x in s1.executions && s2.executions[x] == s1.executions[x]
    requires th.Launching? || th.Stopping? ==> th.x in s2.executions
    ensures ThreadSound(s2, th)
  {
  }

  /** A tombstone survives a sweep until the clock has reached its expiry. */
  lemma TombstoneSwept(s: State, dead: set<string>, now: Time, id: string)
    requires dead <= s.offers.Keys && id in s.tombstones && id !in s.offers && s.tombstones[id].expiresAt > now
    ensures var s' := Retire(AllocatorState.Collect(s, dead, now), now);
      id in s'.tombstones && s'.tombstones[id] == s.tombstones[id]
  {
  }

  lemma BuriedSwept(s: State, dead: set<string>, now: Time, id: string)
    requires dead <= s.offers.Keys && id in dead
    ensures var s' := Retire(AllocatorState.Collect(s, dead, now), now);
      id in s'.tombstones && s'.tombstones[id] == Bury(id, s.offers[id], now) && KeyOf(s.offers[id]) !in s'.requests
  {
  }

  lemma SweptKeys(s: State, dead: set<string>, now: Time)
    requires dead <= s.offers.Keys
    ensures var s' := Retire(AllocatorState.Collect(s, dead, now), now);
      && s'.offers.Keys == s.offers.Keys - dead && s'.tombstones.Keys <= s.tombstones.Keys + dead
      && s'.requests.Keys <= s.requests.Keys && s'.highWater == s.highWater
      && (forall id | id in s'.offers :: s'.offers[id] == s.offers[id])
  {
  }

  lemma Disjoint(cfg: Config, s: State)
    requires Inv(cfg, s)
    ensures s.offers.Keys !! s.tombstones.Keys
  {
    hide Offered, Indexed, Paired, Shaped, LedgerExact, QuotaKept, ReplaySound;
  }

  lemma SweptGuards(cfg: Config, s: State, dead: set<string>, now: Time, k: RequestKey, at: Time)
    requires Inv(cfg, s) && dead <= s.offers.Keys && now == s.highWater && Guarded(s, k, at)
    ensures Guarded(Retire(AllocatorState.Collect(s, dead, now), now), k, at)
  {
    hide Inv, Retire, AllocatorState.Collect;
    SweptKeys(s, dead, now);
    Disjoint(cfg, s);
    if s.highWater < at + COMMAND_HORIZON {
      var id :| id in s.tombstones && s.tombstones[id].client == k.0 && s.tombstones[id].requestId == k.1
             && s.tombstones[id].expiresAt >= at + COMMAND_HORIZON;
      TombstoneSwept(s, dead, now, id);
    }
  }

  lemma SweptHist(cfg: Config, s: State, dead: set<string>, now: Time, w: World, w': World)
    requires Inv(cfg, s) && dead <= s.offers.Keys && now == s.highWater && Hist(s, w)
    requires w'.launches == w.launches && w'.issued == w.issued && w'.buried == w.buried + dead
    requires w'.retired == w.retired + (map k | k in s.requests && s.requests[k] in dead :: now)
    ensures Hist(Retire(AllocatorState.Collect(s, dead, now), now), w')
  {
    hide Inv, Retire, AllocatorState.Collect, Guarded;
    var s' := Retire(AllocatorState.Collect(s, dead, now), now);
    SweptKeys(s, dead, now);
    forall k | k in w'.retired ensures Guarded(s', k, w'.retired[k]) {
      if k in s.requests && s.requests[k] in dead {
        JustBuried(cfg, s, dead, now, k);
      } else {
        SweptGuards(cfg, s, dead, now, k, w.retired[k]);
      }
    }
  }

  lemma JustBuried(cfg: Config, s: State, dead: set<string>, now: Time, k: RequestKey)
    requires Inv(cfg, s) && dead <= s.offers.Keys && k in s.requests && s.requests[k] in dead
    ensures Guarded(Retire(AllocatorState.Collect(s, dead, now), now), k, now)
  {
    hide Inv, Retire, AllocatorState.Collect;
    IndexHits(cfg, s, k);
    BuriedSwept(s, dead, now, s.requests[k]);
  }

  lemma SweepStep(cfg: Config, w: World, now: Time, saved: bool)
    requires WorldInv(cfg, w) && w.cleaning == {}
    ensures WorldInv(cfg, Sweeping(cfg, w, now, saved))
  {
    hide Inv, Quiet, Hist, ThreadSound, SweepReady, Collectable, Retire, AllocatorState.Collect;
    if saved {
      var s1, w' := SweepReady(cfg, w.mem, now), Sweeping(cfg, w, now, true);
      var dead := CollectableIds(s1, s1.highWater);
      SweepInv(cfg, w.mem, now);
      ReadyQuiet(cfg, w.mem, now);
      QuietHist(w.mem, s1, w);
      SweptHist(cfg, s1, dead, s1.highWater, w, w');
      assert dead <= w.issued by { IssuedIn(s1, w); }
      forall u | u in w'.threads ensures ThreadSound(w'.mem, w'.threads[u]) { SweepThread(cfg, w.mem, now, w.threads[u]); }
    }
  }

  lemma CleanStep(cfg: Config, w: World, id: string, saved: bool)
    requires WorldInv(cfg, w) && id in w.cleaning
    ensures WorldInv(cfg, Cleaning(w, id, saved))
  {
    hide Inv, Quiet, Hist, LogSound, EntriesKept;
    if saved {
      CleanedUpKeeps(cfg, w.mem, id);
      CleanedUpQuiet(w.mem, id);
      SameEntries(w.mem.replay);
      hide ThreadsSound;
      BackgroundStep(cfg, w, CleanedUp(w.mem, id), true);
      DropCleaning(cfg, Commit(w, CleanedUp(w.mem, id), true), w.cleaning - {id});
    } else {
      DropCleaning(cfg, w, w.cleaning - {id});
    }
  }

  lemma DropCleaning(cfg: Config, w: World, cleaning: set<string>)
    requires WorldInv(cfg, w) && cleaning <= w.cleaning
    ensures WorldInv(cfg, w.(cleaning := cleaning))
  {
    hide Inv, ThreadSound, Keyed;
  }

  // -------------------------------------------------------------------- crash

  lemma CrashStep(cfg: Config, w: World, now: Time)
    requires WorldInv(cfg, w)
    ensures WorldInv(cfg, Restarting(cfg, w, now))
  {
    hide Inv, Quiet, Hist, LogSound, Reload;
    var s := Reload(cfg, w.disk, now);
    ReloadInv(cfg, w.disk, now);
    ShapesOf(cfg, w.disk);
    ReloadQuiet(cfg, w.disk, now);
    QuietHist(w.disk, s, w);
    HistFields(s, w, Restarting(cfg, w, now));
    HistFields(w.disk, w, Restarting(cfg, w, now));
    LogFields(w, Restarting(cfg, w, now));
  }

  lemma ShapesOf(cfg: Config, s: State)
    requires Inv(cfg, s)
    ensures Shaped(s.executions)
  {
    hide Offered, Indexed, Paired, LedgerExact, QuotaKept, ReplaySound, Budgeted;
  }

  // ------------------------------------------------------------- every event

  lemma ReadStep(cfg: Config, w: World, t: nat, reply: Reply)
    requires WorldInv(cfg, w) && Handling(w, t)
    ensures WorldInv(cfg, Replied(w, t, w.mem, reply, false))
  {
    hide Inv, Quiet, Core, ThreadsSound;
    InvOf(cfg, w);
    SelfQuiet(w.mem);
    ReplyStep(cfg, w, t, w.mem, reply, false);
  }

  lemma ReleaseStep(cfg: Config, w: World, t: nat, now: Time, saved: bool)
    requires WorldInv(cfg, w) && Handling(w, t) && w.threads[t].env.payload.ExecutionOfferRelease?
    ensures var e := w.threads[t].env;
      var (s, reply) := HandleRelease(w.mem, e, e.payload.requestId, e.payload.offerId, now, saved);
      WorldInv(cfg, Replied(w, t, s, reply, saved))
  {
    hide Inv, Quiet, Core, ThreadsSound, HandleRelease;
    var e := w.threads[t].env;
    var (s, reply) := HandleRelease(w.mem, e, e.payload.requestId, e.payload.offerId, now, saved);
    InvOf(cfg, w);
    ReleaseKeeps(cfg, w.mem, e, e.payload.requestId, e.payload.offerId, now, saved);
    ReleaseQuiet(w.mem, e, e.payload.requestId, e.payload.offerId, now, saved);
    ReplyStep(cfg, w, t, s, reply, saved);
  }

  lemma RenewStep(cfg: Config, w: World, t: nat, now: Time, saved: bool)
    requires WorldInv(cfg, w) && Handling(w, t) && w.threads[t].env.payload.ExecutionLeaseRenew? && now > UNSET
    ensures var e := w.threads[t].env;
      var (s, reply) := HandleRenew(w.mem, e, e.payload.executionId, e.payload.duration, now, saved);
      WorldInv(cfg, Replied(w, t, s, reply, saved))
  {
    hide Inv, Quiet, Core, HandleRenew;
    var e := w.threads[t].env;
    var (s, reply) := HandleRenew(w.mem, e, e.payload.executionId, e.payload.duration, now, saved);
    assert ThreadSound(w.mem, w.threads[t]);
    hide ThreadsSound, ThreadSound;
    InvOf(cfg, w);
    RenewKeeps(cfg, w.mem, e, e.payload.executionId, e.payload.duration, now, saved);
    RenewQuiet(w.mem, e, e.payload.executionId, e.payload.duration, now, saved);
    ReplyStep(cfg, w, t, s, reply, saved);
  }

  lemma CompleteStep(cfg: Config, w: World, c: Completion, now: Time, saved: bool)
    requires ValidConfig(cfg) && WorldInv(cfg, w) && now > UNSET
    ensures WorldInv(cfg, Commit(w, RuntimeCompleted(cfg, w.mem, c, now, saved).0, saved))
  {
    hide Inv, Quiet, Core, ThreadsSound, EntriesKept, RuntimeCompleted;
    InvOf(cfg, w);
    CompletedKeeps(cfg, w.mem, c, now, saved);
    CompletedQuiet(cfg, w.mem, c, now, saved);
    SameEntries(w.mem.replay);
    BackgroundStep(cfg, w, RuntimeCompleted(cfg, w.mem, c, now, saved).0, saved);
  }

  lemma TickStep(cfg: Config, w: World, now: Time, saved: bool)
    requires WorldInv(cfg, w)
    ensures WorldInv(cfg, Commit(w, Expire(w.mem, now), saved))
  {
    hide Inv, Quiet, Core, ThreadsSound, EntriesKept, Expire;
    InvOf(cfg, w);
    ExpireInv(cfg, w.mem, now);
    ExpireQuiet(w.mem, now);
    BackgroundStep(cfg, w, Expire(w.mem, now), saved);
  }

  lemma RecoverStep(cfg: Config, w: World, x: string, outcome: RuntimeOutcome, checked: Time, now: Time, saved: bool)
    requires ValidConfig(cfg) && WorldInv(cfg, w) && x in w.mem.executions && w.threads == map[] && now > UNSET
    ensures WorldInv(cfg, Commit(w, RecoverVisit(cfg, w.mem, x, outcome, checked, now), saved))
  {
    hide Inv, Quiet, Hist, LogSound, RecoverVisit;
    RecoverKeeps(cfg, w.mem, x, outcome, checked, now);
    RecoverQuiet(cfg, w.mem, x, outcome, checked, now);
    CalmKeeps(cfg, w, Commit(w, RecoverVisit(cfg, w.mem, x, outcome, checked, now), saved));
  }

  /** Every event, in every interleaving, keeps the world invariant. */
  lemma Step(cfg: Config, w: World, ev: Event)
    requires ValidConfig(cfg) && WorldInv(cfg, w) && Enabled(cfg, w, ev)
    ensures WorldInv(cfg, Apply(cfg, w, ev))
  {
    hide WorldInv, Arriving, Entering, Serving, Assigning, StartReturned, CancelBegins, StopReturned, Leaving,
         EvictingBegins, Sweeping, Cleaning, Restarting, Replied, Commit, Evicts, Leavable;
    match ev
    case Arrive(t, env, now) => ArriveStep(cfg, w, t, env, now);
    case Enter(t, now, victims, saved) => EnterStep(cfg, w, t, now, victims, saved);
    case Serve(t, now, renv) => ServeStep(cfg, w, t, now, renv);
    case Assign(t, now, placed, saved) => AssignStep(cfg, w, t, now, placed, saved);
    case Started(t, startErr, now, saved) => StartedStep(cfg, w, t, startErr, now, saved);
    case Cancel(t, now, saved) => CancelStep(cfg, w, t, now, saved);
    case Stopped(t, stopped, now, saved) => StoppedStep(cfg, w, t, stopped, now, saved);
    case Release(t, now, saved) => ReleaseStep(cfg, w, t, now, saved);
    case Renew(t, now, saved) => RenewStep(cfg, w, t, now, saved);
    case Read(t, bound) => ReadStep(cfg, w, t, HandleRead(w.mem, w.threads[t].env, bound));
    case Leave(t, victims, saved) => LeaveStep(cfg, w, t, victims, saved);
    case Evict(t, x, now, saved) => EvictStep(cfg, w, t, x, now, saved);
    case Complete(c, now, saved) => CompleteStep(cfg, w, c, now, saved);
    case Tick(now, saved) => TickStep(cfg, w, now, saved);
    case SweepUp(now, saved) => SweepStep(cfg, w, now, saved);
    case Clean(id, saved) => CleanStep(cfg, w, id, saved);
    case Swept => DropCleaning(cfg, w, {});
    case Recover(x, outcome, checked, now, saved) => RecoverStep(cfg, w, x, outcome, checked, now, saved);
    case Crash(now) => CrashStep(cfg, w, now);
  }

  lemma StartInv(cfg: Config)
    requires ValidConfig(cfg)
    ensures WorldInv(cfg, START)
  {
    EmptyInv(cfg);
    hide Inv;
  }

  lemma {:induction false} RunInv(cfg: Config, worlds: seq<World>, events: seq<Event>, n: nat)
    requires ValidConfig(cfg) && Run(cfg, worlds, events) && n < |worlds|
    ensures WorldInv(cfg, worlds[n])
  {
    hide WorldInv, Apply;
    if n == 0 {
      StartInv(cfg);
    } else {
      RunInv(cfg, worlds, events, n - 1);
      Step(cfg, worlds[n - 1], events[n - 1]);
    }
  }
}
