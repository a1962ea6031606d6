/** What an allocator tells a client: every state in a reply is one it has shown
    of an execution that was launched for the very client the reply goes to. */
module ToldViews {
  import opened Protocol
  import opened AllocatorState
  import opened AllocatorInvariant
  import opened AllocatorQuiet
  import opened AllocatorRuns
  import opened WorldInvariant
  import opened WorldSteps
  import opened ExecutionViews
  import RecordFates

  predicate LaunchedFor(launches: seq<Launched>, o: string, x: string, client: Identity) {
    exists i | 0 <= i < |launches| :: launches[i].offerId == o && launches[i].executionId == x && launches[i].client == client
  }

  /** A state shown under some offer whose launch was this client's. */
  predicate ShownTo(w: World, client: Identity, v: View) {
    exists a | a in w.views :: a.1 == v && LaunchedFor(w.launches, a.0, v.executionId, client)
  }

  ghost predicate TellsOnly(w: World, client: Identity, reply: Reply) {
    forall v | StateResponse(v) in reply.responses :: ShownTo(w, client, v)
  }

  predicate RecordsLaunched(s: State, launches: seq<Launched>) {
    forall x | x in s.executions :: LaunchedFor(launches, s.executions[x].offerId, x, s.executions[x].client)
  }

  /** A command under way works on an execution of its own sender. */
  predicate OwnWork(s: State, th: Thread) {
    th.Launching? || th.Stopping? ==> th.x in s.executions && s.executions[th.x].client == th.env.sender
  }

  ghost predicate ThreadTells(w: World, th: Thread) {
    OwnWork(w.mem, th) && (th.Replying? ==> TellsOnly(w, th.env.sender, th.reply))
  }

  ghost predicate TellInv(w: World) {
    RecordsLaunched(w.mem, w.launches) && forall t | t in w.threads :: ThreadTells(w, w.threads[t])
  }

  // ------------------------------------------------------------------ history only grows

  predicate Longer(w: World, w': World) {
    w.views <= w'.views && w.launches <= w'.launches
  }

  lemma HistoryGrows(cfg: Config, w: World, ev: Event)
    requires Enabled(cfg, w, ev)
    ensures Longer(w, Apply(cfg, w, ev))
  {
    hide Expire, AssignBegin, AssignEnd, CancelBegin, CancelEnd, EvictEnd, EvictBegin, HandleRelease, HandleRequest, BeginReplay,
         HandleRenew, RuntimeCompleted, RecoverVisit, HandleRead, ViewsOf, CleanedUp, Freshness, Sweep, SweepReady, Reload,
         Evicts, Prune, CollectableIds, FinishReplay;
  }

  lemma LaunchedStill(launches: seq<Launched>, launches': seq<Launched>, o: string, x: string, client: Identity)
    requires launches <= launches' && LaunchedFor(launches, o, x, client)
    ensures LaunchedFor(launches', o, x, client)
  {
    var i :| 0 <= i < |launches| && launches[i].offerId == o && launches[i].executionId == x && launches[i].client == client;
    assert launches'[i] == launches[i];
  }

  lemma ShownStill(w: World, w': World, client: Identity, v: View)
    requires Longer(w, w') && ShownTo(w, client, v)
    ensures ShownTo(w', client, v)
  {
    hide LaunchedFor;
    var a :| a in w.views && a.1 == v && LaunchedFor(w.launches, a.0, v.executionId, client);
    LaunchedStill(w.launches, w'.launches, a.0, v.executionId, client);
  }

  lemma TellsStill(w: World, w': World, client: Identity, reply: Reply)
    requires Longer(w, w') && TellsOnly(w, client, reply)
    ensures TellsOnly(w', client, reply)
  {
    hide ShownTo;
    forall v | StateResponse(v) in reply.responses ensures ShownTo(w', client, v) { ShownStill(w, w', client, v); }
  }

  // ---------------------------------------------------------------------------- records

  /** Short of a crash a record stays with its offer and its client, and only an assignment adds one. */
  predicate WorkStays(s: State, s': State, added: bool) {
    && (forall x | x in s'.executions && x in s.executions :: SameWork(s.executions[x], s'.executions[x]))
    && (added || s'.executions.Keys <= s.executions.Keys)
  }

  lemma KeptStays(s: State, s': State)
    requires RecordsKept(s, s')
    ensures WorkStays(s, s', false)
  {
  }

  lemma WorkKept(cfg: Config, w: World, ev: Event)
    requires WorldInv(cfg, w) && Enabled(cfg, w, ev) && !ev.Crash?
    ensures WorkStays(w.mem, Apply(cfg, w, ev).mem, ev.Assign?)
  {
    hide WorldInv, Enabled, RecordsKept, WorkStays, Assigning, Sweeping;
    if ev.SweepUp? {
      SweptWork(cfg, w, ev.now, ev.saved);
    } else if ev.Assign? {
      AssignedWork(cfg, w, ev);
    } else {
      hide Apply;
      RecordsEvolve(cfg, w, ev);
      KeptStays(w.mem, Apply(cfg, w, ev).mem);
    }
  }

  lemma SweptWork(cfg: Config, w: World, now: Time, saved: bool)
    ensures WorkStays(w.mem, Sweeping(cfg, w, now, saved).mem, false)
  {
    hide Sweep, Sweeping;
    RecordFates.SweptMemory(cfg, w, now, saved);
    SweepRecords(cfg, w.mem, now);
  }

  lemma AssignedWork(cfg: Config, w: World, ev: Event)
    requires Enabled(cfg, w, ev) && ev.Assign?
    ensures WorkStays(w.mem, Assigning(cfg, w, ev.t, ev.now, ev.placed, ev.saved).mem, true)
  {
    hide AssignBegin, ViewsOf;
    var e := w.threads[ev.t].env;
    var s' := AssignBegin(cfg, w.mem, e, e.payload.requestId, e.payload.offerId, e.payload.executionId, ev.now, ev.placed, ev.saved).0;
    forall y | y in w.mem.executions ensures y in s'.executions && s'.executions[y] == w.mem.executions[y] {
      RecordFates.AssignRecords(cfg, w.mem, e, e.payload.requestId, e.payload.offerId, e.payload.executionId, ev.now, ev.placed, ev.saved, y);
    }
  }

  lemma LaunchedStays(s: State, s': State, launches: seq<Launched>, launches': seq<Launched>)
    requires RecordsLaunched(s, launches) && WorkStays(s, s', false) && launches <= launches'
    ensures RecordsLaunched(s', launches')
  {
    hide LaunchedFor;
    forall x | x in s'.executions ensures LaunchedFor(launches', s'.executions[x].offerId, x, s'.executions[x].client) {
      LaunchedStill(launches, launches', s.executions[x].offerId, x, s.executions[x].client);
    }
  }

  lemma AssignLaunches(cfg: Config, w: World, ev: Event)
    requires Enabled(cfg, w, ev) && ev.Assign? && RecordsLaunched(w.mem, w.launches)
    ensures var w' := Assigning(cfg, w, ev.t, ev.now, ev.placed, ev.saved); RecordsLaunched(w'.mem, w'.launches)
  {
    hide ViewsOf, AssignBegin, RecordsLaunched;
    var e := w.threads[ev.t].env;
    var p := e.payload;
    var (s', a) := AssignBegin(cfg, w.mem, e, p.requestId, p.offerId, p.executionId, ev.now, ev.placed, ev.saved);
    AssignOutcome(cfg, w.mem, e, p.requestId, p.offerId, p.executionId, ev.now, ev.placed, ev.saved);
    ExpireFrame(w.mem, ev.now);
    hide Expire, Bind;
    SameLaunched(w.mem, Expire(w.mem, ev.now), w.launches);
    if a.Launch? {
      BoundLaunched(cfg, Expire(w.mem, ev.now), p.offerId, p.executionId, ev.now, w.launches, Launched(p.offerId, p.executionId, e.sender, p.requestId));
    }
  }

  lemma SameLaunched(s: State, s': State, launches: seq<Launched>)
    requires RecordsLaunched(s, launches) && s'.executions == s.executions
    ensures RecordsLaunched(s', launches)
  {
  }

  lemma BoundLaunched(cfg: Config, s: State, o: string, x: string, now: Time, launches: seq<Launched>, l: Launched)
    requires o in s.offers && RecordsLaunched(s, launches) && l.offerId == o && l.executionId == x && l.client == s.offers[o].client
    ensures RecordsLaunched(Bind(cfg, s, o, x, now), launches + [l])
  {
    hide LaunchedFor;
    var s' := Bind(cfg, s, o, x, now);
    forall y | y in s'.executions ensures LaunchedFor(launches + [l], s'.executions[y].offerId, y, s'.executions[y].client) {
      if y == x {
        LastLaunched(launches, l);
      } else {
        LaunchedStill(launches, launches + [l], s.executions[y].offerId, y, s.executions[y].client);
      }
    }
  }

  lemma LastLaunched(launches: seq<Launched>, l: Launched)
    ensures LaunchedFor(launches + [l], l.offerId, l.executionId, l.client)
  {
    assert (launches + [l])[|launches|] == l;
  }

  lemma RecordsStep(cfg: Config, w: World, ev: Event)
    requires WorldInv(cfg, w) && RecordsLaunched(w.mem, w.launches) && Enabled(cfg, w, ev) && !ev.Crash?
    ensures RecordsLaunched(Apply(cfg, w, ev).mem, Apply(cfg, w, ev).launches)
  {
    hide WorldInv, Enabled, RecordsLaunched, WorkStays, Assigning;
    if ev.Assign? {
      AssignLaunches(cfg, w, ev);
    } else {
      hide Apply;
      HistoryGrows(cfg, w, ev);
      WorkKept(cfg, w, ev);
      LaunchedStays(w.mem, Apply(cfg, w, ev).mem, w.launches, Apply(cfg, w, ev).launches);
    }
  }

  lemma RestartLaunched(cfg: Config, w: World, now: Time)
    requires WorldInv(cfg, w) && ViewInv(w) && RecordsLaunched(w.mem, w.launches)
    ensures TellInv(Restarting(cfg, w, now))
  {
    hide WorldInv, Coherent, Shown, Newest, Gapless, Shaped, LaunchedFor, ViewsOf, Reload;
    RestartShows(cfg, w, now);
    var w' := Restarting(cfg, w, now);
    forall x | x in w'.mem.executions ensures LaunchedFor(w'.launches, w'.mem.executions[x].offerId, x, w'.mem.executions[x].client) {
      assert SameWork(w.mem.executions[x], w.disk.executions[x]);
    }
  }

  // ---------------------------------------------------------------------------- replies

  /** A record of this client's on file, as a reply shows it. */
  lemma TellsRecord(w: World, x: string, client: Identity)
    requires RecordsLaunched(w.mem, w.launches) && Shown(w.mem, w.views) && x in w.mem.executions && w.mem.executions[x].client == client
    ensures ShownTo(w, client, ViewOf(x, w.mem.executions[x]))
  {
    hide LaunchedFor;
    var a := (w.mem.executions[x].offerId, ViewOf(x, w.mem.executions[x]));
    assert a in w.views;
  }

  /** A reply that holds at most one state, and that one a record of the client's. */
  ghost predicate TellsRecordOf(s: State, client: Identity, reply: Reply) {
    forall v | StateResponse(v) in reply.responses ::
      v.executionId in s.executions && s.executions[v.executionId].client == client && v == ViewOf(v.executionId, s.executions[v.executionId])
  }

  lemma RecordTold(w: World, client: Identity, reply: Reply)
    requires RecordsLaunched(w.mem, w.launches) && Shown(w.mem, w.views) && TellsRecordOf(w.mem, client, reply)
    ensures TellsOnly(w, client, reply)
  {
    hide RecordsLaunched, Shown, ShownTo;
    forall v | StateResponse(v) in reply.responses ensures ShownTo(w, client, v) {
      TellsRecord(w, v.executionId, client);
    }
  }

  lemma CancelTells(s: State, e: Envelope, x: string, reason: string, now: Time, saved: bool)
    ensures var (s', c) := CancelBegin(s, e, x, reason, now, saved);
      if c.Answered? then TellsRecordOf(s', e.sender, c.reply) else x in s'.executions && s'.executions[x].client == e.sender
  {
  }

  lemma AssignTells(cfg: Config, s: State, e: Envelope, r: string, o: string, x: string, now: Time, placed: bool, saved: bool)
    requires Inv(cfg, s)
    ensures var (s', a) := AssignBegin(cfg, s, e, r, o, x, now, placed, saved);
      if a.Settled? then TellsRecordOf(s', e.sender, a.reply) else x in s'.executions && s'.executions[x].client == e.sender
  {
    hide Inv, Expire, Admit;
    ExpireFrame(s, now);
    ExpireInv(cfg, s, now);
    AssignedOwn(cfg, Expire(s, now), o);
  }

  lemma AssignedOwn(cfg: Config, s: State, o: string)
    requires Inv(cfg, s)
    ensures o in s.offers && s.offers[o].status == Assigned ==>
      s.offers[o].execution in s.executions && s.executions[s.offers[o].execution].client == s.offers[o].client
  {
    hide Offered, Indexed, Shaped, LedgerExact, WithinLimits, Budgeted, QuotasKept, ReplaySound;
  }

  lemma ReadTells(s: State, e: Envelope, bound: bool)
    requires e.payload.ExecutionInspect? || e.payload.ExecutionTunnelOpen?
    ensures TellsRecordOf(s, e.sender, HandleRead(s, e, bound))
  {
  }

  lemma RequestTells(cfg: Config, s: State, client: Identity, q: Request, now: Time, env: RequestEnv)
    ensures forall v :: StateResponse(v) !in HandleRequest(cfg, s, client, q, now, env).1.responses
  {
    hide Expire, RequestRefusal, Mint;
  }

  lemma OthersTell(s: State, e: Envelope, now: Time, saved: bool)
    ensures e.payload.ExecutionOfferRelease? ==>
      forall v :: StateResponse(v) !in HandleRelease(s, e, e.payload.requestId, e.payload.offerId, now, saved).1.responses
    ensures e.payload.ExecutionLeaseRenew? ==>
      forall v :: StateResponse(v) !in HandleRenew(s, e, e.payload.executionId, e.payload.duration, now, saved).1.responses
  {
  }

  /** What the section says to its own thread's sender, in terms of the state it leaves. */
  ghost predicate ThreadSays(s: State, th: Thread) {
    OwnWork(s, th) && (th.Replying? ==> TellsRecordOf(s, th.env.sender, th.reply))
  }

  predicate Acts(ev: Event) {
    ev.Serve? || ev.Assign? || ev.Started? || ev.Cancel? || ev.Stopped? || ev.Release? || ev.Renew? || ev.Read?
  }

  /** No thread but the event's own changes. */
  predicate OnlyThread(w: World, w': World, t: nat) {
    forall u | u in w'.threads && u != t :: u in w.threads && w'.threads[u] == w.threads[u]
  }

  lemma ActsAlone(cfg: Config, w: World, ev: Event)
    requires Enabled(cfg, w, ev) && Acts(ev)
    ensures OnlyThread(w, Apply(cfg, w, ev), ev.t)
  {
    hide AssignBegin, AssignEnd, CancelBegin, CancelEnd, EvictEnd, HandleRelease, HandleRequest, HandleRenew, HandleRead, ViewsOf;
  }

  /** Elsewhere a thread stays as it is or has nothing to tell. */
  predicate Silent(w: World, w': World) {
    forall u | u in w'.threads ::
      (u in w.threads && w'.threads[u] == w.threads[u]) || w'.threads[u].Checked? || w'.threads[u].Begun? || w'.threads[u].Evicting?
  }

  lemma OthersSilent(cfg: Config, w: World, ev: Event)
    requires Enabled(cfg, w, ev) && !Acts(ev) && !ev.Crash?
    ensures Silent(w, Apply(cfg, w, ev))
  {
    hide Expire, EvictBegin, BeginReplay, RuntimeCompleted, RecoverVisit, ViewsOf, CleanedUp, Freshness, Sweep, SweepReady,
         Evicts, Prune, CollectableIds, FinishReplay;
  }

  lemma StartedSays(cfg: Config, w: World, ev: Event)
    requires Enabled(cfg, w, ev) && ev.Started? && OwnWork(w.mem, w.threads[ev.t])
    ensures var w' := StartReturned(cfg, w, ev.t, ev.startErr, ev.now, ev.saved); ev.t in w'.threads && ThreadSays(w'.mem, w'.threads[ev.t])
  {
    hide ViewsOf, AssignEnd;
    var th := w.threads[ev.t];
    AssignEndQuiet(cfg, w.mem, th.x, ev.startErr, ev.now);
    assert RecordStep(w.mem.executions[th.x], AssignEnd(cfg, w.mem, th.x, ev.startErr, ev.now).executions[th.x]);
  }

  lemma CancelSays(cfg: Config, s: State, th: Thread, stopped: bool, now: Time)
    requires th.Stopping? && OwnWork(s, th)
    ensures var s' := CancelEnd(cfg, s, th.x, th.reason, th.wasPhase, th.wasDetail, stopped, now);
      th.x in s'.executions && s'.executions[th.x].client == th.env.sender
  {
    hide CancelEnd;
    StopQuiet(cfg, s, th.x, th.reason, th.wasPhase, th.wasDetail, stopped, now);
    assert RecordStep(s.executions[th.x], CancelEnd(cfg, s, th.x, th.reason, th.wasPhase, th.wasDetail, stopped, now).executions[th.x]);
  }

  lemma StoppedSays(cfg: Config, w: World, ev: Event)
    requires Enabled(cfg, w, ev) && ev.Stopped? && OwnWork(w.mem, w.threads[ev.t])
    ensures var w' := StopReturned(cfg, w, ev.t, ev.stopped, ev.now, ev.saved); ev.t in w'.threads ==> ThreadSays(w'.mem, w'.threads[ev.t])
  {
    hide ViewsOf, CancelEnd, EvictEnd;
    if w.threads[ev.t].Stopping? { CancelSays(cfg, w.mem, w.threads[ev.t], ev.stopped, ev.now); }
  }

  lemma StateSays(cfg: Config, w: World, ev: Event)
    requires WorldInv(cfg, w) && Enabled(cfg, w, ev) && (ev.Assign? || ev.Cancel? || ev.Read?)
    ensures var w' := Apply(cfg, w, ev); ev.t in w'.threads && ThreadSays(w'.mem, w'.threads[ev.t])
  {
    hide WorldInv, Inv, ViewsOf, AssignBegin, CancelBegin, HandleRead, TellsRecordOf;
    InvOf(cfg, w);
    var e := w.threads[ev.t].env;
    match ev
    case Assign(t, now, placed, saved) =>
      AssignTells(cfg, w.mem, e, e.payload.requestId, e.payload.offerId, e.payload.executionId, now, placed, saved);
    case Cancel(t, now, saved) => CancelTells(w.mem, e, e.payload.executionId, e.payload.reason, now, saved);
    case Read(t, bound) => ReadTells(w.mem, e, bound);
  }

  lemma NoStateSays(cfg: Config, w: World, ev: Event)
    requires Enabled(cfg, w, ev) && (ev.Serve? || ev.Release? || ev.Renew?)
    ensures var w' := Apply(cfg, w, ev); ev.t in w'.threads && ThreadSays(w'.mem, w'.threads[ev.t])
  {
    hide ViewsOf, HandleRelease, HandleRequest, HandleRenew, TellsRecordOf;
    var e := w.threads[ev.t].env;
    match ev
    case Serve(t, now, renv) =>
      RequestTells(cfg, w.mem, e.sender, e.payload.request, now, renv);
      var (s, r) := HandleRequest(cfg, w.mem, e.sender, e.payload.request, now, renv);
      NothingTold(s, e.sender, r);
    case Release(t, now, saved) =>
      OthersTell(w.mem, e, now, saved);
      var (s, r) := HandleRelease(w.mem, e, e.payload.requestId, e.payload.offerId, now, saved);
      NothingTold(s, e.sender, r);
    case Renew(t, now, saved) =>
      OthersTell(w.mem, e, now, saved);
      var (s, r) := HandleRenew(w.mem, e, e.payload.executionId, e.payload.duration, now, saved);
      NothingTold(s, e.sender, r);
  }

  lemma NothingTold(s: State, client: Identity, reply: Reply)
    requires forall v :: StateResponse(v) !in reply.responses
    ensures TellsRecordOf(s, client, reply)
  {
  }

  lemma OwnThreadSays(cfg: Config, w: World, ev: Event)
    requires WorldInv(cfg, w) && TellInv(w) && Enabled(cfg, w, ev) && Acts(ev)
    ensures var w' := Apply(cfg, w, ev); ev.t in w'.threads ==> ThreadSays(w'.mem, w'.threads[ev.t])
  {
    hide WorldInv, RecordsLaunched, TellsOnly, ThreadSays, OwnWork, StartReturned, StopReturned;
    if ev.Started? {
      assert ThreadTells(w, w.threads[ev.t]);
      StartedSays(cfg, w, ev);
    } else if ev.Stopped? {
      assert ThreadTells(w, w.threads[ev.t]);
      StoppedSays(cfg, w, ev);
    } else {
      hide Apply;
      if ev.Assign? || ev.Cancel? || ev.Read? { StateSays(cfg, w, ev); } else { NoStateSays(cfg, w, ev); }
    }
  }

  // ------------------------------------------------------------------------------ steps

  lemma OldThreadTells(cfg: Config, w: World, w': World, t: nat, added: bool)
    requires t in w.threads && t in w'.threads && w'.threads[t] == w.threads[t]
    requires WorldInv(cfg, w') && Longer(w, w') && WorkStays(w.mem, w'.mem, added) && ThreadTells(w, w.threads[t])
    ensures ThreadTells(w', w'.threads[t])
  {
    hide WorldInv, TellsOnly, Longer;
    RecordFates.SoundAt(cfg, w', t);
    if w.threads[t].Replying? { TellsStill(w, w', w.threads[t].env.sender, w.threads[t].reply); }
  }

  lemma NewThreadTells(w: World, th: Thread)
    requires RecordsLaunched(w.mem, w.launches) && Shown(w.mem, w.views) && ThreadSays(w.mem, th)
    ensures ThreadTells(w, th)
  {
    hide RecordsLaunched, Shown, TellsOnly, TellsRecordOf;
    if th.Replying? { RecordTold(w, th.env.sender, th.reply); }
  }

  lemma ThreadsTell(cfg: Config, w: World, w': World, ev: Event, t: nat)
    requires WorldInv(cfg, w') && TellInv(w) && Longer(w, w') && WorkStays(w.mem, w'.mem, ev.Assign?) && t in w'.threads
    requires RecordsLaunched(w'.mem, w'.launches) && Shown(w'.mem, w'.views)
    requires if Acts(ev) then OnlyThread(w, w', ev.t) && (ev.t in w'.threads ==> ThreadSays(w'.mem, w'.threads[ev.t])) else Silent(w, w')
    ensures ThreadTells(w', w'.threads[t])
  {
    hide WorldInv, RecordsLaunched, WorkStays, Shown, ThreadSays, Longer, TellsOnly;
    if Acts(ev) && t == ev.t {
      NewThreadTells(w', w'.threads[t]);
    } else if t in w.threads && w'.threads[t] == w.threads[t] {
      assert ThreadTells(w, w.threads[t]);
      OldThreadTells(cfg, w, w', t, ev.Assign?);
    }
  }

  lemma TellStep(cfg: Config, w: World, ev: Event)
    requires ValidConfig(cfg) && WorldInv(cfg, w) && ViewInv(w) && TellInv(w) && Enabled(cfg, w, ev) && (ev.Crash? ==> Synced(w))
    ensures TellInv(Apply(cfg, w, ev))
  {
    hide WorldInv, ViewInv, Enabled, Synced, RecordsLaunched, ThreadTells, Restarting, WorkStays, Longer, OnlyThread, Silent, ThreadSays;
    if ev.Crash? {
      RestartLaunched(cfg, w, ev.now);
    } else {
      hide Apply;
      var w' := Apply(cfg, w, ev);
      Step(cfg, w, ev);
      ViewStep(cfg, w, ev);
      ShownIn(w');
      HistoryGrows(cfg, w, ev);
      WorkKept(cfg, w, ev);
      RecordsStep(cfg, w, ev);
      if Acts(ev) {
        ActsAlone(cfg, w, ev);
        OwnThreadSays(cfg, w, ev);
      } else {
        OthersSilent(cfg, w, ev);
      }
      forall t | t in w'.threads ensures ThreadTells(w', w'.threads[t]) { ThreadsTell(cfg, w, w', ev, t); }
    }
  }

  lemma ShownIn(w: World)
    requires ViewInv(w)
    ensures Shown(w.mem, w.views) && Coherent(w.views)
  {
  }

  lemma StartTells()
    ensures TellInv(START)
  {
  }
}
