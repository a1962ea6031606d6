/** One client and any number of allocators over a network that loses,
    duplicates, delays and reorders. What the client has ever said may reach any
    allocator, any number of times, at any later moment; what reaches the client
    is unconstrained. Identities are authenticated and new IDs are never reused. */
module SystemRuns {
  import opened Protocol
  import opened AllocatorState
  import opened AllocatorRuns
  import opened AllocatorTheorems
  import C = ClientState
  import CT = ClientTheorems

  datatype Setup = Setup(me: Identity, configs: map<Identity, Config>)

  datatype System = System(client: C.Client, worlds: map<Identity, World>, sent: set<Envelope>)

  datatype Happening =
    | Register(identity: Identity, route: C.Route)
    | Ask(request: Request, messageId: string, now: Time)
    | OfferSeen(sender: Identity, correlation: string, offer: C.WireOffer, releaseId: string, now: Time)
    | Choose(requestId: string, sel: C.Selection, chosen: string)
    | StateSeen(sender: Identity, view: View)
    | AckSeen(sender: Identity, correlation: string, requestId: string, offerId: string, outcome: ReleaseOutcome)
    | Say(e: Envelope)
    | Allocate(a: Identity, ev: Event)

  predicate Unused(sys: System, id: string) {
    forall a | a in sys.worlds :: id !in sys.worlds[a].issued
  }

  /** The client says only what its operations return; every other command but an assignment is left free. */
  ghost predicate Possible(setup: Setup, sys: System, h: Happening) {
    match h
    case Choose(q, sel, chosen) =>
      q in sys.client.requests && C.EligibleIds(sys.client, sys.client.requests[q], sel) != {} ==>
        C.Chosen(sys.client, sys.client.requests[q], sel, chosen)
    case Say(e) => e.sender == setup.me && !e.payload.ExecutionAssign?
    case Allocate(a, ev) =>
      && a in sys.worlds && a in setup.configs && Enabled(setup.configs[a], sys.worlds[a], ev)
      && (ev.Arrive? && ev.env.sender == setup.me ==> ev.env in sys.sent)
      && (ev.Serve? ==> Unused(sys, ev.renv.newId))
    case _ => true
  }

  ghost function Happens(setup: Setup, sys: System, h: Happening): System
    requires Possible(setup, sys, h)
  {
    match h
    case Register(identity, route) => sys.(client := C.RegisterAllocator(sys.client, identity, route).0)
    case Ask(request, messageId, now) =>
      var (c, err) := C.CreateRequest(sys.client, request, messageId, now);
      if err.Some? then sys else System(c, sys.worlds, sys.sent + {C.RequestEnvelope(setup.me, c.requests[request.requestId])})
    case OfferSeen(sender, correlation, offer, releaseId, now) =>
      sys.(client := C.HandleOffer(sys.client, sender, correlation, offer, releaseId, now).0)
    case Choose(q, sel, chosen) =>
      var (c, p) := C.Select(sys.client, setup.me, q, sel, chosen);
      System(c, sys.worlds, if p.Assigned? then sys.sent + {p.envelope} else sys.sent)
    case StateSeen(sender, view) => sys.(client := C.HandleState(sys.client, sender, view).0)
    case AckSeen(sender, correlation, q, id, outcome) =>
      sys.(client := C.HandleReleaseAck(sys.client, sender, correlation, q, id, outcome).0)
    case Say(e) => sys.(sent := sys.sent + {e})
    case Allocate(a, ev) => sys.(worlds := sys.worlds[a := Apply(setup.configs[a], sys.worlds[a], ev)])
  }

  ghost predicate Starts(setup: Setup, sys: System) {
    && sys.client == C.NEW && sys.sent == {} && sys.worlds.Keys == setup.configs.Keys
    && forall a | a in sys.worlds :: ValidConfig(setup.configs[a]) && sys.worlds[a] == START
  }

  ghost predicate SystemRun(setup: Setup, states: seq<System>, happenings: seq<Happening>) {
    && |states| == |happenings| + 1 && Starts(setup, states[0])
    && forall i | 0 <= i < |happenings| ::
         Possible(setup, states[i], happenings[i]) && states[i + 1] == Happens(setup, states[i], happenings[i])
  }

  // ------------------------------------------------------------------------- invariant

  predicate Named(c: C.Client, e: Envelope)
    requires e.payload.ExecutionAssign?
  {
    var p := e.payload;
    && p.requestId in c.requests && c.requests[p.requestId].executionId == p.executionId
    && p.executionId in c.executions && c.executions[p.executionId].offerId == p.offerId
  }

  /** Every assignment the client ever sent is the one its records still name. */
  predicate AssignmentsNamed(me: Identity, c: C.Client, sent: set<Envelope>) {
    forall e | e in sent && e.sender == me && e.payload.ExecutionAssign? :: Named(c, e)
  }

  predicate EnvKnown(me: Identity, sent: set<Envelope>, th: Thread) {
    th.Evicting? || (th.env.sender == me ==> th.env in sent)
  }

  predicate Backed(me: Identity, sent: set<Envelope>, l: Launched) {
    l.client == me ==> exists e | e in sent :: e.sender == me && e.payload == ExecutionAssign(l.requestId, l.offerId, l.executionId)
  }

  predicate Traced(me: Identity, sent: set<Envelope>, w: World) {
    && (forall t | t in w.threads :: EnvKnown(me, sent, w.threads[t]))
    && (forall i | 0 <= i < |w.launches| :: Backed(me, sent, w.launches[i]))
  }

  predicate Apart(worlds: map<Identity, World>) {
    forall a, b | a in worlds && b in worlds && a != b :: worlds[a].issued !! worlds[b].issued
  }

  ghost predicate SysInv(setup: Setup, sys: System) {
    && C.ClientInv(sys.client) && AssignmentsNamed(setup.me, sys.client, sys.sent) && Apart(sys.worlds)
    && forall a | a in sys.worlds :: a in setup.configs && Reachable(setup.configs[a], sys.worlds[a]) && Traced(setup.me, sys.sent, sys.worlds[a])
  }

  // --------------------------------------------------------------------- allocator steps

  /** A thread works on the envelope it arrived with. */
  predicate SameEnv(w: World, w': World, ev: Event, u: nat) {
    u in w'.threads && !w'.threads[u].Evicting? ==>
      || (u in w.threads && !w.threads[u].Evicting? && w.threads[u].env == w'.threads[u].env)
      || (ev.Arrive? && w'.threads[u].env == ev.env)
  }

  predicate Handler(ev: Event) {
    ev.Serve? || ev.Assign? || ev.Started? || ev.Cancel? || ev.Stopped? || ev.Release? || ev.Renew? || ev.Read?
  }

  lemma ThreadEnv(cfg: Config, w: World, ev: Event, u: nat)
    requires Enabled(cfg, w, ev)
    ensures SameEnv(w, Apply(cfg, w, ev), ev, u)
  {
    hide Apply, Enabled, SameEnv;
    if Handler(ev) {
      HandlerEnv(cfg, w, ev, u);
    } else {
      OtherEnv(cfg, w, ev, u);
    }
  }

  lemma HandlerEnv(cfg: Config, w: World, ev: Event, u: nat)
    requires Enabled(cfg, w, ev) && Handler(ev)
    ensures SameEnv(w, Apply(cfg, w, ev), ev, u)
  {
    hide AssignBegin, AssignEnd, CancelBegin, CancelEnd, EvictEnd, HandleRelease, HandleRequest, HandleRenew, HandleRead, ViewsOf;
  }

  lemma OtherEnv(cfg: Config, w: World, ev: Event, u: nat)
    requires Enabled(cfg, w, ev) && !Handler(ev)
    ensures SameEnv(w, Apply(cfg, w, ev), ev, u)
  {
    hide Expire, EvictBegin, BeginReplay, RuntimeCompleted, RecoverVisit, ViewsOf, CleanedUp, Freshness, Sweep, SweepReady,
         Reload, Evicts, Prune, CollectableIds, FinishReplay;
  }

  lemma IssuedOnly(cfg: Config, w: World, ev: Event)
    requires Enabled(cfg, w, ev)
    ensures Apply(cfg, w, ev).issued == if ev.Serve? then w.issued + {ev.renv.newId} else w.issued
  {
    hide Expire, AssignBegin, AssignEnd, CancelBegin, CancelEnd, EvictEnd, EvictBegin, HandleRelease, HandleRequest, BeginReplay,
         HandleRenew, RuntimeCompleted, RecoverVisit, HandleRead, ViewsOf, CleanedUp, Freshness, Sweep, SweepReady, Reload,
         Evicts, Prune, CollectableIds, FinishReplay;
  }

  lemma TraceStep(me: Identity, sent: set<Envelope>, cfg: Config, w: World, ev: Event)
    requires Reachable(cfg, w) && Enabled(cfg, w, ev) && Traced(me, sent, w)
    requires ev.Arrive? && ev.env.sender == me ==> ev.env in sent
    ensures Traced(me, sent, Apply(cfg, w, ev))
  {
    hide Reachable, Apply, Enabled;
    var w' := Apply(cfg, w, ev);
    forall u | u in w'.threads ensures EnvKnown(me, sent, w'.threads[u]) {
      ThreadEnv(cfg, w, ev, u);
      if u in w.threads { assert EnvKnown(me, sent, w.threads[u]); }
    }
    LaunchIsDurable(cfg, w, ev);
    if w'.launches != w.launches {
      AssignThread(cfg, w, ev);
      assert EnvKnown(me, sent, w.threads[ev.t]);
      forall i | 0 <= i < |w'.launches| ensures Backed(me, sent, w'.launches[i]) {
        if i < |w.launches| { assert w'.launches[i] == w.launches[i]; }
      }
    }
  }

  lemma AssignThread(cfg: Config, w: World, ev: Event)
    requires Enabled(cfg, w, ev) && ev.Assign?
    ensures ev.t in w.threads && w.threads[ev.t].Begun?
  {
  }

  lemma AllocateKeeps(setup: Setup, sys: System, a: Identity, ev: Event)
    requires SysInv(setup, sys) && Possible(setup, sys, Allocate(a, ev))
    ensures SysInv(setup, Happens(setup, sys, Allocate(a, ev)))
  {
    hide Reachable, Enabled, Apply, Traced, C.ClientInv, AssignmentsNamed, Apart;
    var cfg, w := setup.configs[a], sys.worlds[a];
    Extends(cfg, w, ev);
    TraceStep(setup.me, sys.sent, cfg, w, ev);
    ApartStep(sys, cfg, a, ev);
  }

  lemma ApartStep(sys: System, cfg: Config, a: Identity, ev: Event)
    requires Apart(sys.worlds) && a in sys.worlds && Enabled(cfg, sys.worlds[a], ev) && (ev.Serve? ==> Unused(sys, ev.renv.newId))
    ensures Apart(sys.worlds[a := Apply(cfg, sys.worlds[a], ev)])
  {
    hide Enabled, Apply;
    IssuedOnly(cfg, sys.worlds[a], ev);
  }

  // ------------------------------------------------------------------------ client steps

  /** A client step that forgets no assignment keeps every one of them named. */
  predicate Remembers(c: C.Client, c': C.Client) {
    && (forall q | q in c.requests && c.requests[q].executionId != "" :: q in c'.requests && c'.requests[q].executionId == c.requests[q].executionId)
    && (forall x | x in c.executions :: x in c'.executions && c'.executions[x].offerId == c.executions[x].offerId)
  }

  lemma StillNamed(me: Identity, c: C.Client, c': C.Client, sent: set<Envelope>)
    requires C.ClientInv(c) && AssignmentsNamed(me, c, sent) && Remembers(c, c')
    ensures AssignmentsNamed(me, c', sent)
  {
    forall e | e in sent && e.sender == me && e.payload.ExecutionAssign? ensures Named(c', e) {
      assert Named(c, e);
    }
  }

  lemma QuietKeeps(setup: Setup, sys: System, c: C.Client)
    requires SysInv(setup, sys) && C.ClientInv(c) && Remembers(sys.client, c)
    ensures SysInv(setup, sys.(client := c))
  {
    hide C.ClientInv, Reachable, Traced, Remembers;
    StillNamed(setup.me, sys.client, c, sys.sent);
  }

  lemma SaidKeeps(setup: Setup, sys: System, e: Envelope)
    requires SysInv(setup, sys) && (e.sender == setup.me && e.payload.ExecutionAssign? ==> Named(sys.client, e))
    ensures SysInv(setup, sys.(sent := sys.sent + {e}))
  {
    hide C.ClientInv, Reachable;
    forall a | a in sys.worlds ensures Traced(setup.me, sys.sent + {e}, sys.worlds[a]) {
      TracedMore(setup.me, sys.sent, e, sys.worlds[a]);
    }
  }

  lemma TracedMore(me: Identity, sent: set<Envelope>, e: Envelope, w: World)
    requires Traced(me, sent, w)
    ensures Traced(me, sent + {e}, w)
  {
    forall i | 0 <= i < |w.launches| ensures Backed(me, sent + {e}, w.launches[i]) {
      assert Backed(me, sent, w.launches[i]);
    }
  }

  lemma CommitRemembers(c: C.Client, me: Identity, q: string, sel: C.Selection, chosen: string)
    requires C.ClientInv(c) && q in c.requests && c.requests[q].request.requestId == q && c.requests[q].executionId == ""
    requires chosen in c.requests[q].offers && c.requests[q].offers[chosen].allocatorId in c.routes
    requires sel.executionId !in c.executions
    ensures var c' := C.Commit(c, c.requests[q], sel, chosen);
      Remembers(c, c') && Named(c', C.AssignEnvelope(me, sel.executionId, c'.executions[sel.executionId]))
  {
    hide C.ClientInv, C.Settled;
  }

  predicate Assigns(me: Identity, c: C.Client, p: C.Picked) {
    p.Assigned? ==> p.envelope.sender == me && p.envelope.payload.ExecutionAssign? && Named(c, p.envelope)
  }

  lemma SelectRemembers(c: C.Client, me: Identity, q: string, sel: C.Selection, chosen: string)
    requires C.ClientInv(c)
    requires q in c.requests && C.EligibleIds(c, c.requests[q], sel) != {} ==> C.Chosen(c, c.requests[q], sel, chosen)
    ensures var (c', p) := C.Select(c, me, q, sel, chosen); C.ClientInv(c') && Remembers(c, c') && Assigns(me, c', p)
  {
    hide C.ClientInv, C.Releasable, C.Commit, C.Chosen, C.EligibleIds, Remembers;
    CT.SelectKeeps(c, me, q, sel, chosen);
    if q in c.requests {
      RecordOf(c, q);
      if C.EligibleIds(c, c.requests[q], sel) != {} { ChosenThere(c, c.requests[q], sel, chosen); }
    }
    var (c', p) := C.Select(c, me, q, sel, chosen);
    if c' != c {
      CommitRemembers(c, me, q, sel, chosen);
    } else {
      RemembersItself(c);
      if p.Assigned? && c.requests[q].executionId == "" { CommitRemembers(c, me, q, sel, chosen); }
    }
  }

  lemma ChosenThere(c: C.Client, r: C.RequestRecord, sel: C.Selection, chosen: string)
    requires C.Chosen(c, r, sel, chosen)
    ensures chosen in r.offers && r.offers[chosen].allocatorId in c.routes
  {
  }

  lemma RemembersItself(c: C.Client)
    ensures Remembers(c, c)
  {
  }

  lemma RecordOf(c: C.Client, q: string)
    requires C.ClientInv(c) && q in c.requests
    ensures var r := c.requests[q];
      && r.request.requestId == q
      && (r.executionId != "" ==> r.executionId in c.executions && c.executions[r.executionId].requestId == q)
  {
    assert C.OffersKeyed(q, c.requests[q]) && C.OneKept(c.executions, c.requests[q]);
  }

  lemma ChooseKeeps(setup: Setup, sys: System, q: string, sel: C.Selection, chosen: string)
    requires SysInv(setup, sys) && Possible(setup, sys, Choose(q, sel, chosen))
    ensures SysInv(setup, Happens(setup, sys, Choose(q, sel, chosen)))
  {
    SelectRemembers(sys.client, setup.me, q, sel, chosen);
    var (c, p) := C.Select(sys.client, setup.me, q, sel, chosen);
    hide C.ClientInv, Reachable, Traced, Remembers, C.Select, SysInv;
    QuietKeeps(setup, sys, c);
    if p.Assigned? { SaidKeeps(setup, sys.(client := c), p.envelope); }
  }

  lemma ObserveRemembers(c: C.Client, sender: Identity, view: View)
    ensures Remembers(c, C.HandleState(c, sender, view).0)
  {
    if view.executionId in c.executions { CT.ObserveFrame(c.executions[view.executionId], view); }
    hide C.Observe;
  }

  lemma WithOfferRemembers(c: C.Client, q: string, o: C.OfferRecord)
    requires q in c.requests && c.requests[q].request.requestId == q
    ensures Remembers(c, C.WithOffer(c, c.requests[q], o))
  {
  }

  lemma OfferRemembers(c: C.Client, sender: Identity, correlation: string, offer: C.WireOffer, releaseId: string, now: Time)
    requires C.ClientInv(c)
    ensures Remembers(c, C.HandleOffer(c, sender, correlation, offer, releaseId, now).0)
  {
    hide C.ClientInv, C.NewRelease, Remembers, C.WithOffer, C.Refreshed;
    RemembersItself(c);
    if offer.requestId in c.requests {
      RecordOf(c, offer.requestId);
      if sender in c.routes {
        var c1 := C.Refreshed(c, sender, offer.node);
        RefreshRemembers(c, sender, offer.node);
        WithOfferRemembers(c1, offer.requestId, C.OfferRecord(offer, sender, None));
        WithOfferRemembers(c1, offer.requestId, C.OfferRecord(offer, sender, C.NewRelease(c1, sender, releaseId, now).0));
        SameRecords(c, c1, C.WithOffer(c1, c.requests[offer.requestId], C.OfferRecord(offer, sender, None)));
        SameRecords(c, c1, C.WithOffer(c1, c.requests[offer.requestId], C.OfferRecord(offer, sender, C.NewRelease(c1, sender, releaseId, now).0)));
      }
    }
  }

  lemma RefreshRemembers(c: C.Client, sender: Identity, node: Option<C.Node>)
    requires sender in c.routes
    ensures var c1 := C.Refreshed(c, sender, node); c1.requests == c.requests && c1.executions == c.executions && Remembers(c, c1)
  {
  }

  lemma SameRecords(c: C.Client, c1: C.Client, c2: C.Client)
    requires c1.requests == c.requests && c1.executions == c.executions && Remembers(c1, c2)
    ensures Remembers(c, c2)
  {
  }

  lemma AckRemembers(c: C.Client, sender: Identity, correlation: string, q: string, id: string, outcome: ReleaseOutcome)
    ensures Remembers(c, C.HandleReleaseAck(c, sender, correlation, q, id, outcome).0)
  {
  }

  /** What the client hears from the network changes what it knows, never what it has assigned. */
  lemma HearingKeeps(c: C.Client, h: Happening)
    requires C.ClientInv(c) && (h.Register? || h.OfferSeen? || h.StateSeen? || h.AckSeen?)
    ensures C.ClientInv(Heard(c, h)) && Remembers(c, Heard(c, h))
  {
    hide C.ClientInv, Remembers, C.HandleOffer, C.HandleState, C.HandleReleaseAck, C.RegisterAllocator;
    match h
    case Register(identity, route) =>
      CT.RegisterKeeps(c, identity, route);
      assert Remembers(c, C.RegisterAllocator(c, identity, route).0) by { RegisterRemembers(c, identity, route); }
    case OfferSeen(sender, correlation, offer, releaseId, now) =>
      CT.OfferKeeps(c, sender, correlation, offer, releaseId, now);
      OfferRemembers(c, sender, correlation, offer, releaseId, now);
    case StateSeen(sender, view) =>
      CT.StateKeeps(c, sender, view);
      ObserveRemembers(c, sender, view);
    case AckSeen(sender, correlation, q, id, outcome) =>
      CT.AckKeeps(c, sender, correlation, q, id, outcome);
      AckRemembers(c, sender, correlation, q, id, outcome);
  }

  lemma RegisterRemembers(c: C.Client, identity: Identity, route: C.Route)
    ensures Remembers(c, C.RegisterAllocator(c, identity, route).0)
  {
  }

  function Heard(c: C.Client, h: Happening): C.Client
    requires h.Register? || h.OfferSeen? || h.StateSeen? || h.AckSeen?
  {
    match h
    case Register(identity, route) => C.RegisterAllocator(c, identity, route).0
    case OfferSeen(sender, correlation, offer, releaseId, now) => C.HandleOffer(c, sender, correlation, offer, releaseId, now).0
    case StateSeen(sender, view) => C.HandleState(c, sender, view).0
    case AckSeen(sender, correlation, q, id, outcome) => C.HandleReleaseAck(c, sender, correlation, q, id, outcome).0
  }

  lemma ClientKeeps(setup: Setup, sys: System, h: Happening)
    requires SysInv(setup, sys) && Possible(setup, sys, h) && (h.Register? || h.OfferSeen? || h.StateSeen? || h.AckSeen?)
    ensures SysInv(setup, Happens(setup, sys, h))
  {
    hide Reachable, Traced, C.ClientInv, Remembers, AssignmentsNamed, Apart;
    HearingKeeps(sys.client, h);
    QuietKeeps(setup, sys, Heard(sys.client, h));
    hide SysInv, C.HandleOffer, C.HandleState, C.HandleReleaseAck, C.RegisterAllocator;
  }

  lemma AskKeeps(setup: Setup, sys: System, request: Request, messageId: string, now: Time)
    requires SysInv(setup, sys)
    ensures SysInv(setup, Happens(setup, sys, Ask(request, messageId, now)))
  {
    var (c, err) := C.CreateRequest(sys.client, request, messageId, now);
    CT.CreateKeeps(sys.client, request, messageId, now);
    assert Remembers(sys.client, c);
    hide C.ClientInv, Reachable, Traced, Remembers;
    QuietKeeps(setup, sys, c);
    if err.None? { SaidKeeps(setup, sys.(client := c), C.RequestEnvelope(setup.me, c.requests[request.requestId])); }
  }

  lemma StepKeeps(setup: Setup, sys: System, h: Happening)
    requires SysInv(setup, sys) && Possible(setup, sys, h)
    ensures SysInv(setup, Happens(setup, sys, h))
  {
    hide SysInv, Enabled, Apply, C.Chosen, Named;
    match h
    case Allocate(a, ev) => AllocateKeeps(setup, sys, a, ev);
    case Choose(q, sel, chosen) => ChooseKeeps(setup, sys, q, sel, chosen);
    case Say(e) => SaidKeeps(setup, sys, e);
    case Ask(request, messageId, now) => AskKeeps(setup, sys, request, messageId, now);
    case _ => ClientKeeps(setup, sys, h);
  }

  lemma StartsInv(setup: Setup, sys: System)
    requires Starts(setup, sys)
    ensures SysInv(setup, sys)
  {
    forall a | a in sys.worlds ensures Reachable(setup.configs[a], sys.worlds[a]) {
      assert Run(setup.configs[a], [START], []) && [START][0] == START;
    }
  }

  lemma {:induction false} RunKeeps(setup: Setup, states: seq<System>, happenings: seq<Happening>, n: nat)
    requires SystemRun(setup, states, happenings) && n < |states|
    ensures SysInv(setup, states[n])
  {
    hide SysInv, Possible, Happens, Starts;
    if n == 0 {
      StartsInv(setup, states[0]);
    } else {
      RunKeeps(setup, states, happenings, n - 1);
      StepKeeps(setup, states[n - 1], happenings[n - 1]);
    }
  }

  // --------------------------------------------------------------------------- theorem

  lemma SameOffer(me: Identity, c: C.Client, sent: set<Envelope>, l: Launched, m: Launched)
    requires AssignmentsNamed(me, c, sent) && Backed(me, sent, l) && Backed(me, sent, m)
    requires l.client == me && m.client == me && l.requestId == m.requestId
    ensures l.offerId == m.offerId && l.executionId == m.executionId
  {
    var e :| e in sent && e.sender == me && e.payload == ExecutionAssign(l.requestId, l.offerId, l.executionId);
    var f :| f in sent && f.sender == me && f.payload == ExecutionAssign(m.requestId, m.offerId, m.executionId);
    assert Named(c, e) && Named(c, f);
  }

  lemma LaunchIssued(cfg: Config, w: World, i: nat)
    requires Reachable(cfg, w) && i < |w.launches|
    ensures w.launches[i].offerId in w.issued
  {
    ReachableInv(cfg, w);
    hide Reachable;
  }

  /** Over every run of the whole system, a request of the client is started at most once, by at most one allocator. */
  lemma OneStartPerRequest(setup: Setup, states: seq<System>, happenings: seq<Happening>, n: nat,
                           a: Identity, i: nat, b: Identity, j: nat)
    requires SystemRun(setup, states, happenings) && n < |states|
    requires a in states[n].worlds && i < |states[n].worlds[a].launches| && b in states[n].worlds && j < |states[n].worlds[b].launches|
    requires var l, m := states[n].worlds[a].launches[i], states[n].worlds[b].launches[j];
      l.client == setup.me && m.client == setup.me && l.requestId == m.requestId
    ensures a == b && i == j
  {
    hide SystemRun, Reachable;
    RunKeeps(setup, states, happenings, n);
    var sys := states[n];
    var w, v := sys.worlds[a], sys.worlds[b];
    SameOffer(setup.me, sys.client, sys.sent, w.launches[i], v.launches[j]);
    LaunchIssued(setup.configs[a], w, i);
    LaunchIssued(setup.configs[b], v, j);
    StartedAtMostOnce(setup.configs[a], w);
  }
}
