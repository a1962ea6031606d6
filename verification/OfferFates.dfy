/** What a run may do to one offer: it stands as it was made until its time, a
    release or its collection, across crashes, so that asking again gives it again
    and assigning it again starts nothing. */
module OfferFates {
  import opened Protocol
  import opened AllocatorState
  import opened AllocatorInvariant
  import opened AllocatorRuns
  import opened WorldInvariant
  import opened WorldSteps
  import opened AllocatorTheorems
  import opened CommandMeaning

  /** The offer as it was made, taken or not. */
  predicate SameTerms(o: Offer, made: Offer) {
    o == made.(status := o.status, execution := o.execution) && (o.status == Outstanding || o.status == Assigned)
  }

  predicate Stood(s: State, id: string, made: Offer) {
    id in s.offers ==> SameTerms(s.offers[id], made)
  }

  /** The clock an event reads, if it reads one. */
  function ClockOf(ev: Event): Time {
    match ev
    case Read(_, _) => UNSET
    case Leave(_, _, _) => UNSET
    case Clean(_, _) => UNSET
    case Swept => UNSET
    case _ => ev.now
  }

  /** By neither the clock nor the high-water mark is it time. */
  predicate Early(w: World, ev: Event, expiresAt: Time) {
    Max(w.mem.highWater, ClockOf(ev)) < expiresAt
  }

  predicate Releases(w: World, ev: Event, id: string) {
    && ev.Release? && ev.t in w.threads && !w.threads[ev.t].Evicting?
    && w.threads[ev.t].env.payload.ExecutionOfferRelease? && w.threads[ev.t].env.payload.offerId == id
  }

  // ------------------------------------------------------------------------- sections

  lemma ExpireLeaves(s: State, now: Time, id: string, made: Offer)
    requires Stood(s, id, made) && now < made.expiresAt
    ensures Stood(Expire(s, now), id, made)
  {
  }

  lemma BeginLeaves(cfg: Config, s: State, e: Envelope, now: Time, victims: set<ReplayKey>, saved: bool, id: string, made: Offer)
    requires Stood(s, id, made) && now < made.expiresAt
    ensures Stood(BeginReplay(cfg, s, e, now, victims, saved).0, id, made)
  {
    hide Expire, Prune, SameTerms;
    ExpireLeaves(s, now, id, made);
  }

  lemma RequestLeaves(cfg: Config, s: State, client: Identity, q: Request, now: Time, env: RequestEnv, id: string, made: Offer)
    requires Stood(s, id, made) && now < made.expiresAt && env.newId != id
    ensures Stood(HandleRequest(cfg, s, client, q, now, env).0, id, made)
  {
    hide Expire, RequestRefusal, SameTerms;
    ExpireLeaves(s, now, id, made);
  }

  lemma AssignLeaves(cfg: Config, s: State, e: Envelope, r: string, o: string, x: string, now: Time, placed: bool, saved: bool, id: string, made: Offer)
    requires Stood(s, id, made) && now < made.expiresAt
    ensures Stood(AssignBegin(cfg, s, e, r, o, x, now, placed, saved).0, id, made)
  {
    hide Expire, Admit;
    ExpireLeaves(s, now, id, made);
  }

  lemma ReleaseLeaves(s: State, e: Envelope, r: string, o: string, now: Time, saved: bool, id: string, made: Offer)
    requires Stood(s, id, made) && o != id
    ensures Stood(HandleRelease(s, e, r, o, now, saved).0, id, made)
  {
  }

  lemma SweepLeaves(cfg: Config, s: State, now: Time, id: string, made: Offer)
    requires Stood(s, id, made) && Max(s.highWater, now) < made.expiresAt
    ensures Stood(Sweep(cfg, s, now), id, made)
  {
    hide Expire, CollectableIds, SameTerms;
    ExpireLeaves(Advance(s, now), Max(s.highWater, now), id, made);
  }

  lemma ReloadLeaves(cfg: Config, s: State, now: Time, id: string, made: Offer)
    requires Stood(s, id, made) && now < made.expiresAt
    ensures Stood(Reload(cfg, s, now), id, made)
  {
  }

  // --------------------------------------------------------------------------- events

  predicate Offering(ev: Event) {
    ev.Enter? || ev.Serve? || ev.Assign? || ev.Release? || ev.Tick? || ev.SweepUp?
  }

  lemma OfferingLeaves(cfg: Config, w: World, ev: Event, id: string, made: Offer)
    requires Enabled(cfg, w, ev) && Offering(ev) && Stood(w.mem, id, made) && id in w.issued
    requires Early(w, ev, made.expiresAt) && !Releases(w, ev, id)
    ensures Stood(Apply(cfg, w, ev).mem, id, made)
  {
    hide ViewsOf, Expire, HandleRequest, BeginReplay, HandleRelease, AssignBegin, Sweep, SweepReady, CollectableIds, Evicts, Prune, SameTerms;
    match ev
    case Enter(t, now, victims, saved) => BeginLeaves(cfg, w.mem, w.threads[t].env, now, victims, saved, id, made);
    case Serve(t, now, renv) =>
      RequestLeaves(cfg, w.mem, w.threads[t].env.sender, w.threads[t].env.payload.request, now, renv, id, made);
    case Assign(t, now, placed, saved) =>
      var e := w.threads[t].env;
      AssignLeaves(cfg, w.mem, e, e.payload.requestId, e.payload.offerId, e.payload.executionId, now, placed, saved, id, made);
    case Release(t, now, saved) =>
      var e := w.threads[t].env;
      ReleaseLeaves(w.mem, e, e.payload.requestId, e.payload.offerId, now, saved, id, made);
    case Tick(now, saved) => ExpireLeaves(w.mem, now, id, made);
    case SweepUp(now, saved) => SweepLeaves(cfg, w.mem, now, id, made);
  }

  /** The sections on executions leave every offer alone. */
  lemma EndOffers(cfg: Config, s: State, x: string, startErr: Option<string>, reason: string, wasPhase: Phase, wasDetail: string, stopped: bool, now: Time)
    ensures x in s.executions ==> AssignEnd(cfg, s, x, startErr, now).offers == s.offers
    ensures x in s.executions ==> CancelEnd(cfg, s, x, reason, wasPhase, wasDetail, stopped, now).offers == s.offers
    ensures EvictEnd(cfg, s, x, wasPhase, wasDetail, stopped, now).offers == s.offers
  {
    hide Ended, Touch;
  }

  lemma BridgeOffers(cfg: Config, s: State, c: Completion, saved: bool, x: string, outcome: RuntimeOutcome, checked: Time, now: Time)
    ensures RuntimeCompleted(cfg, s, c, now, saved).0.offers == s.offers
    ensures x in s.executions ==> RecoverVisit(cfg, s, x, outcome, checked, now).offers == s.offers
  {
    hide Ended, Touch, LeaseLapsed, CompletionPhase, CompletionDetail;
  }

  predicate Bridging(ev: Event) {
    ev.Started? || ev.Stopped? || ev.Complete? || ev.Recover?
  }

  lemma BridgingOffers(cfg: Config, w: World, ev: Event)
    requires Enabled(cfg, w, ev) && Bridging(ev)
    ensures Apply(cfg, w, ev).mem.offers == w.mem.offers
  {
    hide ViewsOf, AssignEnd, CancelEnd, EvictEnd, RuntimeCompleted, RecoverVisit;
    match ev
    case Started(t, startErr, now, saved) => EndOffers(cfg, w.mem, w.threads[t].x, startErr, "", Starting, "", false, now);
    case Stopped(t, stopped, now, saved) =>
      var th := w.threads[t];
      EndOffers(cfg, w.mem, th.x, None, if th.Stopping? then th.reason else "", th.wasPhase, th.wasDetail, stopped, now);
    case Complete(c, now, saved) => BridgeOffers(cfg, w.mem, c, saved, "", Broken, now, now);
    case Recover(x, outcome, checked, now, saved) => BridgeOffers(cfg, w.mem, Completion("", "", None, None), saved, x, outcome, checked, now);
  }

  lemma CommandOffers(s: State, e: Envelope, x: string, reason: string, duration: int, now: Time, saved: bool)
    ensures CancelBegin(s, e, x, reason, now, saved).0.offers == s.offers
    ensures HandleRenew(s, e, x, duration, now, saved).0.offers == s.offers
  {
    hide Touch;
  }

  lemma OtherOffers(cfg: Config, w: World, ev: Event)
    requires Enabled(cfg, w, ev) && !Offering(ev) && !Bridging(ev) && !ev.Crash?
    ensures Apply(cfg, w, ev).mem.offers == w.mem.offers
  {
    hide ViewsOf, Touch, Freshness, Evicts, Prune, HandleRead, LeaseLapsed, CancelBegin, HandleRenew;
    match ev
    case Cancel(t, now, saved) =>
      var e := w.threads[t].env;
      CommandOffers(w.mem, e, e.payload.executionId, e.payload.reason, 0, now, saved);
    case Renew(t, now, saved) =>
      var e := w.threads[t].env;
      CommandOffers(w.mem, e, e.payload.executionId, "", e.payload.duration, now, saved);
    case _ =>
  }

  /** The disk keeps what it had or gets what memory has. */
  predicate DiskKeeps(w: World, w': World, crashed: bool) {
    (w'.disk == w.disk || (!crashed && w'.disk == w'.mem)) && w.issued <= w'.issued
  }

  lemma HandlersKeep(cfg: Config, w: World, ev: Event)
    requires Enabled(cfg, w, ev) && (ev.Serve? || ev.Assign? || ev.Started? || ev.Cancel? || ev.Stopped? || ev.Enter? || ev.Arrive?)
    ensures DiskKeeps(w, Apply(cfg, w, ev), ev.Crash?)
  {
    hide AssignBegin, AssignEnd, CancelBegin, CancelEnd, EvictEnd, HandleRequest, BeginReplay, ViewsOf, Freshness, Evicts, Prune;
  }

  lemma DiskFollows(cfg: Config, w: World, ev: Event)
    requires Enabled(cfg, w, ev)
    ensures DiskKeeps(w, Apply(cfg, w, ev), ev.Crash?)
  {
    if ev.Serve? || ev.Assign? || ev.Started? || ev.Cancel? || ev.Stopped? || ev.Enter? || ev.Arrive? {
      HandlersKeep(cfg, w, ev);
    } else {
      hide Expire, EvictBegin, HandleRelease, HandleRenew, RuntimeCompleted, RecoverVisit, HandleRead, ViewsOf, CleanedUp, Sweep, SweepReady,
           Reload, CollectableIds, FinishReplay, Entering, Serving, StartReturned, CancelBegins, StopReturned, Arriving, Assigning;
    }
  }

  lemma CrashLeaves(cfg: Config, w: World, now: Time, id: string, made: Offer)
    requires Stood(w.disk, id, made) && now < made.expiresAt
    ensures Stood(Restarting(cfg, w, now).mem, id, made)
  {
    hide Reload, ViewsOf, SameTerms;
    ReloadLeaves(cfg, w.disk, now, id, made);
  }

  /** In memory and on disk the offer stands, or is gone. */
  predicate Standing(w: World, id: string, made: Offer) {
    Stood(w.mem, id, made) && Stood(w.disk, id, made) && id in w.issued
  }

  lemma OfferStep(cfg: Config, w: World, ev: Event, id: string, made: Offer)
    requires Enabled(cfg, w, ev) && Standing(w, id, made) && Early(w, ev, made.expiresAt) && !Releases(w, ev, id)
    ensures Standing(Apply(cfg, w, ev), id, made)
  {
    hide Enabled, Restarting, SameTerms, Releases;
    if ev.Crash? {
      CrashLeaves(cfg, w, ev.now, id, made);
      DiskFollows(cfg, w, ev);
    } else {
      hide Apply;
      DiskFollows(cfg, w, ev);
      if Offering(ev) {
        OfferingLeaves(cfg, w, ev, id, made);
      } else if Bridging(ev) {
        BridgingOffers(cfg, w, ev);
      } else {
        OtherOffers(cfg, w, ev);
      }
    }
  }

  lemma {:induction false} OfferStays(cfg: Config, worlds: seq<World>, events: seq<Event>, i: nat, j: nat, id: string, made: Offer)
    requires Run(cfg, worlds, events) && i <= j < |worlds| && Standing(worlds[i], id, made)
    requires forall k | i <= k < j :: Early(worlds[k], events[k], made.expiresAt) && !Releases(worlds[k], events[k], id)
    ensures Standing(worlds[j], id, made)
    decreases j
  {
    hide Enabled, Apply, Standing, Early, Releases;
    if i < j {
      OfferStays(cfg, worlds, events, i, j - 1, id, made);
      assert Early(worlds[j - 1], events[j - 1], made.expiresAt) && !Releases(worlds[j - 1], events[j - 1], id);
      OfferStep(cfg, worlds[j - 1], events[j - 1], id, made);
      assert worlds[j - 1 + 1] == Apply(cfg, worlds[j - 1], events[j - 1]);
    }
  }

  // ------------------------------------------------------------------------- theorems

  /** The event makes the offer `id` for the request of its command. */
  predicate Makes(w: World, ev: Event, w': World, id: string) {
    ev.Serve? && ev.renv.newId == id && id !in w.mem.offers && id in w'.mem.offers
  }

  /** The event asks for `q` in the name of `client`. */
  predicate Asks(w: World, ev: Event, client: Identity, q: Request) {
    && ev.Serve? && ev.t in w.threads && w.threads[ev.t].Begun?
    && w.threads[ev.t].env.sender == client && w.threads[ev.t].env.payload == ExecutionRequest(q)
  }

  predicate Answered(w: World, t: nat, reply: Reply) {
    t in w.threads && w.threads[t].Replying? && w.threads[t].reply == reply
  }

  lemma MintIs(cfg: Config, s: State, client: Identity, q: Request, now: Time, env: RequestEnv)
    requires env.newId !in s.offers && env.newId in HandleRequest(cfg, s, client, q, now, env).0.offers
    ensures var r := HandleRequest(cfg, s, client, q, now, env); var o := r.0.offers[env.newId];
      && env.saved && o.client == client && o.request == q && o.status == Outstanding && o.requestId == q.requestId
      && r.1 == OfferReply(env.newId, o)
  {
    hide Expire, RequestRefusal;
    ExpireFrame(s, now);
    ExpireKeys(s, now);
  }

  lemma ExpireKeys(s: State, now: Time)
    ensures Expire(s, now).offers.Keys == s.offers.Keys
  {
  }

  lemma MadeAs(cfg: Config, w: World, ev: Event, id: string)
    requires Enabled(cfg, w, ev) && Makes(w, ev, Apply(cfg, w, ev), id)
    ensures var w' := Apply(cfg, w, ev); var o := w'.mem.offers[id];
      && Standing(w', id, o) && Asks(w, ev, o.client, o.request) && Answered(w', ev.t, OfferReply(id, o))
  {
    hide HandleRequest, ViewsOf;
    var e := w.threads[ev.t].env;
    MintIs(cfg, w.mem, e.sender, e.payload.request, ev.now, ev.renv);
  }

  lemma GivenAgain(cfg: Config, w: World, ev: Event, id: string, made: Offer)
    requires Inv(cfg, w.mem) && Enabled(cfg, w, ev) && id in w.mem.offers && SameTerms(w.mem.offers[id], made)
    requires Asks(w, ev, made.client, made.request) && ev.now < made.expiresAt
    ensures var w' := Apply(cfg, w, ev); w'.mem == Expire(w.mem, ev.now) && Answered(w', ev.t, OfferReply(id, made))
  {
    hide Inv, HandleRequest, Expire, ViewsOf, CommandMeaning.Stands;
    IndexedAt(cfg, w.mem, id);
    IsStanding(w.mem, made.client, made.request, id, made);
    Reoffers(cfg, w.mem, made.client, made.request, ev.now, ev.renv, id);
  }

  lemma IsStanding(s: State, client: Identity, q: Request, id: string, made: Offer)
    requires id in s.offers && SameTerms(s.offers[id], made) && client == made.client && q == made.request
    requires KeyOf(s.offers[id]) in s.requests && s.requests[KeyOf(s.offers[id])] == id && made.requestId == q.requestId
    ensures CommandMeaning.Stands(s, client, q, id)
  {
  }

  lemma IndexedAt(cfg: Config, s: State, id: string)
    requires Inv(cfg, s) && id in s.offers
    ensures KeyOf(s.offers[id]) in s.requests && s.requests[KeyOf(s.offers[id])] == id
    ensures s.offers[id].requestId == s.offers[id].request.requestId
  {
    hide Paired, Shaped, LedgerExact, QuotasKept, ReplaySound, Budgeted, WithinLimits;
  }

  /** Once an offer has been made, asking for the same work again gives that very offer and takes nothing more, over
      any run with crashes and failed saves, as long as it is on record, its time has not come and it is not released. */
  lemma SameOfferAgain(cfg: Config, worlds: seq<World>, events: seq<Event>, i: nat, j: nat, id: string)
    requires ValidConfig(cfg) && Run(cfg, worlds, events) && i < j < |events| && Makes(worlds[i], events[i], worlds[i + 1], id)
    requires id in worlds[j].mem.offers
    requires var made := worlds[i + 1].mem.offers[id];
      && Asks(worlds[j], events[j], made.client, made.request) && Early(worlds[j], events[j], made.expiresAt)
      && forall k | i < k < j :: Early(worlds[k], events[k], made.expiresAt) && !Releases(worlds[k], events[k], id)
    ensures worlds[j + 1].mem == Expire(worlds[j].mem, events[j].now)
    ensures Answered(worlds[i + 1], events[i].t, OfferReply(id, worlds[i + 1].mem.offers[id]))
    ensures Answered(worlds[j + 1], events[j].t, OfferReply(id, worlds[i + 1].mem.offers[id]))
  {
    hide Enabled, Apply, Inv, WorldInv, Expire, Asks, Releases, Answered, SameTerms;
    var made := worlds[i + 1].mem.offers[id];
    assert Enabled(cfg, worlds[i], events[i]) && worlds[i + 1] == Apply(cfg, worlds[i], events[i]);
    MadeAs(cfg, worlds[i], events[i], id);
    OfferStays(cfg, worlds, events, i + 1, j, id, made);
    RunInv(cfg, worlds, events, j);
    InvOf(cfg, worlds[j]);
    assert Enabled(cfg, worlds[j], events[j]) && worlds[j + 1] == Apply(cfg, worlds[j], events[j]);
    AsksServes(worlds[j], events[j], made.client, made.request);
    GivenAgain(cfg, worlds[j], events[j], id, made);
  }

  lemma AsksServes(w: World, ev: Event, client: Identity, q: Request)
    requires Asks(w, ev, client, q)
    ensures ev.Serve?
  {
  }

  /** The event assigns offer `o` in the name of its owner. */
  predicate AssignsOwn(w: World, ev: Event, o: string) {
    && ev.Assign? && ev.t in w.threads && w.threads[ev.t].Begun? && w.threads[ev.t].env.payload.ExecutionAssign?
    && w.threads[ev.t].env.payload.offerId == o && o in w.mem.offers
    && KeyOf(w.mem.offers[o]) == (w.threads[ev.t].env.sender, w.threads[ev.t].env.payload.requestId)
  }

  /** Once an offer has been launched, at any later time of any run and as long as it is on record, assigning it again
      launches nothing: the execution it was assigned to is shown as it now stands, any other is refused. */
  lemma AssignedAgain(cfg: Config, w: World, ev: Event, i: nat)
    requires Reachable(cfg, w) && Enabled(cfg, w, ev) && i < |w.launches| && AssignsOwn(w, ev, w.launches[i].offerId)
    ensures var w', o := Apply(cfg, w, ev), w.mem.offers[w.launches[i].offerId];
      && w'.launches == w.launches && o.execution in w.mem.executions
      && Answered(w', ev.t, if w.threads[ev.t].env.payload.executionId == o.execution
                            then Answer(StateResponse(ViewOf(o.execution, w.mem.executions[o.execution]))) else Fail(OfferAlreadyAssigned))
  {
    hide Reachable, WorldInv, Inv, AssignBegin, ViewsOf;
    StartedAtMostOnce(cfg, w);
    ReachableInv(cfg, w);
    InvOf(cfg, w);
    var e := w.threads[ev.t].env;
    AssignedNeverLaunches(cfg, w.mem, e, e.payload.requestId, e.payload.offerId, e.payload.executionId, ev.now, ev.placed, ev.saved);
  }
}
