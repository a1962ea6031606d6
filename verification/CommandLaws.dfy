/** What each command does and answers, event by event, said in the fields of the
    records: when an offer is made and on what terms, when work starts and what its
    record and lease are, and exactly which sender may change what. The words of
    this module are its own; nothing here is defined by the sections it judges. */
module CommandLaws {
  import opened Protocol
  import opened AllocatorState
  import opened AllocatorInvariant
  import opened AllocatorRuns
  import opened WorldInvariant
  import opened WorldSteps

  // ------------------------------------------------------------------------------ terms

  predicate Over(p: Phase) {
    p == Phase.Cancelled || p == Phase.Completed || p == Phase.Failed
  }

  function Later(a: Time, b: Time): Time {
    if a >= b then a else b
  }

  function Refusal(err: Error): Reply {
    Reply([CommandError(err)], Some(err))
  }

  function Giving(response: Response): Reply {
    Reply([response], None)
  }

  /** What a client is shown of a record. */
  function Shows(x: string, r: Execution): Response {
    StateResponse(View(x, r.phase, r.detail, r.exitCode, r.occurredAt, r.revision))
  }

  /** An outstanding offer is expired from the moment its time comes. */
  function StatusAt(o: Offer, now: Time): OfferStatus {
    if o.status == OfferStatus.Outstanding && o.expiresAt <= now then OfferStatus.Expired else o.status
  }

  function At(o: Offer, now: Time): Offer {
    Offer(o.requestId, o.resourceClass, o.expiresAt, o.request, o.client, StatusAt(o, now), o.execution)
  }

  /** The offers but those in `touched`, as time alone leaves them. */
  predicate AgedBut(was: map<string, Offer>, m: map<string, Offer>, now: Time, touched: set<string>) {
    && (forall id | id in was && id !in touched :: id in m && m[id] == At(was[id], now))
    && (forall id | id in m && id !in touched :: id in was)
  }

  /** Nothing changed but that offers expired. */
  predicate OnlyTime(s: State, t: State, now: Time) {
    && AgedBut(s.offers, t.offers, now, {}) && t.requests == s.requests && t.executions == s.executions
    && t.replay == s.replay && t.tombstones == s.tombstones && t.highWater == s.highWater
  }

  predicate Says(w: World, t: nat, e: Envelope, reply: Reply) {
    t in w.threads && w.threads[t] == Replying(e, reply)
  }

  predicate Buried(s: State, client: Identity, requestId: string) {
    exists id | id in s.tombstones :: s.tombstones[id].client == client && s.tombstones[id].requestId == requestId
  }

  predicate Barred(cfg: Config, client: Identity) {
    cfg.allowed.Some? && client !in cfg.allowed.value
  }

  /** The quota a client has to itself: its own if one is configured, else the default; zero is no limit. */
  function OwnQuota(cfg: Config, client: Identity): Quota {
    if client in cfg.clientQuotas then cfg.clientQuotas[client] else cfg.defaultQuota
  }

  function OpenOffers(offers: map<string, Offer>, client: Identity, now: Time): set<string> {
    set id | id in offers && offers[id].client == client && offers[id].status == OfferStatus.Outstanding && offers[id].expiresAt > now
  }

  function LiveWork(executions: map<string, Execution>, client: Identity): set<string> {
    set x | x in executions && executions[x].client == client && !Over(executions[x].phase)
  }

  /** The offers of a class that keep a slot: open ones, and those whose work has not ended. */
  function SlotsTaken(s: State, c: string, now: Time): set<string> {
    set id | id in s.offers && s.offers[id].resourceClass == c && TakesSlot(s, s.offers[id], now)
  }

  predicate TakesSlot(s: State, o: Offer, now: Time) {
    || (o.status == OfferStatus.Outstanding && o.expiresAt > now)
    || (o.status == OfferStatus.Assigned && o.execution in s.executions && !Over(s.executions[o.execution].phase))
  }

  predicate HasSlot(cfg: Config, s: State, c: string, now: Time) {
    c in cfg.limits && |SlotsTaken(s, c, now)| < cfg.limits[c]
  }

  // --------------------------------------------------------------------------- requests

  /** The first reason there is not to make an offer for a request that has none. */
  function WhyNoOffer(cfg: Config, s: State, client: Identity, q: Request, now: Time, renv: RequestEnv): Option<Error> {
    var quota := OwnQuota(cfg, client).offers;
    if Buried(s, client, q.requestId) then Some(ResultExpired)
    else if 2 * |s.offers| + |s.tombstones| + 2 > cfg.maxRecords then Some(CapacityExhausted)
    else if Barred(cfg, client) then Some(AdmissionDenied)
    else if quota != 0 && |OpenOffers(s.offers, client, now)| >= quota then Some(CapacityExhausted)
    else if !HasSlot(cfg, s, q.resourceClass, now) then Some(CapacityExhausted)
    else if !renv.placed then Some(Incompatible)
    else if !renv.profiled then Some(AdmissionDenied)
    else if renv.newId == "" then Some(InvalidConfig)
    else if renv.newId in s.offers then Some(IDCollision)
    else if !renv.saved then Some(StoreFailure)
    else None
  }

  /** What a request already has, if it has anything. */
  function Standing(id: string, o: Offer, q: Request, now: Time): Reply {
    if StatusAt(o, now) == OfferStatus.Expired then Refusal(OfferExpired)
    else if o.request != q then Refusal(ExecutionConflict)
    else if o.status == OfferStatus.Released then Refusal(OfferReleased)
    else Giving(OfferResponse(id, q.requestId, o.resourceClass, o.expiresAt))
  }

  predicate Made(s: State, t: State, client: Identity, q: Request, id: string, until: Time, now: Time) {
    && AgedBut(s.offers, t.offers, now, {id}) && id in t.offers
    && t.offers[id] == Offer(q.requestId, q.resourceClass, until, q, client, OfferStatus.Outstanding, "")
    && t.requests == s.requests[(client, q.requestId) := id]
    && t.executions == s.executions && t.replay == s.replay && t.tombstones == s.tombstones && t.highWater == s.highWater
  }

  ghost predicate RequestRule(cfg: Config, s: State, t: State, reply: Reply, client: Identity, q: Request, now: Time, renv: RequestEnv) {
    var k := (client, q.requestId);
    if k in s.requests then
      s.requests[k] in s.offers && OnlyTime(s, t, now) && reply == Standing(s.requests[k], s.offers[s.requests[k]], q, now)
    else
      var why := WhyNoOffer(cfg, s, client, q, now, renv);
      if why.Some? then OnlyTime(s, t, now) && reply == Refusal(why.value)
      else Made(s, t, client, q, renv.newId, now + cfg.offerTTL, now)
           && reply == Giving(OfferResponse(renv.newId, q.requestId, q.resourceClass, now + cfg.offerTTL))
  }

  lemma ExpireIs(s: State, now: Time)
    ensures OnlyTime(s, Expire(s, now), now) && |Expire(s, now).offers| == |s.offers|
    ensures forall id | id in s.offers :: id in Expire(s, now).offers && Expire(s, now).offers[id] == At(s.offers[id], now)
  {
    assert Expire(s, now).offers.Keys == s.offers.Keys;
  }

  lemma OverIs(p: Phase)
    ensures Over(p) <==> Terminal(p)
  {
  }

  lemma QuotaCounts(cfg: Config, s: State, client: Identity, now: Time)
    ensures OutstandingOf(Expire(s, now).offers, client) == OpenOffers(s.offers, client, now)
    ensures LiveOf(s.executions, client) == LiveWork(s.executions, client)
    ensures QuotaOf(cfg, client) == OwnQuota(cfg, client)
  {
    hide Expire;
    ExpireIs(s, now);
  }

  lemma SlotCounts(cfg: Config, s: State, c: string, now: Time)
    requires Inv(cfg, s)
    ensures Available(cfg, Expire(s, now).used, c) == 0 <==> !HasSlot(cfg, s, c, now)
  {
    hide Inv, Expire, SlotsTaken, OfClass, HoldingIds;
    ExpireInv(cfg, s, now);
    CountIs(cfg, Expire(s, now), c);
    ExpireIs(s, now);
    SlotsAre(cfg, s, Expire(s, now), c, now);
  }

  lemma CountIs(cfg: Config, t: State, c: string)
    requires Inv(cfg, t)
    ensures t.used[c] == |OfClass(t.offers, HoldingIds(t.offers, t.executions), c)|
  {
    hide Offered, Indexed, Paired, Shaped, WithinLimits, Budgeted, QuotasKept, ReplaySound;
  }

  lemma SlotsAre(cfg: Config, s: State, t: State, c: string, now: Time)
    requires Inv(cfg, s) && OnlyTime(s, t, now) && t.offers.Keys == s.offers.Keys
    ensures OfClass(t.offers, HoldingIds(t.offers, t.executions), c) == SlotsTaken(s, c, now)
  {
    hide Offered, Indexed, LedgerExact, WithinLimits, Budgeted, QuotasKept, ReplaySound;
    forall id | id in s.offers ensures Holds(t.offers[id], t.executions) <==> TakesSlot(s, s.offers[id], now) {
      assert t.offers[id] == At(s.offers[id], now);
      if s.offers[id].execution in s.executions { assert ExecutionShape(s.offers[id].execution, s.executions[s.offers[id].execution]); }
    }
  }

  lemma RefusalIs(cfg: Config, s: State, client: Identity, q: Request, now: Time, renv: RequestEnv)
    requires Inv(cfg, s)
    ensures var r := RequestRefusal(cfg, Expire(s, now), client, q, renv); var why := WhyNoOffer(cfg, s, client, q, now, renv);
      if r.Some? then why == r else why == if renv.saved then None else Some(StoreFailure)
  {
    hide Inv, Expire, HasSlot, OpenOffers, OutstandingOf, LiveOf, Available, QuotaOf, OwnQuota;
    ExpireIs(s, now);
    QuotaCounts(cfg, s, client, now);
    SlotCounts(cfg, s, q.resourceClass, now);
  }

  lemma IndexAt(cfg: Config, s: State, k: RequestKey)
    requires Inv(cfg, s) && k in s.requests
    ensures s.requests[k] in s.offers && s.offers[s.requests[k]].requestId == k.1 && s.offers[s.requests[k]].client == k.0
  {
    hide Offered, Paired, Shaped, LedgerExact, WithinLimits, Budgeted, QuotasKept, ReplaySound;
  }

  lemma RequestIs(cfg: Config, s: State, client: Identity, q: Request, now: Time, renv: RequestEnv)
    requires Inv(cfg, s)
    ensures var r := HandleRequest(cfg, s, client, q, now, renv); RequestRule(cfg, s, r.0, r.1, client, q, now, renv)
  {
    hide Inv, Expire, RequestRefusal, WhyNoOffer, AgedBut;
    ExpireIs(s, now);
    RefusalIs(cfg, s, client, q, now, renv);
    if (client, q.requestId) in s.requests {
      IndexAt(cfg, s, (client, q.requestId));
    } else {
      OneMade(s.offers, Expire(s, now).offers, now, renv.newId, NewOffer(cfg, client, q, now));
    }
  }

  lemma OneMade(was: map<string, Offer>, m: map<string, Offer>, now: Time, id: string, o: Offer)
    requires AgedBut(was, m, now, {})
    ensures AgedBut(was, m[id := o], now, {id})
  {
  }

  /** A request is answered with the offer it has, or with a new one if and only if nothing stands against it: the
      record budget, the client's standing and its own quota, a free slot of the class, placement, profile and the save;
      the new offer is the client's, for that request and class, open until the offer lifetime has passed. */
  lemma RequestLaw(cfg: Config, w: World, ev: Event)
    requires WorldInv(cfg, w) && Enabled(cfg, w, ev) && ev.Serve?
    ensures var e, w' := w.threads[ev.t].env, Apply(cfg, w, ev);
      && ev.t in w'.threads && w'.threads[ev.t].Replying? && w'.threads[ev.t].env == e && w'.launches == w.launches
      && RequestRule(cfg, w.mem, w'.mem, w'.threads[ev.t].reply, e.sender, e.payload.request, ev.now, ev.renv)
      && w'.disk == if ev.renv.saved then w'.mem else w.disk
  {
    hide WorldInv, Inv, HandleRequest, RequestRule, ViewsOf;
    InvOf(cfg, w);
    RequestIs(cfg, w.mem, w.threads[ev.t].env.sender, w.threads[ev.t].env.payload.request, ev.now, ev.renv);
  }

  // ------------------------------------------------------------------------ assignments

  /** The answer to an assignment that starts nothing. */
  function WhyNoLaunch(cfg: Config, s: State, e: Envelope, p: Payload, now: Time, placed: bool, saved: bool): Option<Reply>
    requires p.ExecutionAssign?
  {
    if p.offerId !in s.offers then Some(Refusal(OfferNotFound)) else
    var o, quota := s.offers[p.offerId], OwnQuota(cfg, e.sender).executions;
    if o.client != e.sender then Some(Refusal(Unauthorized))
    else if o.requestId != p.requestId then Some(Refusal(ExecutionConflict))
    else if o.status == OfferStatus.Released then Some(Refusal(OfferReleased))
    else if StatusAt(o, now) == OfferStatus.Expired then Some(Refusal(OfferExpired))
    else if o.status == OfferStatus.Assigned then
      if o.execution == p.executionId && p.executionId in s.executions then Some(Giving(Shows(p.executionId, s.executions[p.executionId])))
      else Some(Refusal(OfferAlreadyAssigned))
    else if p.executionId in s.executions then Some(Refusal(ExecutionConflict))
    else if !placed then Some(Refusal(Incompatible))
    else if Barred(cfg, e.sender) then Some(Refusal(AdmissionDenied))
    else if quota != 0 && |LiveWork(s.executions, e.sender)| >= quota then Some(Refusal(CapacityExhausted))
    else if !saved then Some(Refusal(StoreFailure))
    else None
  }

  /** A new record: starting, at its first revision, leased for the configured time from now. */
  function NewRecord(offerId: string, o: Offer, now: Time, leaseUntil: Time): Execution {
    Execution(offerId, o.client, o.resourceClass, o.request, Phase.Starting, "", None, now, now, false, UNSET, leaseUntil, 1)
  }

  predicate Launches(s: State, t: State, o: string, x: string, now: Time, leaseUntil: Time) {
    && o in s.offers && o in t.offers && AgedBut(s.offers, t.offers, now, {o})
    && t.offers[o] == s.offers[o].(status := OfferStatus.Assigned, execution := x)
    && x !in s.executions && t.executions == s.executions[x := NewRecord(o, s.offers[o], now, leaseUntil)]
    && t.requests == s.requests && t.replay == s.replay && t.tombstones == s.tombstones && t.highWater == s.highWater
  }

  ghost predicate AssignRule(cfg: Config, s: State, t: State, a: Assignment, e: Envelope, now: Time, placed: bool, saved: bool)
    requires e.payload.ExecutionAssign?
  {
    var p, why := e.payload, WhyNoLaunch(cfg, s, e, e.payload, now, placed, saved);
    if why.Some? then OnlyTime(s, t, now) && a == Settled(why.value)
    else a.Launch? && Launches(s, t, p.offerId, p.executionId, now, now + cfg.leaseTTL)
  }

  lemma LaunchRefusalIs(cfg: Config, s: State, e: Envelope, now: Time, placed: bool, saved: bool)
    requires Inv(cfg, s) && e.payload.ExecutionAssign?
    ensures var p := e.payload; var r := AssignRefusal(cfg, Expire(s, now), e, p.requestId, p.offerId, p.executionId, placed);
      var why := WhyNoLaunch(cfg, s, e, p, now, placed, saved);
      if r.Some? then why == r
      else && why == (if saved then None else Some(Refusal(StoreFailure)))
           && p.offerId in s.offers && At(s.offers[p.offerId], now) == s.offers[p.offerId] && p.executionId !in s.executions
  {
    hide Inv, Expire, LiveOf, LiveWork, OutstandingOf, OpenOffers, QuotaOf, OwnQuota;
    ExpireIs(s, now);
    QuotaCounts(cfg, s, e.sender, now);
    LinkedAt(cfg, s, e.payload.offerId, e.payload.executionId);
  }

  lemma AssignIs(cfg: Config, s: State, e: Envelope, now: Time, placed: bool, saved: bool)
    requires Inv(cfg, s) && e.payload.ExecutionAssign?
    ensures var p := e.payload; var r := AssignBegin(cfg, s, e, p.requestId, p.offerId, p.executionId, now, placed, saved);
      AssignRule(cfg, s, r.0, r.1, e, now, placed, saved)
  {
    hide Inv, Expire, AssignRefusal, WhyNoLaunch, At;
    ExpireIs(s, now);
    LaunchRefusalIs(cfg, s, e, now, placed, saved);
  }

  /** What the invariant says of an offer and an execution an assignment names. */
  lemma LinkedAt(cfg: Config, s: State, o: string, x: string)
    requires Inv(cfg, s)
    ensures o in s.offers && s.offers[o].status == OfferStatus.Assigned ==> s.offers[o].execution in s.executions
    ensures x in s.executions && s.executions[x].offerId == o ==> o in s.offers && s.offers[o].status == OfferStatus.Assigned
  {
    hide Offered, Indexed, Shaped, LedgerExact, WithinLimits, Budgeted, QuotasKept, ReplaySound;
  }

  /** Work starts if and only if its offer is on record, the sender's own, for that request and open, the execution ID is
      new, the node still fits, the client is admitted within its own quota and the save commits; its record is then the
      offer's work, starting, under a lease of exactly the configured time. */
  lemma AssignLaw(cfg: Config, w: World, ev: Event)
    requires WorldInv(cfg, w) && Enabled(cfg, w, ev) && ev.Assign?
    ensures var e, w' := w.threads[ev.t].env, Apply(cfg, w, ev); var p := e.payload;
      var why := WhyNoLaunch(cfg, w.mem, e, p, ev.now, ev.placed, ev.saved);
      && w'.disk == (if ev.saved then w'.mem else w.disk)
      && (why.Some? ==> OnlyTime(w.mem, w'.mem, ev.now) && Says(w', ev.t, e, why.value) && w'.launches == w.launches)
      && (why.None? ==>
            && Launches(w.mem, w'.mem, p.offerId, p.executionId, ev.now, ev.now + cfg.leaseTTL)
            && ev.t in w'.threads && w'.threads[ev.t] == Launching(e, p.executionId)
            && w'.launches == w.launches + [Launched(p.offerId, p.executionId, e.sender, p.requestId)])
  {
    hide WorldInv, Inv, AssignBegin, WhyNoLaunch, OnlyTime, Launches, ViewsOf;
    InvOf(cfg, w);
    AssignIs(cfg, w.mem, w.threads[ev.t].env, ev.now, ev.placed, ev.saved);
  }

  // ------------------------------------------------------------------------ one record

  /** Every record but `x` is as it was, and so is everything else but the count of slots. */
  predicate OnlyRecord(s: State, t: State, x: string) {
    && t.executions.Keys == s.executions.Keys && (forall y | y in s.executions && y != x :: t.executions[y] == s.executions[y])
    && t.offers == s.offers && t.requests == s.requests && t.replay == s.replay && t.tombstones == s.tombstones && t.highWater == s.highWater
  }

  /** The record shows another phase and detail, one revision on. */
  function Changed(r: Execution, phase: Phase, detail: string, now: Time): Execution {
    Execution(r.offerId, r.client, r.resourceClass, r.request, phase, detail, r.exitCode, now, r.startedAt,
              r.released, r.retainUntil, r.leaseUntil, r.revision + 1)
  }

  /** The record has ended: its slot is given back, and it is kept from the later of clock and high-water mark on. */
  function Closed(r: Execution, phase: Phase, detail: string, exit: Option<int>, now: Time, keptUntil: Time): Execution {
    Execution(r.offerId, r.client, r.resourceClass, r.request, phase, detail, exit, now, r.startedAt,
              true, keptUntil, r.leaseUntil, r.revision + 1)
  }

  predicate Becomes(s: State, t: State, x: string, r: Execution) {
    OnlyRecord(s, t, x) && x in t.executions && t.executions[x] == r
  }

  lemma FinishIs(cfg: Config, s: State, x: string, phase: Phase, detail: string, exit: Option<int>, now: Time)
    requires x in s.executions
    ensures Becomes(s, Finish(cfg, s, x, phase, detail, exit, now), x,
                    Closed(s.executions[x], phase, detail, exit, now, Later(now, s.highWater) + cfg.retention))
  {
    assert s.executions.Keys + {x} == s.executions.Keys;
  }

  lemma TouchIs(s: State, x: string, phase: Phase, detail: string, now: Time)
    requires x in s.executions
    ensures Becomes(s, SetExecution(s, x, Touch(s.executions[x], phase, detail, now)), x, Changed(s.executions[x], phase, detail, now))
  {
    assert s.executions.Keys + {x} == s.executions.Keys;
  }

  /** The record after the runtime's start returned. */
  function AfterStart(cfg: Config, s: State, r: Execution, startErr: Option<string>, now: Time): Execution {
    if r.phase != Phase.Starting then r
    else if startErr.None? then Changed(r, Phase.Running, r.detail, now)
    else Closed(r, Phase.Failed, startErr.value, None, now, Later(now, s.highWater) + cfg.retention)
  }

  lemma StartIs(cfg: Config, s: State, x: string, startErr: Option<string>, now: Time)
    requires x in s.executions
    ensures Becomes(s, AssignEnd(cfg, s, x, startErr, now), x, AfterStart(cfg, s, s.executions[x], startErr, now))
  {
    hide Finish, Touch, SetExecution, Closed, Changed;
    if startErr.Some? { FinishIs(cfg, s, x, Phase.Failed, startErr.value, None, now); }
    TouchIs(s, x, Phase.Running, s.executions[x].detail, now);
  }

  /** A start that returns leaves work that is still starting running, or failed with the runtime's words and its slot
      given back; work that has moved on stays as it is. The client is shown the record either way. */
  lemma StartedLaw(cfg: Config, w: World, ev: Event)
    requires WorldInv(cfg, w) && Enabled(cfg, w, ev) && ev.Started?
    ensures w.threads[ev.t].x in w.mem.executions
    ensures var th, w' := w.threads[ev.t], Apply(cfg, w, ev); var r := AfterStart(cfg, w.mem, w.mem.executions[th.x], ev.startErr, ev.now);
      && Becomes(w.mem, w'.mem, th.x, r) && w'.disk == (if ev.saved then w'.mem else w.disk) && w'.launches == w.launches
      && Says(w', ev.t, th.env, Reply([Shows(th.x, r)],
              if !ev.saved then Some(StoreFailure) else if ev.startErr.Some? then Some(RuntimeStart) else None))
  {
    hide WorldInv, AssignEnd, ViewsOf, AfterStart, OnlyRecord;
    ThreadAt(cfg, w, ev.t);
    StartIs(cfg, w.mem, w.threads[ev.t].x, ev.startErr, ev.now);
  }

  lemma ThreadAt(cfg: Config, w: World, t: nat)
    requires WorldInv(cfg, w) && t in w.threads
    ensures ThreadSound(w.mem, w.threads[t])
  {
    hide Core, ThreadSound;
  }

  // --------------------------------------------------------------------------- cancelling

  /** The answer to a cancellation that stops nothing. */
  function WhyNoStop(s: State, e: Envelope, x: string, saved: bool): Option<Reply> {
    if x !in s.executions then Some(Refusal(ExecutionNotFound)) else
    var r := s.executions[x];
    if r.client != e.sender then Some(Refusal(Unauthorized))
    else if Over(r.phase) || r.phase == Phase.Cancelling then Some(Giving(Shows(x, r)))
    else if !saved then Some(Refusal(StoreFailure))
    else None
  }

  lemma CancelIs(s: State, e: Envelope, x: string, reason: string, now: Time, saved: bool)
    ensures var r := CancelBegin(s, e, x, reason, now, saved); var why := WhyNoStop(s, e, x, saved);
      if why.Some? then r == (s, Answered(why.value))
      else x in s.executions && r.1.Halt? && Becomes(s, r.0, x, Changed(s.executions[x], Phase.Cancelling, reason, now))
  {
    hide Touch, SetExecution, Changed;
    if x in s.executions { TouchIs(s, x, Phase.Cancelling, reason, now); }
  }

  /** A stop is asked of the runtime if and only if the execution is the sender's own, neither ended nor being stopped,
      and the save commits; it is then being cancelled for the reason given. Anyone else is refused, and work that is
      over or being stopped is shown as it is. */
  lemma CancelLaw(cfg: Config, w: World, ev: Event)
    requires Enabled(cfg, w, ev) && ev.Cancel?
    ensures var e, w' := w.threads[ev.t].env, Apply(cfg, w, ev); var p := e.payload; var why := WhyNoStop(w.mem, e, p.executionId, ev.saved);
      && w'.disk == (if ev.saved then w'.mem else w.disk) && w'.launches == w.launches
      && (why.Some? ==> w'.mem == w.mem && Says(w', ev.t, e, why.value))
      && (why.None? ==> p.executionId in w.mem.executions && var r := w.mem.executions[p.executionId];
            && Becomes(w.mem, w'.mem, p.executionId, Changed(r, Phase.Cancelling, p.reason, ev.now))
            && ev.t in w'.threads && w'.threads[ev.t] == Stopping(e, p.executionId, p.reason, r.phase, r.detail))
  {
    hide CancelBegin, ViewsOf, OnlyRecord, Changed;
    CancelIs(w.mem, w.threads[ev.t].env, w.threads[ev.t].env.payload.executionId, w.threads[ev.t].env.payload.reason, ev.now, ev.saved);
  }

  /** The record after a stop returned: to a cancellation with its reason, or to an eviction with the lease marker. */
  function AfterHalt(cfg: Config, s: State, r: Execution, phase: Phase, detail: string, th: Thread, stopped: bool, now: Time): Execution
    requires th.Stopping? || th.Evicting?
  {
    if stopped then if Over(r.phase) then r else Closed(r, phase, detail, None, now, Later(now, s.highWater) + cfg.retention)
    else if r.phase == Phase.Cancelling then Changed(r, th.wasPhase, th.wasDetail, now) else r
  }

  lemma HaltIs(cfg: Config, s: State, x: string, phase: Phase, detail: string, th: Thread, stopped: bool, now: Time)
    requires x in s.executions && (th.Stopping? || th.Evicting?)
    ensures Becomes(s, if stopped then Halted(cfg, s, x, phase, detail, now) else Unhalt(s, x, th.wasPhase, th.wasDetail, now), x,
                    AfterHalt(cfg, s, s.executions[x], phase, detail, th, stopped, now))
  {
    hide Finish, Touch, SetExecution, Closed, Changed;
    FinishIs(cfg, s, x, phase, detail, None, now);
    TouchIs(s, x, th.wasPhase, th.wasDetail, now);
  }

  ghost predicate CancelStopped(cfg: Config, w: World, w': World, t: nat, stopped: bool, now: Time, saved: bool)
    requires t in w.threads && w.threads[t].Stopping?
  {
    var th := w.threads[t];
    th.x in w.mem.executions && StopAnswered(w, w', t, AfterHalt(cfg, w.mem, w.mem.executions[th.x], Phase.Cancelled, th.reason, th, stopped, now), stopped, saved)
  }

  predicate StopAnswered(w: World, w': World, t: nat, r: Execution, stopped: bool, saved: bool)
    requires t in w.threads && w.threads[t].Stopping?
  {
    var th := w.threads[t];
    && Becomes(w.mem, w'.mem, th.x, r)
    && Says(w', t, th.env, if stopped then Reply([Shows(th.x, r)], if saved then None else Some(StoreFailure)) else Refusal(RuntimeStop))
  }

  /** A stop that succeeds ends the work, cancelled with the reason given or failed with the lease marker, unless it had
      ended; one that fails puts back what was found, unless something else moved it on. */
  lemma StoppedLaw(cfg: Config, w: World, ev: Event)
    requires WorldInv(cfg, w) && Enabled(cfg, w, ev) && ev.Stopped?
    ensures var th, w' := w.threads[ev.t], Apply(cfg, w, ev);
      && w'.disk == (if ev.saved then w'.mem else w.disk) && w'.launches == w.launches
      && (th.Evicting? && th.x !in w.mem.executions ==> w'.mem == w.mem)
      && (th.Evicting? ==> w'.threads == w.threads - {ev.t})
      && (th.Evicting? && th.x in w.mem.executions ==>
            Becomes(w.mem, w'.mem, th.x, AfterHalt(cfg, w.mem, w.mem.executions[th.x], Phase.Failed, "execution lease expired", th, ev.stopped, ev.now)))
      && (th.Stopping? ==> CancelStopped(cfg, w, w', ev.t, ev.stopped, ev.now, ev.saved))
  {
    hide WorldInv, ViewsOf, Halted, Unhalt, AfterHalt, OnlyRecord;
    var th := w.threads[ev.t];
    ThreadAt(cfg, w, ev.t);
    if th.x in w.mem.executions {
      HaltIs(cfg, w.mem, th.x, if th.Evicting? then Phase.Failed else Phase.Cancelled,
             if th.Evicting? then "execution lease expired" else th.reason, th, ev.stopped, ev.now);
    }
  }

  // ------------------------------------------------------------ release, renewal, reading

  /** What a release finds: an offer on record, or what is left of a collected one. */
  function ReleaseAnswer(s: State, e: Envelope, p: Payload, now: Time, saved: bool): Reply
    requires p.ExecutionOfferRelease?
  {
    if p.offerId in s.offers then
      var o := s.offers[p.offerId];
      if o.client != e.sender then Refusal(Unauthorized)
      else if o.requestId != p.requestId then Refusal(ExecutionConflict)
      else if o.status == OfferStatus.Outstanding && !saved then Refusal(StoreFailure)
      else Giving(ReleaseAck(p.requestId, p.offerId,
             if StatusAt(o, now) == OfferStatus.Expired then OutcomeExpired
             else if o.status == OfferStatus.Assigned then OutcomeAssigned else OutcomeReleased))
    else if p.offerId in s.tombstones then
      if s.tombstones[p.offerId].client != e.sender then Refusal(Unauthorized)
      else if s.tombstones[p.offerId].requestId != p.requestId then Refusal(ExecutionConflict)
      else Giving(ReleaseAck(p.requestId, p.offerId, OutcomeExpired))
    else Refusal(OfferNotFound)
  }

  predicate Closes(s: State, e: Envelope, p: Payload, saved: bool)
    requires p.ExecutionOfferRelease?
  {
    && saved && p.offerId in s.offers && s.offers[p.offerId].client == e.sender && s.offers[p.offerId].requestId == p.requestId
    && s.offers[p.offerId].status == OfferStatus.Outstanding
  }

  /** What a release does, in full. */
  ghost predicate ReleaseRule(s: State, t: State, reply: Reply, e: Envelope, p: Payload, now: Time, saved: bool)
    requires p.ExecutionOfferRelease?
  {
    && reply == ReleaseAnswer(s, e, p, now, saved)
    && (!Closes(s, e, p, saved) ==> t == s)
    && (Closes(s, e, p, saved) ==> var o := s.offers[p.offerId];
          t == s.(offers := s.offers[p.offerId := o.(status := if o.expiresAt <= now then OfferStatus.Expired else OfferStatus.Released)], used := t.used))
  }

  lemma ReleaseIs(s: State, e: Envelope, requestId: string, offerId: string, now: Time, saved: bool)
    ensures var r := HandleRelease(s, e, requestId, offerId, now, saved); ReleaseRule(s, r.0, r.1, e, ExecutionOfferRelease(requestId, offerId), now, saved)
  {
  }

  /** An offer is closed by a release if and only if it is open, the sender's own and for that request, and the save
      commits; everyone else is refused without a trace, and the owner of a collected offer is told it expired. */
  lemma ReleaseLaw(cfg: Config, w: World, ev: Event)
    requires Enabled(cfg, w, ev) && ev.Release?
    ensures var e, w' := w.threads[ev.t].env, Apply(cfg, w, ev); var reply := ReleaseAnswer(w.mem, e, e.payload, ev.now, ev.saved);
      && Says(w', ev.t, e, reply) && ReleaseRule(w.mem, w'.mem, reply, e, e.payload, ev.now, ev.saved)
      && w'.launches == w.launches && w'.disk == (if ev.saved then w'.mem else w.disk)
  {
    hide ViewsOf, HandleRelease;
    ReleaseIs(w.mem, w.threads[ev.t].env, w.threads[ev.t].env.payload.requestId, w.threads[ev.t].env.payload.offerId, ev.now, ev.saved);
  }

  function WhyNoLease(s: State, e: Envelope, x: string, duration: int, saved: bool): Option<Error> {
    if x !in s.executions then Some(ExecutionNotFound)
    else if s.executions[x].client != e.sender then Some(Unauthorized)
    else if Over(s.executions[x].phase) || s.executions[x].phase == Phase.Cancelling then Some(InvalidTransition)
    else if duration > 604_800_000_000_000 then Some(LeaseTooLong)
    else if !saved then Some(StoreFailure)
    else None
  }

  ghost predicate RenewRule(s: State, t: State, reply: Reply, e: Envelope, x: string, duration: int, now: Time, saved: bool) {
    var why := WhyNoLease(s, e, x, duration, saved);
    if why.Some? then t == s && reply == Refusal(why.value)
    else
      && x in s.executions && t == s.(executions := s.executions[x := s.executions[x].(leaseUntil := now + duration)])
      && reply == Giving(RenewAck(x, now + duration))
  }

  lemma RenewIs(s: State, e: Envelope, x: string, duration: int, now: Time, saved: bool)
    ensures var r := HandleRenew(s, e, x, duration, now, saved); RenewRule(s, r.0, r.1, e, x, duration, now, saved)
  {
  }

  /** A lease is set if and only if the execution is the sender's own and going on, the duration is at most a week and
      the save commits; it then runs for that duration from now and nothing else changes. */
  lemma RenewLaw(cfg: Config, w: World, ev: Event)
    requires Enabled(cfg, w, ev) && ev.Renew?
    ensures var e, w' := w.threads[ev.t].env, Apply(cfg, w, ev); var p := e.payload;
      && ev.t in w'.threads && w'.threads[ev.t].Replying? && w'.threads[ev.t].env == e
      && RenewRule(w.mem, w'.mem, w'.threads[ev.t].reply, e, p.executionId, p.duration, ev.now, ev.saved)
      && w'.launches == w.launches && w'.disk == (if ev.saved then w'.mem else w.disk)
  {
    hide ViewsOf, HandleRenew;
    RenewIs(w.mem, w.threads[ev.t].env, w.threads[ev.t].env.payload.executionId, w.threads[ev.t].env.payload.duration, ev.now, ev.saved);
  }

  /** Reading changes nothing, and shows or opens only what is the sender's own. */
  lemma ReadLaw(cfg: Config, w: World, ev: Event)
    requires Enabled(cfg, w, ev) && ev.Read?
    ensures var e, w' := w.threads[ev.t].env, Apply(cfg, w, ev); var x := e.payload.executionId;
      && w'.mem == w.mem && w'.disk == w.disk && w'.launches == w.launches
      && Says(w', ev.t, e,
              if x !in w.mem.executions then Refusal(ExecutionNotFound)
              else if w.mem.executions[x].client != e.sender then Refusal(Unauthorized)
              else if e.payload.ExecutionInspect? then Giving(Shows(x, w.mem.executions[x]))
              else if Over(w.mem.executions[x].phase) then Refusal(InvalidTransition)
              else if !ev.bound then Refusal(InvalidConfig)
              else Giving(TunnelAck(x)))
  {
    hide ViewsOf;
  }
}
