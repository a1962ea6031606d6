/** What the client does with what it hears and is asked, in the fields of its
    records: which offer it takes, what it then says and to whom, and what it
    remembers. */
module ClientLaws {
  import opened Protocol
  import opened OfferOrder
  import opened ClientState

  // ------------------------------------------------------------------------------ catalog

  predicate OnlyWhite(s: string) {
    forall i | 0 <= i < |s| :: s[i] in {' ', '\t', '\n', '\r'}
  }

  /** A registration needs an identity and a destination; what it does not say stays as it was known. */
  lemma RegisterLaw(c: Client, identity: Identity, route: Route)
    ensures var (c', err) := RegisterAllocator(c, identity, route);
      if |identity| == 0 || OnlyWhite(route.destination) then c' == c && err == Some(InvalidAllocator)
      else
        && err.None? && c'.requests == c.requests && c'.executions == c.executions && c'.routes.Keys == c.routes.Keys + {identity}
        && (forall a | a in c.routes && a != identity :: c'.routes[a] == c.routes[a])
        && var r := c'.routes[identity];
        && r.destination == route.destination
        && (identity !in c.routes ==> r == route)
        && (identity in c.routes ==> var was := c.routes[identity];
              && (if route.capacity.Some? then r.capacity == route.capacity && r.hops == route.hops else r.capacity == was.capacity && r.hops == was.hops)
              && r.node == (if route.node.Some? then route.node else was.node)
              && r.edge == (if route.edge.port != 0 then route.edge else was.edge))
  {
  }

  /** A request gets a record of its own under a new ID, and nothing else. */
  lemma CreateLaw(c: Client, me: Identity, request: Request, messageId: string, now: Time)
    ensures var (c', err) := CreateRequest(c, request, messageId, now); var q := request.requestId;
      if q == "" || messageId == "" || q in c.requests then c' == c && err == Some(BadId)
      else
        && err.None? && c'.executions == c.executions && c'.routes == c.routes && c'.requests.Keys == c.requests.Keys + {q}
        && (forall k | k in c.requests :: c'.requests[k] == c.requests[k])
        && c'.requests[q] == RequestRecord(request, messageId, now, map[], "")
        && RequestEnvelope(me, c'.requests[q]) == Envelope(messageId, me, now, ExecutionRequest(request))
  {
  }

  // ------------------------------------------------------------------------------- offers

  /** A release to be sent to the allocator that made the offer, from now on. */
  predicate ReleasedNow(c: Client, o: OfferRecord, messageId: string, now: Time) {
    && o.allocatorId in c.routes && o.release == Some(ReleaseIntent(messageId, now, c.routes[o.allocatorId].destination, false))
    && messageId != "" && c.routes[o.allocatorId].destination != ""
  }

  predicate SameExecutions(c: Client, c': Client) {
    c'.executions == c.executions && c'.routes.Keys == c.routes.Keys
  }

  /** The catalog but for the newest word on the sender's node. */
  predicate Refreshes(c: Client, c': Client, sender: Identity, node: Option<Node>) {
    && c'.routes.Keys == c.routes.Keys
    && forall a | a in c.routes :: c'.routes[a] == if a == sender && node.Some? then c.routes[a].(node := node) else c.routes[a]
  }

  /** The first reason not to record an offer, given a request on record and a known sender. */
  function WhyNotRecorded(c: Client, r: RequestRecord, sender: Identity, offer: WireOffer, releaseId: string): Option<Option<ClientError>>
    requires sender in c.routes
  {
    if offer.offerId in r.offers then
      Some(if r.offers[offer.offerId].allocatorId == sender && r.offers[offer.offerId].offer == offer then None else Some(Conflict))
    else if r.executionId == "" then None
    else if r.executionId in c.executions && c.executions[r.executionId].offerId == offer.offerId && c.executions[r.executionId].allocatorId == sender
    then Some(Some(Conflict))
    else if c.routes[sender].destination == "" then Some(Some(InvalidAllocator))
    else if releaseId == "" then Some(Some(BadId))
    else None
  }

  /** An offer is recorded if and only if it answers a request of the client's, for its class, from an allocator it knows,
      and is not on record; with no release while nothing is selected, and with its release once something is. */
  lemma OfferLaw(c: Client, sender: Identity, correlation: string, offer: WireOffer, releaseId: string, now: Time)
    requires ClientInv(c)
    ensures var (c', err) := HandleOffer(c, sender, correlation, offer, releaseId, now); var q := offer.requestId;
      if q !in c.requests then c' == c && err == Some(RequestNotFound)
      else if c.requests[q].messageId != correlation || c.requests[q].request.resourceClass != offer.resourceClass then c' == c && err == Some(Conflict)
      else if sender !in c.routes then c' == c && err == Some(NotAuthorized)
      else
        && Refreshes(c, c', sender, offer.node) && c'.executions == c.executions
        && var why := WhyNotRecorded(c, c.requests[q], sender, offer, releaseId);
        if why.Some? then c'.requests == c.requests && err == why.value
        else err.None? && OfferRecorded(c, c', sender, offer, releaseId, now)
  {
    hide ClientInv, OfferRecorded;
    if offer.requestId in c.requests && sender in c.routes {
      KeyOfRequest(c, offer.requestId);
      RefreshIs(c, sender, offer.node);
      TakeIs(Refreshed(c, sender, offer.node), sender, offer, releaseId, now);
      hide TakeOffer, Refreshed;
      RecordedSame(c, Refreshed(c, sender, offer.node), TakeOffer(Refreshed(c, sender, offer.node), sender, c.requests[offer.requestId], offer, releaseId, now).0,
                   sender, offer, releaseId, now);
    }
  }

  predicate OfferRecorded(c: Client, c': Client, sender: Identity, offer: WireOffer, releaseId: string, now: Time) {
    var q := offer.requestId;
    && q in c.requests && c'.requests.Keys == c.requests.Keys && (forall k | k in c.requests && k != q :: c'.requests[k] == c.requests[k])
    && var r, r' := c.requests[q], c'.requests[q];
    && offer.offerId !in r.offers && r' == r.(offers := r'.offers) && r'.offers.Keys == r.offers.Keys + {offer.offerId}
    && (forall id | id in r.offers :: r'.offers[id] == r.offers[id])
    && var o := r'.offers[offer.offerId];
    && o.offer == offer && o.allocatorId == sender
    && if r.executionId == "" then o.release.None? else ReleasedNow(c, o, releaseId, now)
  }

  lemma KeyOfRequest(c: Client, q: string)
    requires ClientInv(c) && q in c.requests
    ensures c.requests[q].request.requestId == q
  {
    assert OffersKeyed(q, c.requests[q]);
  }

  lemma RefreshIs(c: Client, sender: Identity, node: Option<Node>)
    requires sender in c.routes
    ensures var c1 := Refreshed(c, sender, node);
      Refreshes(c, c1, sender, node) && c1.requests == c.requests && c1.executions == c.executions && c1.routes[sender].destination == c.routes[sender].destination
  {
  }

  lemma RecordedSame(c: Client, c1: Client, c': Client, sender: Identity, offer: WireOffer, releaseId: string, now: Time)
    requires c1.requests == c.requests && sender in c.routes && sender in c1.routes && c1.routes[sender].destination == c.routes[sender].destination
    ensures OfferRecorded(c1, c', sender, offer, releaseId, now) ==> OfferRecorded(c, c', sender, offer, releaseId, now)
  {
  }

  lemma TakeIs(c: Client, sender: Identity, offer: WireOffer, releaseId: string, now: Time)
    requires offer.requestId in c.requests && sender in c.routes && c.requests[offer.requestId].request.requestId == offer.requestId
    ensures var (c', err) := TakeOffer(c, sender, c.requests[offer.requestId], offer, releaseId, now);
      var why := WhyNotRecorded(c, c.requests[offer.requestId], sender, offer, releaseId);
      && c'.routes == c.routes && c'.executions == c.executions
      && if why.Some? then c'.requests == c.requests && err == why.value else err.None? && OfferRecorded(c, c', sender, offer, releaseId, now)
  {
  }

  // ---------------------------------------------------------------------------- selection

  /** The offer may be taken: its allocator is known and has a destination, its time has not come, its node fits. */
  predicate Takable(c: Client, o: OfferRecord, sel: Selection) {
    && o.allocatorId in c.routes && !OnlyWhite(c.routes[o.allocatorId].destination) && sel.now < o.offer.expiresAt
    && (if o.offer.node.Some? then o.offer.node else c.routes[o.allocatorId].node) in sel.placed
  }

  predicate AtHand(o: OfferRecord, sel: Selection) {
    o.offer.node.Some? && o.offer.node.value in sel.cached
  }

  /** The one offer is at least as good as the other, by hops, image, allocator ID and offer ID in turn. */
  ghost predicate NoWorse(c: Client, a: OfferRecord, b: OfferRecord, sel: Selection)
    requires a.allocatorId in c.routes && b.allocatorId in c.routes
  {
    var near, far := c.routes[a.allocatorId].hops, c.routes[b.allocatorId].hops;
    && near <= far
    && (near == far && AtHand(b, sel) ==> AtHand(a, sel))
    && (near == far && AtHand(a, sel) == AtHand(b, sel) ==> !EarlierAllocator(b.allocatorId, a.allocatorId))
    && (near == far && AtHand(a, sel) == AtHand(b, sel) && a.allocatorId == b.allocatorId ==> !EarlierOffer(b.offer.offerId, a.offer.offerId))
  }

  lemma TakableIs(c: Client, r: RequestRecord, sel: Selection, id: string)
    requires id in r.offers
    ensures id in EligibleIds(c, r, sel) <==> Takable(c, r.offers[id], sel)
  {
    if r.offers[id].allocatorId in c.routes { BlankIs(c.routes[r.offers[id].allocatorId].destination); }
  }

  lemma BlankIs(s: string)
    ensures Blank(s) <==> OnlyWhite(s)
  {
  }

  /** The chosen offer is one that may be taken, and no such offer is nearer, or as near with the image at hand where the
      chosen one's is not, or equal in both with an earlier allocator ID, or equal in all three with an earlier offer ID. */
  lemma ChosenMeans(c: Client, r: RequestRecord, sel: Selection, id: string)
    ensures Chosen(c, r, sel, id) <==>
      && id in r.offers && Takable(c, r.offers[id], sel)
      && forall other | other in r.offers && Takable(c, r.offers[other], sel) :: NoWorse(c, r.offers[id], r.offers[other], sel)
  {
    forall other | other in r.offers ensures other in EligibleIds(c, r, sel) <==> Takable(c, r.offers[other], sel) { TakableIs(c, r, sel, other); }
    if id in EligibleIds(c, r, sel) {
      var b := CandidateOf(c, r.offers[id], sel);
      BestMeans(b, Candidates(c, r, sel));
      hide EligibleIds, Takable, EarlierAllocator, EarlierOffer, Best;
      forall other | other in EligibleIds(c, r, sel)
        ensures other in r.offers && r.offers[other].allocatorId in c.routes
        ensures Preferred(b, CandidateOf(c, r.offers[other], sel)) <==> NoWorse(c, r.offers[id], r.offers[other], sel)
      {
        EligibleKnown(c, r, sel, other);
      }
    }
  }

  lemma EligibleKnown(c: Client, r: RequestRecord, sel: Selection, id: string)
    requires id in EligibleIds(c, r, sel)
    ensures id in r.offers && r.offers[id].allocatorId in c.routes
  {
  }

  /** Some losing offer cannot be released: its allocator has no destination, or there is no message ID for it. */
  predicate LoserStuck(c: Client, r: RequestRecord, sel: Selection, chosen: string) {
    exists id | id in r.offers && id != chosen && r.offers[id].release.None? ::
      || r.offers[id].allocatorId !in c.routes || c.routes[r.offers[id].allocatorId].destination == ""
      || id !in sel.releaseIds || sel.releaseIds[id] == ""
  }

  /** The selection in one go: the execution under its new ID, the chosen offer kept, every other one released. */
  predicate Selected(c: Client, c': Client, q: string, sel: Selection, chosen: string) {
    && q in c.requests && chosen in c.requests[q].offers && c.requests[q].offers[chosen].allocatorId in c.routes && sel.executionId !in c.executions
    && c'.routes == c.routes && c'.requests.Keys == c.requests.Keys && (forall k | k in c.requests && k != q :: c'.requests[k] == c.requests[k])
    && var r, r', a := c.requests[q], c'.requests[q], c.requests[q].offers[chosen].allocatorId;
    && r' == r.(offers := r'.offers, executionId := sel.executionId) && r'.offers.Keys == r.offers.Keys
    && (forall id | id in r.offers :: Keeps(c, r.offers[id], r'.offers[id], sel, id, chosen))
    && c'.executions == c.executions[sel.executionId :=
         ExecutionRecord(q, chosen, a, c.routes[a].destination, sel.messageId, sel.now, None, false)]
  }

  predicate Keeps(c: Client, o: OfferRecord, o': OfferRecord, sel: Selection, id: string, chosen: string) {
    if id == chosen || o.release.Some? then o' == o
    else id in sel.releaseIds && o' == o.(release := o'.release) && ReleasedNow(c, o', sel.releaseIds[id], sel.now)
  }

  lemma SettledIs(c: Client, r: RequestRecord, sel: Selection, chosen: string)
    requires (forall id | id in r.offers :: r.offers[id].offer.offerId == id) && !LoserStuck(c, r, sel, chosen)
    ensures Settled(c, r, sel, chosen).Keys == r.offers.Keys
    ensures forall id | id in r.offers :: Keeps(c, r.offers[id], Settled(c, r, sel, chosen)[id], sel, id, chosen)
  {
  }

  lemma StuckIs(c: Client, r: RequestRecord, sel: Selection, chosen: string)
    ensures Releasable(c, r, sel, chosen) <==> !LoserStuck(c, r, sel, chosen)
  {
  }

  /** A selection made before is said again, word for word; otherwise it is made if and only if some offer may be taken,
      the new IDs are good and every loser can be released, and refused without a trace if not. */
  lemma SelectLaw(c: Client, me: Identity, q: string, sel: Selection, chosen: string)
    requires ClientInv(c)
    requires q in c.requests && EligibleIds(c, c.requests[q], sel) != {} ==> Chosen(c, c.requests[q], sel, chosen)
    ensures var (c', p) := Select(c, me, q, sel, chosen);
      if q !in c.requests then c' == c && p == Refused(RequestNotFound)
      else var r := c.requests[q];
        if r.executionId != "" then
          r.executionId in c.executions && c' == c &&
          var x := c.executions[r.executionId]; p == Assigned(Envelope(x.messageId, me, x.sentAt, ExecutionAssign(q, x.offerId, r.executionId)))
        else if !(exists id | id in r.offers :: Takable(c, r.offers[id], sel)) then c' == c && p == Refused(NoOffer)
        else if sel.executionId == "" || sel.messageId == "" || sel.executionId in c.executions then c' == c && p == Refused(BadId)
        else if LoserStuck(c, r, sel, chosen) then c' == c && p == Refused(InvalidAllocator)
        else Selected(c, c', q, sel, chosen)
             && p == Assigned(Envelope(sel.messageId, me, sel.now, ExecutionAssign(q, chosen, sel.executionId)))
  {
    hide ClientInv, Chosen, EligibleIds, Takable, Releasable, LoserStuck, Settled, Keeps;
    if q in c.requests {
      var r := c.requests[q];
      RecordIs(c, q);
      NoneTakable(c, r, sel);
      if EligibleIds(c, r, sel) != {} {
        ChosenKnown(c, r, sel, chosen);
        StuckIs(c, r, sel, chosen);
        if !LoserStuck(c, r, sel, chosen) { SettledIs(c, r, sel, chosen); }
      }
    }
  }

  lemma ChosenKnown(c: Client, r: RequestRecord, sel: Selection, chosen: string)
    requires Chosen(c, r, sel, chosen)
    ensures chosen in r.offers && r.offers[chosen].allocatorId in c.routes
  {
  }

  lemma NoneTakable(c: Client, r: RequestRecord, sel: Selection)
    ensures EligibleIds(c, r, sel) != {} <==> exists id | id in r.offers :: Takable(c, r.offers[id], sel)
  {
    forall id | id in r.offers ensures id in EligibleIds(c, r, sel) <==> Takable(c, r.offers[id], sel) { TakableIs(c, r, sel, id); }
    hide Takable;
    if id :| id in EligibleIds(c, r, sel) { EligibleKnown(c, r, sel, id); }
  }

  lemma RecordIs(c: Client, q: string)
    requires ClientInv(c) && q in c.requests
    ensures var r := c.requests[q];
      && r.request.requestId == q && (forall id | id in r.offers :: r.offers[id].offer.offerId == id)
      && (r.executionId != "" ==> r.executionId in c.executions && c.executions[r.executionId].requestId == q)
  {
    assert OffersKeyed(q, c.requests[q]) && OneKept(c.executions, c.requests[q]);
  }

  // ------------------------------------------------------------------- states and releases

  predicate Ended(p: Phase) {
    p == Phase.Cancelled || p == Phase.Completed || p == Phase.Failed
  }

  /** Which of two states is the newer: by revision if either has one, else by time. */
  function Age(old_: View, v: View): int {
    if old_.revision > 0 || v.revision > 0 then v.revision - old_.revision else v.occurredAt - old_.occurredAt
  }

  /** A state is taken from the execution's own allocator only. It replaces what is on file if it is newer and that is not
      final, is ignored if older or the same, and is a conflict otherwise; a state that says the lease ran out is remembered. */
  lemma StateLaw(c: Client, sender: Identity, v: View)
    ensures var (c', err) := HandleState(c, sender, v); var x := v.executionId;
      if x !in c.executions then c' == c && err == Some(ExecutionUnknown)
      else if c.executions[x].allocatorId != sender then c' == c && err == Some(NotAuthorized)
      else var e := c.executions[x];
        if e.view.None? || (Age(e.view.value, v) > 0 && !Ended(e.view.value.phase)) then
          err.None? && c' == c.(executions := c.executions[x :=
            e.(view := Some(v), leaseLost := e.leaseLost || (v.phase == Phase.Failed && v.detail == "execution lease expired"))])
        else c'.executions == c.executions && c' == c && err == if Age(e.view.value, v) < 0 || e.view.value == v then None else Some(Conflict)
  {
    if v.executionId in c.executions { assert c.executions[v.executionId := c.executions[v.executionId]] == c.executions; }
  }

  /** An acknowledgement counts if and only if it answers the release sent to its sender, and does not claim the offer was
      assigned; it marks that release and nothing else. */
  lemma AckLaw(c: Client, sender: Identity, correlation: string, q: string, id: string, outcome: ReleaseOutcome)
    ensures var (c', err) := HandleReleaseAck(c, sender, correlation, q, id, outcome);
      if q !in c.requests then c' == c && err == Some(RequestNotFound)
      else if id !in c.requests[q].offers || c.requests[q].offers[id].release.None? then c' == c && err == Some(Conflict)
      else var r, o := c.requests[q], c.requests[q].offers[id];
        if o.allocatorId != sender then c' == c && err == Some(NotAuthorized)
        else if o.release.value.messageId != correlation || outcome == OutcomeAssigned then c' == c && err == Some(Conflict)
        else err.None? && c' == c.(requests := c.requests[q := r.(offers := r.offers[id :=
               o.(release := Some(ReleaseIntent(correlation, o.release.value.sentAt, o.release.value.destination, true)))])])
  {
  }

  /** A release is pending until it is acknowledged or the offer's time has come, and goes where it was meant to go. */
  lemma PendingLaw(c: Client, me: Identity, now: Time, p: (string, Envelope))
    ensures p in PendingOf(c, me, now) <==>
      exists q, id | q in c.requests && id in c.requests[q].offers :: PendingAs(c.requests[q], c.requests[q].offers[id], me, now, p)
  {
  }

  predicate PendingAs(r: RequestRecord, o: OfferRecord, me: Identity, now: Time, p: (string, Envelope)) {
    && o.release.Some? && !o.release.value.acknowledged && now < o.offer.expiresAt
    && p == (o.release.value.destination, Envelope(o.release.value.messageId, me, o.release.value.sentAt, ExecutionOfferRelease(r.request.requestId, o.offer.offerId)))
  }
}
