/** The client's in-memory workflow as values: requests, the offers received for
    them, the one selected, release intents for the others, and observed states. */
module ClientState {
  import opened Protocol
  import opened OfferOrder

  /** What a node says it can do, as one value. */
  type Node = string

  datatype WireOffer = WireOffer(offerId: string, requestId: string, resourceClass: string, expiresAt: Time, node: Option<Node>)

  datatype ReleaseIntent = ReleaseIntent(messageId: string, sentAt: Time, destination: string, acknowledged: bool)

  datatype OfferRecord = OfferRecord(offer: WireOffer, allocatorId: Identity, release: Option<ReleaseIntent>)

  datatype RequestRecord = RequestRecord(request: Request, messageId: string, createdAt: Time,
                                         offers: map<string, OfferRecord>, executionId: string)

  datatype ExecutionRecord = ExecutionRecord(requestId: string, offerId: string, allocatorId: Identity, destination: string,
                                             messageId: string, sentAt: Time, view: Option<View>, leaseLost: bool)

  /** Where the allocator takes tunnels; port 0 stands for none advertised. */
  datatype Edge = Edge(host: string, port: nat, destination: string)

  datatype Route = Route(destination: string, hops: nat, capacity: Option<map<string, nat>>, node: Option<Node>, edge: Edge)

  datatype Client = Client(requests: map<string, RequestRecord>, executions: map<string, ExecutionRecord>, routes: map<Identity, Route>)

  const NEW := Client(map[], map[], map[])

  datatype ClientError =
    | RequestNotFound | ExecutionUnknown | Conflict | NotAuthorized | InvalidAllocator | BadId | NoOffer

  // -------------------------------------------------------------- routes and requests

  /** Nothing but white space. */
  predicate Blank(s: string) {
    forall i | 0 <= i < |s| :: s[i] == ' ' || s[i] == '\t' || s[i] == '\n' || s[i] == '\r'
  }

  /** What a registration leaves out stays as it was known before. */
  function Merged(known: Route, route: Route): Route {
    Route(route.destination,
          if route.capacity.None? then known.hops else route.hops,
          if route.capacity.None? then known.capacity else route.capacity,
          if route.node.None? then known.node else route.node,
          if route.edge.port == 0 then known.edge else route.edge)
  }

  function RegisterAllocator(c: Client, identity: Identity, route: Route): (r: (Client, Option<ClientError>)) {
    if identity == [] || Blank(route.destination) then (c, Some(InvalidAllocator))
    else (c.(routes := c.routes[identity := if identity in c.routes then Merged(c.routes[identity], route) else route]), None)
  }

  function CreateRequest(c: Client, request: Request, messageId: string, now: Time): (r: (Client, Option<ClientError>)) {
    if request.requestId == "" || request.requestId in c.requests || messageId == "" then (c, Some(BadId))
    else (c.(requests := c.requests[request.requestId := RequestRecord(request, messageId, now, map[], "")]), None)
  }

  function RequestEnvelope(me: Identity, r: RequestRecord): Envelope {
    Envelope(r.messageId, me, r.createdAt, ExecutionRequest(r.request))
  }

  function AssignEnvelope(me: Identity, x: string, e: ExecutionRecord): Envelope {
    Envelope(e.messageId, me, e.sentAt, ExecutionAssign(e.requestId, e.offerId, x))
  }

  // --------------------------------------------------------------------------- offers

  /** newReleaseLocked. */
  function NewRelease(c: Client, allocatorId: Identity, messageId: string, now: Time): (r: (Option<ReleaseIntent>, Option<ClientError>)) {
    if allocatorId !in c.routes || c.routes[allocatorId].destination == "" then (None, Some(InvalidAllocator))
    else if messageId == "" then (None, Some(BadId))
    else (Some(ReleaseIntent(messageId, now, c.routes[allocatorId].destination, false)), None)
  }

  function WithOffer(c: Client, r: RequestRecord, o: OfferRecord): Client {
    c.(requests := c.requests[r.request.requestId := r.(offers := r.offers[o.offer.offerId := o])])
  }

  /** An offer carries the newest word on its node. */
  function Refreshed(c: Client, sender: Identity, node: Option<Node>): Client
    requires sender in c.routes
  {
    if node.None? || c.routes[sender].node == node then c else c.(routes := c.routes[sender := c.routes[sender].(node := node)])
  }

  /** handleOfferLocked: an offer that comes after the selection is recorded together with its release. */
  function HandleOffer(c: Client, sender: Identity, correlation: string, offer: WireOffer, releaseId: string, now: Time)
    : (r: (Client, Option<ClientError>))
  {
    if offer.requestId !in c.requests then (c, Some(RequestNotFound)) else
    var r := c.requests[offer.requestId];
    if r.messageId != correlation || offer.resourceClass != r.request.resourceClass then (c, Some(Conflict))
    else if sender !in c.routes then (c, Some(NotAuthorized))
    else TakeOffer(Refreshed(c, sender, offer.node), sender, r, offer, releaseId, now)
  }

  /** The rest of handleOfferLocked, once the offer is the request's and its sender is known. */
  function TakeOffer(c: Client, sender: Identity, r: RequestRecord, offer: WireOffer, releaseId: string, now: Time)
    : (t: (Client, Option<ClientError>))
  {
    if offer.offerId in r.offers then
      if r.offers[offer.offerId].allocatorId != sender || r.offers[offer.offerId].offer != offer then (c, Some(Conflict)) else (c, None)
    else if r.executionId == "" then (WithOffer(c, r, OfferRecord(offer, sender, None)), None)
    else if r.executionId in c.executions && c.executions[r.executionId].offerId == offer.offerId
         && c.executions[r.executionId].allocatorId == sender then (c, Some(Conflict))
    else
      var (intent, err) := NewRelease(c, sender, releaseId, now);
      if err.Some? then (c, err) else (WithOffer(c, r, OfferRecord(offer, sender, intent)), None)
  }

  // ------------------------------------------------------------------------ selection

  /** What the request and the ID source contribute to one selection: the nodes that match the placement (none known
      is a case of its own), those that cache the image, and the new IDs. */
  datatype Selection = Selection(now: Time, placed: set<Option<Node>>, cached: set<Node>, executionId: string, messageId: string,
                                 releaseIds: map<string, string>)

  /** The offer's own node if it names one, else the one in the catalog. */
  function NodeOf(route: Route, o: OfferRecord): Option<Node> {
    if o.offer.node.Some? then o.offer.node else route.node
  }

  predicate Caches(o: OfferRecord, sel: Selection) {
    o.offer.node.Some? && o.offer.node.value in sel.cached
  }

  predicate Eligible(c: Client, o: OfferRecord, sel: Selection) {
    && o.allocatorId in c.routes && !Blank(c.routes[o.allocatorId].destination) && o.offer.expiresAt > sel.now
    && NodeOf(c.routes[o.allocatorId], o) in sel.placed
  }

  function EligibleIds(c: Client, r: RequestRecord, sel: Selection): set<string> {
    set id | id in r.offers && Eligible(c, r.offers[id], sel)
  }

  function CandidateOf(c: Client, o: OfferRecord, sel: Selection): Candidate
    requires o.allocatorId in c.routes
  {
    Candidate(c.routes[o.allocatorId].hops, Caches(o, sel), o.allocatorId, o.offer.offerId)
  }

  function Candidates(c: Client, r: RequestRecord, sel: Selection): set<Candidate> {
    set id | id in EligibleIds(c, r, sel) :: CandidateOf(c, r.offers[id], sel)
  }

  /** The offer with the given ID is the one the ranking puts first. */
  predicate Chosen(c: Client, r: RequestRecord, sel: Selection, id: string) {
    id in EligibleIds(c, r, sel) && Best(CandidateOf(c, r.offers[id], sel), Candidates(c, r, sel))
  }

  function ReleaseId(sel: Selection, id: string): string {
    if id in sel.releaseIds then sel.releaseIds[id] else ""
  }

  function Losers(r: RequestRecord, chosen: string): set<string> {
    set id | id in r.offers && id != chosen && r.offers[id].release.None?
  }

  predicate Releasable(c: Client, r: RequestRecord, sel: Selection, chosen: string) {
    forall id | id in Losers(r, chosen) :: NewRelease(c, r.offers[id].allocatorId, ReleaseId(sel, id), sel.now).1.None?
  }

  function Lost(c: Client, o: OfferRecord, sel: Selection): OfferRecord {
    o.(release := NewRelease(c, o.allocatorId, ReleaseId(sel, o.offer.offerId), sel.now).0)
  }

  function Settled(c: Client, r: RequestRecord, sel: Selection, chosen: string): map<string, OfferRecord> {
    map id | id in r.offers :: if id in Losers(r, chosen) then Lost(c, r.offers[id], sel) else r.offers[id]
  }

  /** The state once `chosen` is selected: the losers' releases and the execution, in one go. */
  function Commit(c: Client, r: RequestRecord, sel: Selection, chosen: string): Client
    requires chosen in r.offers && r.offers[chosen].allocatorId in c.routes
  {
    var o := r.offers[chosen];
    c.(requests := c.requests[r.request.requestId := r.(offers := Settled(c, r, sel, chosen), executionId := sel.executionId)],
       executions := c.executions[sel.executionId :=
         ExecutionRecord(r.request.requestId, chosen, o.allocatorId, c.routes[o.allocatorId].destination, sel.messageId, sel.now, None, false)])
  }

  datatype Picked = Assigned(envelope: Envelope) | Refused(error: ClientError)

  /** Select, with the chosen offer named by `chosen`; refusals change nothing. */
  function Select(c: Client, me: Identity, requestId: string, sel: Selection, chosen: string): (p: (Client, Picked))
    requires requestId in c.requests && EligibleIds(c, c.requests[requestId], sel) != {} ==> Chosen(c, c.requests[requestId], sel, chosen)
  {
    if requestId !in c.requests then (c, Refused(RequestNotFound)) else
    var r := c.requests[requestId];
    if r.executionId != "" then
      if r.executionId in c.executions then (c, Assigned(AssignEnvelope(me, r.executionId, c.executions[r.executionId])))
      else (c, Refused(ExecutionUnknown))
    else if EligibleIds(c, r, sel) == {} then (c, Refused(NoOffer))
    else if sel.executionId == "" || sel.executionId in c.executions || sel.messageId == "" then (c, Refused(BadId))
    else if !Releasable(c, r, sel, chosen) then (c, Refused(InvalidAllocator))
    else
      var c' := Commit(c, r, sel, chosen);
      (c', Assigned(AssignEnvelope(me, sel.executionId, c'.executions[sel.executionId])))
  }

  // --------------------------------------------------------------------------- states

  datatype Fold = Kept | Updated | Conflicting

  function Compare(old_: View, v: View): Fold {
    if old_.revision > 0 || v.revision > 0 then
      if v.revision < old_.revision then Kept
      else if v.revision == old_.revision then (if v == old_ then Kept else Conflicting)
      else if Terminal(old_.phase) then Conflicting else Updated
    else if v.occurredAt < old_.occurredAt then Kept
    else if v.occurredAt == old_.occurredAt then (if v == old_ then Kept else Conflicting)
    else if Terminal(old_.phase) then Conflicting else Updated
  }

  predicate LeaseGone(v: View) {
    v.phase == Failed && v.detail == LEASE_EXPIRED
  }

  /** handleStateLocked on one execution. */
  function Observe(e: ExecutionRecord, v: View): (r: (ExecutionRecord, Option<ClientError>)) {
    var f := if e.view.None? then Updated else Compare(e.view.value, v);
    match f
    case Kept => (e, None)
    case Conflicting => (e, Some(Conflict))
    case Updated => (e.(view := Some(v), leaseLost := e.leaseLost || LeaseGone(v)), None)
  }

  function HandleState(c: Client, sender: Identity, v: View): (r: (Client, Option<ClientError>)) {
    if v.executionId !in c.executions then (c, Some(ExecutionUnknown))
    else if c.executions[v.executionId].allocatorId != sender then (c, Some(NotAuthorized))
    else
      var (e, err) := Observe(c.executions[v.executionId], v);
      (c.(executions := c.executions[v.executionId := e]), err)
  }

  // ------------------------------------------------------------------------- releases

  /** handleReleaseAckLocked. */
  function HandleReleaseAck(c: Client, sender: Identity, correlation: string, requestId: string, offerId: string, outcome: ReleaseOutcome)
    : (r: (Client, Option<ClientError>))
  {
    if requestId !in c.requests then (c, Some(RequestNotFound)) else
    var r := c.requests[requestId];
    if offerId !in r.offers || r.offers[offerId].release.None? then (c, Some(Conflict)) else
    var o := r.offers[offerId];
    if o.allocatorId != sender then (c, Some(NotAuthorized))
    else if o.release.value.messageId != correlation then (c, Some(Conflict))
    else if outcome == OutcomeAssigned then (c, Some(Conflict))
    else
      var acked := o.(release := Some(o.release.value.(acknowledged := true)));
      (c.(requests := c.requests[requestId := r.(offers := r.offers[offerId := acked])]), None)
  }

  predicate Pending(o: OfferRecord, now: Time) {
    o.release.Some? && !o.release.value.acknowledged && o.offer.expiresAt > now
  }

  function ReleaseEnvelope(me: Identity, requestId: string, o: OfferRecord): Envelope
    requires o.release.Some?
  {
    Envelope(o.release.value.messageId, me, o.release.value.sentAt, ExecutionOfferRelease(requestId, o.offer.offerId))
  }

  function PendingOf(c: Client, me: Identity, now: Time): set<(string, Envelope)> {
    set q, id | q in c.requests && id in c.requests[q].offers && Pending(c.requests[q].offers[id], now) ::
      (c.requests[q].offers[id].release.value.destination, ReleaseEnvelope(me, c.requests[q].request.requestId, c.requests[q].offers[id]))
  }

  // ------------------------------------------------------------------------ invariant

  predicate OffersKeyed(q: string, r: RequestRecord) {
    r.request.requestId == q && forall id | id in r.offers :: r.offers[id].offer.offerId == id && r.offers[id].offer.requestId == q
  }

  /** Before a selection nothing is released; after it, everything but the offer the execution names. */
  predicate OneKept(executions: map<string, ExecutionRecord>, r: RequestRecord) {
    if r.executionId == "" then forall id | id in r.offers :: r.offers[id].release.None?
    else r.executionId in executions && KeptIs(r, executions[r.executionId])
  }

  predicate KeptIs(r: RequestRecord, e: ExecutionRecord) {
    && e.requestId == r.request.requestId && e.offerId in r.offers && r.offers[e.offerId].allocatorId == e.allocatorId
    && forall id | id in r.offers :: r.offers[id].release.None? <==> id == e.offerId
  }

  predicate RequestsSound(c: Client) {
    forall q | q in c.requests :: OffersKeyed(q, c.requests[q]) && OneKept(c.executions, c.requests[q])
  }

  predicate ExecutionsSound(c: Client) {
    forall x | x in c.executions :: x != "" && c.executions[x].requestId in c.requests
      && c.requests[c.executions[x].requestId].executionId == x
  }

  predicate ClientInv(c: Client) {
    RequestsSound(c) && ExecutionsSound(c) && forall a | a in c.routes :: !Blank(c.routes[a].destination)
  }
}
