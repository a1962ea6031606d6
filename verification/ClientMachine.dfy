/** The client object: each locked operation updates the records in place and is
    proved to leave the state its value-level function says. */
module ClientMachine {
  import opened Protocol
  import opened OfferOrder
  import opened ClientState
  import opened ClientTheorems
  import ClientLaws

  class RunClient {
    const me: Identity
    var requests: map<string, RequestRecord>
    var executions: map<string, ExecutionRecord>
    var routes: map<Identity, Route>

    function St(): Client
      reads this
    {
      Client(requests, executions, routes)
    }

    ghost predicate Valid()
      reads this
    {
      ClientInv(St())
    }

    constructor (me: Identity)
      ensures Valid() && this.me == me && St() == NEW
    {
      this.me := me;
      requests, executions, routes := map[], map[], map[];
    }

    method Register(identity: Identity, route: Route) returns (err: Option<ClientError>)
      requires Valid()
      modifies this`routes
      ensures Valid() && (St(), err) == RegisterAllocator(old(St()), identity, route)
    {
      hide ClientInv;
      RegisterKeeps(St(), identity, route);
      if |identity| == 0 || Blank(route.destination) { return Some(InvalidAllocator); }
      var candidate := route;
      if identity in routes {
        var previous := routes[identity];
        if candidate.capacity.None? { candidate := candidate.(capacity := previous.capacity, hops := previous.hops); }
        if candidate.node.None? { candidate := candidate.(node := previous.node); }
        if candidate.edge.port == 0 { candidate := candidate.(edge := previous.edge); }
      }
      routes := routes[identity := candidate];
      err := None;
    }

    method Create(request: Request, messageId: string, now: Time) returns (err: Option<ClientError>)
      requires Valid()
      modifies this`requests
      ensures Valid() && (St(), err) == CreateRequest(old(St()), request, messageId, now)
    {
      hide ClientInv;
      CreateKeeps(St(), request, messageId, now);
      if request.requestId == "" || request.requestId in requests || messageId == "" { return Some(BadId); }
      requests := requests[request.requestId := RequestRecord(request, messageId, now, map[], "")];
      err := None;
    }

    /** handleOfferLocked. */
    method OnOffer(sender: Identity, correlation: string, offer: WireOffer, releaseId: string, now: Time) returns (err: Option<ClientError>)
      requires Valid()
      modifies this`requests, this`routes
      ensures Valid() && (St(), err) == HandleOffer(old(St()), sender, correlation, offer, releaseId, now)
    {
      hide ClientInv;
      OfferKeeps(St(), sender, correlation, offer, releaseId, now);
      if offer.requestId !in requests { return Some(RequestNotFound); }
      var r := requests[offer.requestId];
      KeyedAt(St(), offer.requestId);
      if r.messageId != correlation || offer.resourceClass != r.request.resourceClass { return Some(Conflict); }
      if sender !in routes { return Some(NotAuthorized); }
      if offer.node.Some? && routes[sender].node != offer.node {
        routes := routes[sender := routes[sender].(node := offer.node)];
      }
      if offer.offerId in r.offers {
        var existing := r.offers[offer.offerId];
        return if existing.allocatorId != sender || existing.offer != offer then Some(Conflict) else None;
      }
      var record := OfferRecord(offer, sender, None);
      if r.executionId != "" {
        if r.executionId in executions && executions[r.executionId].offerId == offer.offerId
           && executions[r.executionId].allocatorId == sender {
          return Some(Conflict);
        }
        var (intent, failed) := NewRelease(St(), sender, releaseId, now);
        if failed.Some? { return failed; }
        record := record.(release := intent);
      }
      requests := requests[offer.requestId := r.(offers := r.offers[offer.offerId := record])];
      err := None;
    }

    /** chooseWithPreferences: gather the eligible offers and take the head of the ranking. */
    method Choose(r: RequestRecord, sel: Selection) returns (chosen: Option<string>)
      requires forall id | id in r.offers :: r.offers[id].offer.offerId == id
      ensures chosen.None? <==> EligibleIds(St(), r, sel) == {}
      ensures chosen.Some? ==> Chosen(St(), r, sel, chosen.value)
      ensures chosen.Some? ==> chosen.value in r.offers && ClientLaws.Takable(St(), r.offers[chosen.value], sel)
      ensures chosen.Some? ==> forall id | id in r.offers && ClientLaws.Takable(St(), r.offers[id], sel) ::
        ClientLaws.NoWorse(St(), r.offers[chosen.value], r.offers[id], sel)
    {
      ghost var c := St();
      var candidates: seq<Candidate> := [];
      var todo := r.offers.Keys;
      while todo != {}
        invariant todo <= r.offers.Keys
        invariant forall k | k in candidates :: exists id | id in EligibleIds(c, r, sel) :: k == CandidateOf(c, r.offers[id], sel)
        invariant forall id | id in EligibleIds(c, r, sel) && id !in todo :: CandidateOf(c, r.offers[id], sel) in candidates
        decreases |todo|
      {
        var id :| id in todo;
        todo := todo - {id};
        var o := r.offers[id];
        if o.allocatorId in routes && !Blank(routes[o.allocatorId].destination) && o.offer.expiresAt > sel.now
           && NodeOf(routes[o.allocatorId], o) in sel.placed {
          assert id in EligibleIds(c, r, sel);
          candidates := candidates + [Candidate(routes[o.allocatorId].hops, Caches(o, sel), o.allocatorId, o.offer.offerId)];
        }
      }
      assert (set k | k in candidates) == Candidates(c, r, sel);
      if |candidates| == 0 {
        assert forall id | id in EligibleIds(c, r, sel) :: CandidateOf(c, r.offers[id], sel) in candidates;
        return None;
      }
      var best := First(candidates);
      assert exists id | id in EligibleIds(c, r, sel) :: best == CandidateOf(c, r.offers[id], sel);
      chosen := Some(best.offerId);
      ClientLaws.ChosenMeans(c, r, sel, best.offerId);
    }

    /** The releases a selection would create, or the first reason why it cannot. */
    method Prepare(r: RequestRecord, sel: Selection, chosen: string) returns (prepared: map<string, ReleaseIntent>, err: Option<ClientError>)
      ensures err.None? <==> Releasable(St(), r, sel, chosen)
      ensures err.None? ==> prepared.Keys == Losers(r, chosen)
      ensures err.None? ==> forall id | id in prepared ::
        Some(prepared[id]) == NewRelease(St(), r.offers[id].allocatorId, ReleaseId(sel, id), sel.now).0
    {
      hide NewRelease, ReleaseId;
      prepared, err := map[], None;
      var todo := r.offers.Keys;
      while todo != {}
        invariant todo <= r.offers.Keys && err.None? && prepared.Keys == Losers(r, chosen) - todo
        invariant forall id | id in prepared ::
          (Some(prepared[id]), None) == NewRelease(St(), r.offers[id].allocatorId, ReleaseId(sel, id), sel.now)
        decreases |todo|
      {
        var id :| id in todo;
        if id != chosen && r.offers[id].release.None? {
          var (intent, failed) := NewRelease(St(), r.offers[id].allocatorId, ReleaseId(sel, id), sel.now);
          IntentOrError(St(), r.offers[id].allocatorId, ReleaseId(sel, id), sel.now);
          if failed.Some? {
            assert id in Losers(r, chosen);
            return prepared, failed;
          }
          prepared := prepared[id := intent.value];
        }
        todo := todo - {id};
      }
    }

    /** Writes the prepared releases into the offers. */
    method Apply(r: RequestRecord, sel: Selection, chosen: string, prepared: map<string, ReleaseIntent>) returns (offers: map<string, OfferRecord>)
      requires (forall id | id in r.offers :: r.offers[id].offer.offerId == id) && prepared.Keys == Losers(r, chosen)
      requires forall id | id in prepared :: Some(prepared[id]) == NewRelease(St(), r.offers[id].allocatorId, ReleaseId(sel, id), sel.now).0
      ensures offers == Settled(St(), r, sel, chosen)
    {
      hide NewRelease, ReleaseId;
      offers := r.offers;
      var todo := prepared.Keys;
      while todo != {}
        invariant todo <= prepared.Keys && offers.Keys == r.offers.Keys
        invariant forall id | id in r.offers ::
          offers[id] == if id in prepared.Keys - todo then r.offers[id].(release := Some(prepared[id])) else r.offers[id]
        decreases |todo|
      {
        var id :| id in todo;
        todo := todo - {id};
        offers := offers[id := offers[id].(release := Some(prepared[id]))];
      }
    }

    /** Select: everything is prepared first, so a failure leaves no trace. */
    method SelectOffer(requestId: string, sel: Selection) returns (picked: Picked, ghost chosen: string)
      requires Valid()
      modifies this`requests, this`executions
      ensures Valid()
      ensures requestId in old(requests) && EligibleIds(old(St()), old(requests)[requestId], sel) != {} ==>
        Chosen(old(St()), old(requests)[requestId], sel, chosen)
      ensures var (c, p) := Select(old(St()), me, requestId, sel, chosen);
        St() == c && (picked == p || (picked.Refused? && p.Refused?))
    {
      chosen := "";
      if requestId !in requests { return Refused(RequestNotFound), ""; }
      var r := requests[requestId];
      assert OffersKeyed(requestId, r) && OneKept(executions, r);
      hide ClientInv, Chosen, Settled, Releasable, EligibleIds;
      var choice := Choose(r, sel);
      if choice.Some? { chosen := choice.value; }
      SelectKeeps(St(), me, requestId, sel, chosen);
      if r.executionId != "" {
        return Assigned(AssignEnvelope(me, r.executionId, executions[r.executionId])), chosen;
      }
      if choice.None? { return Refused(NoOffer), chosen; }
      if sel.executionId == "" || sel.executionId in executions || sel.messageId == "" { return Refused(BadId), chosen; }
      var prepared, err := Prepare(r, sel, choice.value);
      if err.Some? { return Refused(err.value), chosen; }
      var offers := Apply(r, sel, choice.value, prepared);
      ChosenOffer(St(), r, sel, choice.value);
      var o := r.offers[choice.value];
      requests := requests[requestId := r.(offers := offers, executionId := sel.executionId)];
      executions := executions[sel.executionId :=
        ExecutionRecord(requestId, choice.value, o.allocatorId, routes[o.allocatorId].destination, sel.messageId, sel.now, None, false)];
      return Assigned(AssignEnvelope(me, sel.executionId, executions[sel.executionId])), chosen;
    }

    /** handleStateLocked. */
    method OnState(sender: Identity, v: View) returns (err: Option<ClientError>)
      requires Valid()
      modifies this`executions
      ensures Valid() && St() == HandleState(old(St()), sender, v).0 && err == HandleState(old(St()), sender, v).1
    {
      hide ClientInv;
      StateKeeps(St(), sender, v);
      if v.executionId !in executions { return Some(ExecutionUnknown); }
      var record := executions[v.executionId];
      assert executions[v.executionId := record] == executions;
      if record.allocatorId != sender { return Some(NotAuthorized); }
      if record.view.Some? {
        var was := record.view.value;
        if was.revision > 0 || v.revision > 0 {
          if v.revision < was.revision { return None; }
          if v.revision == was.revision { return if was == v then None else Some(Conflict); }
        } else {
          if v.occurredAt < was.occurredAt { return None; }
          if v.occurredAt == was.occurredAt { return if was == v then None else Some(Conflict); }
        }
        if Terminal(was.phase) && was != v { return Some(Conflict); }
      }
      record := record.(view := Some(v));
      if Terminal(v.phase) && LeaseGone(v) {
        record := record.(leaseLost := true);
      }
      executions := executions[v.executionId := record];
      err := None;
    }

    /** handleReleaseAckLocked. */
    method OnReleaseAck(sender: Identity, correlation: string, requestId: string, offerId: string, outcome: ReleaseOutcome)
      returns (err: Option<ClientError>)
      requires Valid()
      modifies this`requests
      ensures Valid() && (St(), err) == HandleReleaseAck(old(St()), sender, correlation, requestId, offerId, outcome)
    {
      hide ClientInv;
      AckKeeps(St(), sender, correlation, requestId, offerId, outcome);
      if requestId !in requests { return Some(RequestNotFound); }
      var r := requests[requestId];
      if offerId !in r.offers || r.offers[offerId].release.None? { return Some(Conflict); }
      var o := r.offers[offerId];
      if o.allocatorId != sender { return Some(NotAuthorized); }
      if o.release.value.messageId != correlation { return Some(Conflict); }
      if outcome == OutcomeAssigned { return Some(Conflict); }
      if o.release.value.acknowledged {
        assert o.(release := Some(o.release.value.(acknowledged := true))) == o;
        assert r.offers[offerId := o] == r.offers;
        assert requests[requestId := r] == requests;
        return None;
      }
      requests := requests[requestId := r.(offers := r.offers[offerId := o.(release := Some(o.release.value.(acknowledged := true)))])];
      err := None;
    }

    /** The commands for one request's pending releases. */
    method PendingIn(r: RequestRecord, now: Time) returns (list: seq<(string, Envelope)>)
      requires forall id | id in r.offers :: r.offers[id].offer.offerId == id
      ensures Once(list) && (set p | p in list) == PendingFor(r, me, now)
    {
      list := [];
      var left := r.offers.Keys;
      while left != {}
        invariant left <= r.offers.Keys
        invariant Once(list) && (forall p | p in list :: p in PendingFor(r, me, now) && p.1.payload.offerId !in left)
        invariant AllListed(r, r.offers.Keys - left, me, now, list)
        decreases |left|
      {
        var id :| id in left;
        left := left - {id};
        var o := r.offers[id];
        if o.release.Some? && !o.release.value.acknowledged && o.offer.expiresAt > now {
          list := list + [(o.release.value.destination, ReleaseEnvelope(me, r.request.requestId, o))];
        }
      }
    }

    /** PendingReleases: one command for every release that is neither acknowledged nor moot, by message ID. */
    method PendingReleases(now: Time) returns (pending: seq<(string, Envelope)>)
      requires Valid()
      ensures multiset(pending) == multiset(PendingOf(St(), me, now)) && ById(pending)
    {
      hide PendingOf, ById, PendingFor, Once, OneKept;
      pending := [];
      var todo := requests.Keys;
      assert Once(pending) by { NoneOnce<(string, Envelope)>(); }
      while todo != {}
        invariant todo <= requests.Keys && Once(pending)
        invariant forall p | p in pending :: Listed(requests, todo, me, now, p)
        invariant forall q, p | q in requests && q !in todo && p in PendingFor(requests[q], me, now) :: p in pending
        decreases |todo|
      {
        var q :| q in todo;
        assert OffersKeyed(q, requests[q]);
        var list := PendingIn(requests[q], now);
        forall p | p in list ensures Listed(requests, todo - {q}, me, now, p) && p !in pending {
          PendingNames(requests[q], me, now, p);
        }
        JoinOnce(pending, list);
        pending, todo := pending + list, todo - {q};
      }
      ListsAll(St(), me, now, pending);
      EachOnce(pending);
      pending := SortById(pending);
    }
  }

  function PendingFor(r: RequestRecord, me: Identity, now: Time): set<(string, Envelope)> {
    set id | id in r.offers && Pending(r.offers[id], now) ::
      (r.offers[id].release.value.destination, ReleaseEnvelope(me, r.request.requestId, r.offers[id]))
  }

  lemma PendingNames(r: RequestRecord, me: Identity, now: Time, p: (string, Envelope))
    requires p in PendingFor(r, me, now)
    ensures p.1.payload.ExecutionOfferRelease? && p.1.payload.requestId == r.request.requestId
  {
  }

  /** A command for a pending release of a request that is no longer to do. */
  predicate Listed(requests: map<string, RequestRecord>, todo: set<string>, me: Identity, now: Time, p: (string, Envelope)) {
    && p.1.payload.ExecutionOfferRelease? && p.1.payload.requestId in requests && p.1.payload.requestId !in todo
    && p in PendingFor(requests[p.1.payload.requestId], me, now)
  }

  lemma NoneOnce<T>()
    ensures Once<T>([])
  {
  }

  lemma JoinOnce<T>(s: seq<T>, t: seq<T>)
    requires Once(s) && Once(t) && forall x | x in t :: x !in s
    ensures Once(s + t)
  {
    forall i, j | 0 <= i < j < |s + t| ensures (s + t)[i] != (s + t)[j] {
      if i < |s| <= j { assert t[j - |s|] !in s && s[i] in s; }
    }
  }

  predicate Once<T(==)>(s: seq<T>) {
    forall i, j | 0 <= i < j < |s| :: s[i] != s[j]
  }

  predicate Before(a: (string, Envelope), b: (string, Envelope)) {
    LexLess(CharCodes(a.1.messageId), CharCodes(b.1.messageId))
  }

  predicate ById(s: seq<(string, Envelope)>) {
    forall i, j | 0 <= i < j < |s| :: !Before(s[j], s[i])
  }

  lemma NotBefore(a: (string, Envelope), b: (string, Envelope), c: (string, Envelope))
    requires !Before(b, a) && !Before(c, b)
    ensures !Before(c, a)
  {
    var x, y, z := CharCodes(a.1.messageId), CharCodes(b.1.messageId), CharCodes(c.1.messageId);
    LexTotal(x, y);
    LexTotal(y, z);
    LexTotal(x, z);
    if LexLess(x, y) && LexLess(y, z) { LexTransitive(x, y, z); }
  }

  /** The commands in the order of their message IDs. */
  method SortById(items: seq<(string, Envelope)>) returns (sorted: seq<(string, Envelope)>)
    ensures multiset(sorted) == multiset(items) && ById(sorted)
  {
    hide Before;
    sorted := [];
    for n := 0 to |items|
      invariant multiset(sorted) == multiset(items[..n]) && ById(sorted)
    {
      var p := items[n];
      var k := |sorted|;
      while k > 0 && Before(p, sorted[k - 1])
        invariant 0 <= k <= |sorted| && forall i | k <= i < |sorted| :: Before(p, sorted[i])
      {
        k := k - 1;
      }
      InsertKeeps(sorted, p, k);
      sorted := sorted[..k] + [p] + sorted[k..];
      assert items[..n + 1] == items[..n] + [p];
    }
    assert items[..|items|] == items;
  }

  lemma InsertKeeps(s: seq<(string, Envelope)>, p: (string, Envelope), k: nat)
    requires ById(s) && k <= |s| && (k > 0 ==> !Before(p, s[k - 1])) && forall i | k <= i < |s| :: Before(p, s[i])
    ensures ById(s[..k] + [p] + s[k..]) && multiset(s[..k] + [p] + s[k..]) == multiset(s) + multiset{p}
  {
    hide Before;
    assert multiset(s[..k] + [p] + s[k..]) == multiset(s) + multiset{p} by { assert s == s[..k] + s[k..]; }
    forall i | 0 <= i < k ensures !Before(p, s[i]) {
      if i < k - 1 { NotBefore(s[i], s[k - 1], p); }
    }
    forall i | k <= i < |s| ensures !Before(s[i], p) { BeforeOne(p, s[i]); }
    InsertedById(s, p, k);
  }

  lemma InsertedById(s: seq<(string, Envelope)>, p: (string, Envelope), k: nat)
    requires ById(s) && k <= |s| && (forall i | 0 <= i < k :: !Before(p, s[i])) && (forall i | k <= i < |s| :: !Before(s[i], p))
    ensures ById(s[..k] + [p] + s[k..])
  {
    hide Before;
    var t := s[..k] + [p] + s[k..];
    forall i, j | 0 <= i < j < |t| ensures !Before(t[j], t[i]) {
      assert t[i] == (if i < k then s[i] else if i == k then p else s[i - 1]);
      assert t[j] == (if j < k then s[j] else if j == k then p else s[j - 1]);
      if j != k && i != k {
        var m, n := if i < k then i else i - 1, if j < k then j else j - 1;
        assert m < n && !Before(s[n], s[m]);
      }
    }
  }

  lemma BeforeOne(a: (string, Envelope), b: (string, Envelope))
    requires Before(a, b)
    ensures !Before(b, a)
  {
    LexTotal(CharCodes(a.1.messageId), CharCodes(b.1.messageId));
  }

  lemma {:induction false} EachOnce<T>(s: seq<T>)
    requires Once(s)
    ensures multiset(s) == multiset(set x | x in s)
  {
    if s != [] {
      var n := |s| - 1;
      EachOnce(s[..n]);
      assert s == s[..n] + [s[n]];
      assert (set x | x in s) == (set x | x in s[..n]) + {s[n]};
      assert s[n] !in s[..n];
    }
  }

  lemma ListsAll(c: Client, me: Identity, now: Time, pending: seq<(string, Envelope)>)
    requires forall p | p in pending :: Listed(c.requests, {}, me, now, p)
    requires forall q, p | q in c.requests && p in PendingFor(c.requests[q], me, now) :: p in pending
    ensures (set p | p in pending) == PendingOf(c, me, now)
  {
    forall p | p in PendingOf(c, me, now) ensures p in pending {
      var q, id :| q in c.requests && id in c.requests[q].offers && Pending(c.requests[q].offers[id], now)
        && p == (c.requests[q].offers[id].release.value.destination, ReleaseEnvelope(me, c.requests[q].request.requestId, c.requests[q].offers[id]));
      assert p in PendingFor(c.requests[q], me, now);
    }
    forall p | p in pending ensures p in PendingOf(c, me, now) {
      var q := p.1.payload.requestId;
      var id :| id in c.requests[q].offers && Pending(c.requests[q].offers[id], now)
        && p == (c.requests[q].offers[id].release.value.destination, ReleaseEnvelope(me, c.requests[q].request.requestId, c.requests[q].offers[id]));
    }
  }

  /** Every pending release of the named offers is in the list. */
  predicate AllListed(r: RequestRecord, ids: set<string>, me: Identity, now: Time, pending: seq<(string, Envelope)>) {
    forall id | id in ids && id in r.offers && Pending(r.offers[id], now) ::
      (r.offers[id].release.value.destination, ReleaseEnvelope(me, r.request.requestId, r.offers[id])) in pending
  }

  lemma KeyedAt(c: Client, q: string)
    requires ClientInv(c) && q in c.requests
    ensures OffersKeyed(q, c.requests[q])
  {
  }

  lemma IntentOrError(c: Client, allocatorId: Identity, messageId: string, now: Time)
    ensures var (intent, err) := NewRelease(c, allocatorId, messageId, now); intent.Some? <==> err.None?
  {
  }

  lemma ChosenOffer(c: Client, r: RequestRecord, sel: Selection, chosen: string)
    requires Chosen(c, r, sel, chosen)
    ensures chosen in r.offers && r.offers[chosen].allocatorId in c.routes
  {
    hide Best;
  }
}
