/** Which snapshots the loader accepts, in terms of what is on file, and what it
    makes of each record; and the numbers a save writes. */
module LoaderLaws {
  import opened Protocol
  import opened AllocatorState
  import opened AllocatorInvariant
  import opened Snapshots
  import opened LoaderLimits
  import CommandLaws
  import LifeLaws

  // -------------------------------------------------------------------------- well-formed

  predicate GoodOffer(p: PersistedOffer) {
    p.offerId != "" && p.request.requestId != "" && p.requestId == p.request.requestId && p.status in {1, 2, 3, 4}
  }

  /** Every offer is well-formed, and no ID and no request of a client comes twice. */
  predicate OffersGood(saved: seq<PersistedOffer>) {
    && (forall i | 0 <= i < |saved| :: GoodOffer(saved[i]))
    && (forall i, j | 0 <= i < j < |saved| :: saved[i].offerId != saved[j].offerId)
    && (forall i, j | 0 <= i < j < |saved| :: saved[i].client != saved[j].client || saved[i].request.requestId != saved[j].request.requestId)
  }

  lemma {:induction false} KeyLoaded(saved: seq<PersistedOffer>, k: RequestKey)
    requires LoadOffers(saved).Some?
    ensures k in LoadOffers(saved).value.1 <==> exists i | 0 <= i < |saved| :: (saved[i].client, saved[i].request.requestId) == k
  {
    hide LoadOffer;
    if saved != [] {
      var n := |saved| - 1;
      var rest := saved[..n];
      KeyLoaded(rest, k);
      if i :| 0 <= i < |rest| && (rest[i].client, rest[i].request.requestId) == k { assert (saved[i].client, saved[i].request.requestId) == k; }
      if i :| 0 <= i < |saved| && (saved[i].client, saved[i].request.requestId) == k { if i < n { assert (rest[i].client, rest[i].request.requestId) == k; } }
    }
  }

  lemma IdLoaded(saved: seq<PersistedOffer>, id: string)
    requires LoadOffers(saved).Some?
    ensures id in LoadOffers(saved).value.0 <==> exists i | 0 <= i < |saved| :: saved[i].offerId == id
  {
    hide LoadOffers;
    if id in LoadOffers(saved).value.0 { var i := OfferLoadedFrom(saved, id); }
    if i :| 0 <= i < |saved| && saved[i].offerId == id { OfferLoadedAt(saved, i); }
  }

  lemma {:induction false} OffersLoadIff(saved: seq<PersistedOffer>)
    ensures LoadOffers(saved).Some? <==> OffersGood(saved)
  {
    hide LoadOffer;
    if saved != [] {
      var n := |saved| - 1;
      var rest := saved[..n];
      OffersLoadIff(rest);
      assert OffersGood(saved) ==> OffersGood(rest);
      if LoadOffers(rest).Some? {
        IdLoaded(rest, saved[n].offerId);
        KeyLoaded(rest, SavedKey(saved[n]));
        OneMoreGood(saved);
      }
    }
  }

  lemma OneMoreGood(saved: seq<PersistedOffer>)
    requires saved != [] && OffersGood(saved[..|saved| - 1])
    ensures var n := |saved| - 1; var rest, p := saved[..n], saved[n];
      OffersGood(saved) <==> GoodOffer(p) && !(exists i | 0 <= i < |rest| :: rest[i].offerId == p.offerId)
                             && !(exists i | 0 <= i < |rest| :: (rest[i].client, rest[i].request.requestId) == (p.client, p.request.requestId))
  {
    hide GoodOffer;
    var n := |saved| - 1;
    var rest := saved[..n];
    forall i | 0 <= i < n ensures rest[i] == saved[i] {}
  }

  predicate GoodExecution(p: PersistedExecution) {
    && p.id != "" && p.offerId != "" && p.resourceClass != "" && p.request.requestId != "" && p.phase in {1, 2, 3, 4, 5, 6}
    && p.startedAt != UNSET && p.occurredAt != UNSET && (p.released <==> p.phase in {4, 5, 6})
  }

  predicate ExecutionsGood(saved: seq<PersistedExecution>) {
    && (forall i | 0 <= i < |saved| :: GoodExecution(saved[i]))
    && (forall i, j | 0 <= i < j < |saved| :: saved[i].id != saved[j].id)
  }

  lemma GoodExecutionIs(p: PersistedExecution)
    ensures GoodExecution(p) <==> ExecutionLoadable(p)
  {
  }

  lemma NameLoaded(cfg: Config, saved: seq<PersistedExecution>, now: Time, x: string)
    requires LoadExecutions(cfg, saved, now).Some?
    ensures x in LoadExecutions(cfg, saved, now).value <==> exists i | 0 <= i < |saved| :: saved[i].id == x
  {
    hide LoadExecutions;
    if x in LoadExecutions(cfg, saved, now).value { var i := ExecutionLoadedFrom(cfg, saved, now, x); }
    if i :| 0 <= i < |saved| && saved[i].id == x { ExecutionLoadedAt(cfg, saved, now, i); }
  }

  lemma {:induction false} ExecutionsLoadIff(cfg: Config, saved: seq<PersistedExecution>, now: Time)
    ensures LoadExecutions(cfg, saved, now).Some? <==> ExecutionsGood(saved)
  {
    hide LoadExecution, ExecutionLoadable, GoodExecution;
    if saved != [] {
      var n := |saved| - 1;
      var rest := saved[..n];
      ExecutionsLoadIff(cfg, rest, now);
      GoodExecutionIs(saved[n]);
      forall i | 0 <= i < n ensures rest[i] == saved[i] {}
      if LoadExecutions(cfg, rest, now).Some? { NameLoaded(cfg, rest, now, saved[n].id); }
    }
  }

  // ---------------------------------------------------------------------- fitting together

  /** The execution the file has under an ID. */
  predicate OnFile(snap: Snapshot, x: string, j: nat) {
    j < |snap.executions| && snap.executions[j].id == x
  }

  /** An assigned offer's execution is on file, names it back and has its class. */
  predicate AssignedOnFile(snap: Snapshot) {
    forall i | 0 <= i < |snap.offers| && snap.offers[i].status == 2 :: exists j: nat | j < |snap.executions| :: NamesBack(snap, snap.offers[i], j)
  }

  predicate NamesBack(snap: Snapshot, p: PersistedOffer, j: nat) {
    OnFile(snap, p.execution, j) && snap.executions[j].offerId == p.offerId && snap.executions[j].resourceClass == p.resourceClass
  }

  /** The offer keeps a slot: it is open at `now`, or its execution on file has not given its slot back. */
  predicate HeldOnFile(snap: Snapshot, p: PersistedOffer, now: Time) {
    || (p.status == 1 && p.expiresAt > now)
    || (p.status == 2 && exists j: nat | j < |snap.executions| :: OnFile(snap, p.execution, j) && !snap.executions[j].released)
  }

  function HeldIds(snap: Snapshot, c: string, now: Time): set<string> {
    set i | 0 <= i < |snap.offers| && snap.offers[i].resourceClass == c && HeldOnFile(snap, snap.offers[i], now) :: snap.offers[i].offerId
  }

  ghost predicate SlotsFit(cfg: Config, snap: Snapshot, now: Time) {
    forall c :: |HeldIds(snap, c, now)| <= if c in cfg.limits then cfg.limits[c] else 0
  }

  lemma MatchedIs(cfg: Config, snap: Snapshot, now: Time)
    requires LoadOffers(snap.offers).Some? && LoadExecutions(cfg, snap.executions, now).Some?
    ensures Matched(Lapsed(LoadOffers(snap.offers).value.0, now), LoadExecutions(cfg, snap.executions, now).value) <==> AssignedOnFile(snap)
  {
    var offers, executions := LoadOffers(snap.offers).value.0, LoadExecutions(cfg, snap.executions, now).value;
    hide LoadOffers, LoadExecutions;
    if AssignedOnFile(snap) {
      forall id | id in offers && Lapse(offers[id], now).status == Assigned
        ensures var x := offers[id].execution; x in executions && executions[x].offerId == id && executions[x].resourceClass == offers[id].resourceClass
      {
        var i := OfferLoadedFrom(snap.offers, id);
        OfferLoadedAt(snap.offers, i);
        var j: nat :| j < |snap.executions| && NamesBack(snap, snap.offers[i], j);
        ExecutionLoadedAt(cfg, snap.executions, now, j);
      }
    }
    if Matched(Lapsed(offers, now), executions) {
      forall i | 0 <= i < |snap.offers| && snap.offers[i].status == 2
        ensures exists j: nat | j < |snap.executions| :: NamesBack(snap, snap.offers[i], j)
      {
        OfferLoadedAt(snap.offers, i);
        var id := snap.offers[i].offerId;
        assert Lapsed(offers, now)[id].status == Assigned;
        var j := ExecutionLoadedFrom(cfg, snap.executions, now, snap.offers[i].execution);
        ExecutionLoadedAt(cfg, snap.executions, now, j);
        assert NamesBack(snap, snap.offers[i], j);
      }
    }
  }

  lemma HeldIs(cfg: Config, snap: Snapshot, now: Time, i: nat)
    requires LoadOffers(snap.offers).Some? && LoadExecutions(cfg, snap.executions, now).Some? && i < |snap.offers|
    ensures var offers, executions := LoadOffers(snap.offers).value.0, LoadExecutions(cfg, snap.executions, now).value;
      && snap.offers[i].offerId in offers
      && (Holds(Lapse(offers[snap.offers[i].offerId], now), executions) <==> HeldOnFile(snap, snap.offers[i], now))
  {
    hide LoadOffers, LoadExecutions;
    OfferLoadedAt(snap.offers, i);
    var p, executions := snap.offers[i], LoadExecutions(cfg, snap.executions, now).value;
    if p.execution in executions {
      var j := ExecutionLoadedFrom(cfg, snap.executions, now, p.execution);
      ExecutionLoadedAt(cfg, snap.executions, now, j);
      assert OnFile(snap, p.execution, j);
    }
    forall j: nat | OnFile(snap, p.execution, j) ensures p.execution in executions && executions[p.execution].released == snap.executions[j].released {
      ExecutionLoadedAt(cfg, snap.executions, now, j);
    }
  }

  lemma HeldSet(cfg: Config, snap: Snapshot, now: Time, c: string)
    requires LoadOffers(snap.offers).Some? && LoadExecutions(cfg, snap.executions, now).Some?
    ensures var offers, executions := Lapsed(LoadOffers(snap.offers).value.0, now), LoadExecutions(cfg, snap.executions, now).value;
      OfClass(offers, HoldingIds(offers, executions), c) == HeldIds(snap, c, now)
  {
    var loaded, executions := LoadOffers(snap.offers).value.0, LoadExecutions(cfg, snap.executions, now).value;
    var offers := Lapsed(loaded, now);
    hide LoadOffers, LoadExecutions, HeldOnFile, Holds;
    forall id | id in OfClass(offers, HoldingIds(offers, executions), c) ensures id in HeldIds(snap, c, now) {
      var i := OfferLoadedFrom(snap.offers, id);
      OfferLoadedAt(snap.offers, i);
      HeldIs(cfg, snap, now, i);
      assert snap.offers[i].offerId == id;
    }
    forall id | id in HeldIds(snap, c, now) ensures id in OfClass(offers, HoldingIds(offers, executions), c) {
      var i :| 0 <= i < |snap.offers| && snap.offers[i].resourceClass == c && HeldOnFile(snap, snap.offers[i], now) && snap.offers[i].offerId == id;
      OfferLoadedAt(snap.offers, i);
      HeldIs(cfg, snap, now, i);
    }
  }

  lemma FitIs(cfg: Config, snap: Snapshot, now: Time)
    requires LoadOffers(snap.offers).Some? && LoadExecutions(cfg, snap.executions, now).Some?
    ensures var offers, executions := Lapsed(LoadOffers(snap.offers).value.0, now), LoadExecutions(cfg, snap.executions, now).value;
      WithinLimits(cfg, Tally(offers, HoldingIds(offers, executions))) <==> SlotsFit(cfg, snap, now)
  {
    var offers, executions := Lapsed(LoadOffers(snap.offers).value.0, now), LoadExecutions(cfg, snap.executions, now).value;
    hide LoadOffers, LoadExecutions, HeldIds, OfClass, HoldingIds, Lapsed;
    assert HoldingIds(offers, executions) <= offers.Keys by { HoldingThere(offers, executions); }
    forall c ensures Tally(offers, HoldingIds(offers, executions))[c] == |HeldIds(snap, c, now)| { HeldSet(cfg, snap, now, c); }
  }

  lemma HoldingThere(offers: map<string, Offer>, executions: map<string, Execution>)
    ensures HoldingIds(offers, executions) <= offers.Keys
  {
  }

  /** The loader accepts a snapshot if and only if it is of a known version and this allocator's own, every record is
      well-formed and none comes twice, every assigned offer has its execution on file, and the slots held fit. */
  lemma LoadableExactly(cfg: Config, identity: Identity, snap: Snapshot, now: Time)
    ensures Loadable(cfg, identity, snap, now) <==>
      && (snap.version == 1 || snap.version == 2) && snap.identity == identity
      && OffersGood(snap.offers) && ExecutionsGood(snap.executions) && AssignedOnFile(snap) && SlotsFit(cfg, snap, now)
  {
    hide LoadOffers, LoadExecutions, OffersGood, ExecutionsGood, AssignedOnFile, SlotsFit, Matched, WithinLimits, HoldingIds, Lapsed;
    OffersLoadIff(snap.offers);
    ExecutionsLoadIff(cfg, snap.executions, now);
    if LoadOffers(snap.offers).Some? && LoadExecutions(cfg, snap.executions, now).Some? {
      MatchedIs(cfg, snap, now);
      FitIs(cfg, snap, now);
    }
  }

  // ------------------------------------------------------------------------------ contents

  function StatusNamed(code: int): OfferStatus
    requires code in {1, 2, 3, 4}
  {
    match code case 1 => OfferStatus.Outstanding case 2 => OfferStatus.Assigned case 3 => OfferStatus.Expired case _ => OfferStatus.Released
  }

  function PhaseNamed(code: int): Phase
    requires code in {1, 2, 3, 4, 5, 6}
  {
    match code
    case 1 => Phase.Starting
    case 2 => Phase.Running
    case 3 => Phase.Cancelling
    case 4 => Phase.Cancelled
    case 5 => Phase.Completed
    case _ => Phase.Failed
  }

  /** Each record on file comes back as what its numbers say, an open offer expired if its time has come, an execution with
      the defaults older files lack; finished answers come back, the last of each key; nothing else does. */
  lemma LoadedContents(cfg: Config, identity: Identity, snap: Snapshot, now: Time, i: nat, j: nat)
    requires Loadable(cfg, identity, snap, now)
    ensures var s := Loaded(cfg, snap, now); s.tombstones == snap.tombstones && s.highWater == snap.highWater
    ensures i < |snap.offers| ==>
      var s, p := Loaded(cfg, snap, now), snap.offers[i];
      && p.status in {1, 2, 3, 4} && p.offerId in s.offers && (p.client, p.requestId) in s.requests && s.requests[(p.client, p.requestId)] == p.offerId
      && s.offers[p.offerId]
         == CommandLaws.At(Offer(p.requestId, p.resourceClass, p.expiresAt, p.request, p.client, StatusNamed(p.status), p.execution), now)
    ensures j < |snap.executions| ==>
      var s, p := Loaded(cfg, snap, now), snap.executions[j];
      && p.phase in {1, 2, 3, 4, 5, 6} && p.id in s.executions
      && s.executions[p.id] == LifeLaws.Restored(cfg, Execution(p.offerId, p.client, p.resourceClass, p.request, PhaseNamed(p.phase), p.detail, p.exitCode,
           p.occurredAt, p.startedAt, p.released, p.retainUntil, p.leaseUntil, p.revision), now)
  {
    hide LoadOffers, LoadExecutions, LoadedReplay, Fits;
    if i < |snap.offers| {
      OfferLoadedAt(snap.offers, i);
      KeyLoadedAt(snap.offers, i);
    }
    if j < |snap.executions| { ExecutionLoadedAt(cfg, snap.executions, now, j); }
  }

  lemma {:induction false} KeyLoadedAt(saved: seq<PersistedOffer>, i: nat)
    requires LoadOffers(saved).Some? && i < |saved|
    ensures var k := (saved[i].client, saved[i].request.requestId); k in LoadOffers(saved).value.1 && LoadOffers(saved).value.1[k] == saved[i].offerId
  {
    hide LoadOffer;
    var n := |saved| - 1;
    if i < n { KeyLoadedAt(saved[..n], i); }
  }

  /** Of the answers, exactly the finished ones come back, of two under one key the later. */
  lemma {:induction false} LoadedAnswers(saved: seq<PersistedReplay>, k: ReplayKey)
    ensures k in LoadedReplay(saved) <==> exists i | 0 <= i < |saved| :: saved[i].complete && saved[i].key == k
    ensures forall i | 0 <= i < |saved| && saved[i].complete && saved[i].key == k && (forall j | i < j < |saved| && saved[j].complete :: saved[j].key != k) ::
      k in LoadedReplay(saved) && LoadedReplay(saved)[k] == ReplayEntry(saved[i].seenAt, saved[i].envelope, true, saved[i].reply)
  {
    if saved != [] {
      var n := |saved| - 1;
      var rest := saved[..n];
      LoadedAnswers(rest, k);
      forall i | 0 <= i < n ensures rest[i] == saved[i] {}
    }
  }

  /** The numbers a save writes. */
  lemma SavedNumbers(snap: Snapshot, identity: Identity, s: State, i: nat, j: nat)
    requires IsSnapshotOf(snap, identity, s)
    ensures snap.version == 2 && snap.identity == identity && snap.highWater == s.highWater && snap.tombstones == s.tombstones
    ensures i < |snap.offers| ==> var p := snap.offers[i];
      p.offerId in s.offers && p.status in {1, 2, 3, 4} && StatusNamed(p.status) == s.offers[p.offerId].status && p.expiresAt == s.offers[p.offerId].expiresAt
    ensures j < |snap.executions| ==> var p := snap.executions[j];
      p.id in s.executions && (s.executions[p.id].phase != Unspecified ==> p.phase in {1, 2, 3, 4, 5, 6} && PhaseNamed(p.phase) == s.executions[p.id].phase)
  {
    hide ReplaySaved, OffersDistinct, ExecutionsDistinct, OfferIds, ExecutionIds;
  }
}
