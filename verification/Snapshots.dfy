/** The durable snapshot: what a save writes, which snapshots the loader
    accepts, and what it makes of them. */
module Snapshots {
  import opened Protocol
  import opened AllocatorState
  import opened AllocatorInvariant
  import opened AllocatorRuns
  import opened WorldInvariant
  import opened AllocatorTheorems

  const STATE_VERSION := 2

  datatype PersistedOffer = PersistedOffer(
    offerId: string, requestId: string, resourceClass: string, expiresAt: Time, request: Request,
    client: Identity, status: int, execution: string)

  datatype PersistedExecution = PersistedExecution(
    id: string, offerId: string, client: Identity, resourceClass: string, request: Request, phase: int, detail: string,
    exitCode: Option<int>, occurredAt: Time, startedAt: Time, released: bool, revision: nat, retainUntil: Time, leaseUntil: Time)

  datatype PersistedReplay = PersistedReplay(key: ReplayKey, seenAt: Time, envelope: Envelope, complete: bool, reply: Reply)

  datatype Snapshot = Snapshot(
    version: int, identity: Identity, highWater: Time, tombstones: map<string, Tombstone>,
    offers: seq<PersistedOffer>, executions: seq<PersistedExecution>, replay: seq<PersistedReplay>)

  // -------------------------------------------------------------------- codes

  function StatusCode(status: OfferStatus): int {
    match status case Outstanding => 1 case Assigned => 2 case Expired => 3 case Released => 4
  }

  function StatusOf(code: int): OfferStatus
    requires 1 <= code <= 4
  {
    if code == 1 then Outstanding else if code == 2 then Assigned else if code == 3 then Expired else Released
  }

  function PhaseCode(phase: Phase): int {
    match phase
    case Unspecified => 0 case Starting => 1 case Running => 2 case Cancelling => 3
    case Cancelled => 4 case Completed => 5 case Failed => 6
  }

  function PhaseOf(code: int): Phase
    requires 1 <= code <= 6
  {
    if code == 1 then Starting else if code == 2 then Running else if code == 3 then Phase.Cancelling
    else if code == 4 then Cancelled else if code == 5 then Completed else Failed
  }

  // ------------------------------------------------------------------- saving

  function SaveOffer(id: string, o: Offer): PersistedOffer {
    PersistedOffer(id, o.requestId, o.resourceClass, o.expiresAt, o.request, o.client, StatusCode(o.status), o.execution)
  }

  function SaveExecution(x: string, r: Execution): PersistedExecution {
    PersistedExecution(x, r.offerId, r.client, r.resourceClass, r.request, PhaseCode(r.phase), r.detail, r.exitCode,
                       r.occurredAt, r.startedAt, r.released, r.revision, r.retainUntil, r.leaseUntil)
  }

  /** Only a finished entry's answer is written. */
  function SaveEntry(k: ReplayKey, e: ReplayEntry): PersistedReplay {
    PersistedReplay(k, e.seenAt, e.envelope, e.done, if e.done then e.reply else Reply([], None))
  }

  function OfferIds(saved: seq<PersistedOffer>): set<string> {
    set i | 0 <= i < |saved| :: saved[i].offerId
  }

  function ExecutionIds(saved: seq<PersistedExecution>): set<string> {
    set i | 0 <= i < |saved| :: saved[i].id
  }

  function EntryKeys(saved: seq<PersistedReplay>): set<ReplayKey> {
    set i | 0 <= i < |saved| :: saved[i].key
  }

  predicate OffersDistinct(saved: seq<PersistedOffer>) {
    forall i, j | 0 <= i < j < |saved| :: saved[i].offerId != saved[j].offerId
  }

  predicate ExecutionsDistinct(saved: seq<PersistedExecution>) {
    forall i, j | 0 <= i < j < |saved| :: saved[i].id != saved[j].id
  }

  predicate EntriesDistinct(saved: seq<PersistedReplay>) {
    forall i, j | 0 <= i < j < |saved| :: saved[i].key != saved[j].key
  }

  /** `saved` holds each of the offers named by `ids` once, in any order. */
  predicate OffersSaved(saved: seq<PersistedOffer>, offers: map<string, Offer>, ids: set<string>) {
    && OffersDistinct(saved) && OfferIds(saved) == ids
    && forall i | 0 <= i < |saved| :: saved[i].offerId in offers && saved[i] == SaveOffer(saved[i].offerId, offers[saved[i].offerId])
  }

  predicate ExecutionsSaved(saved: seq<PersistedExecution>, executions: map<string, Execution>, ids: set<string>) {
    && ExecutionsDistinct(saved) && ExecutionIds(saved) == ids
    && forall i | 0 <= i < |saved| :: saved[i].id in executions && saved[i] == SaveExecution(saved[i].id, executions[saved[i].id])
  }

  predicate ReplaySaved(saved: seq<PersistedReplay>, replay: map<ReplayKey, ReplayEntry>, keys: set<ReplayKey>) {
    && EntriesDistinct(saved) && EntryKeys(saved) == keys
    && forall i | 0 <= i < |saved| :: saved[i].key in replay && saved[i] == SaveEntry(saved[i].key, replay[saved[i].key])
  }

  predicate IsSnapshotOf(snap: Snapshot, identity: Identity, s: State) {
    && snap.version == STATE_VERSION && snap.identity == identity
    && snap.highWater == s.highWater && snap.tombstones == s.tombstones
    && OffersSaved(snap.offers, s.offers, s.offers.Keys)
    && ExecutionsSaved(snap.executions, s.executions, s.executions.Keys)
    && ReplaySaved(snap.replay, s.replay, s.replay.Keys)
  }

  // ------------------------------------------------------------------ loading

  predicate OfferLoadable(p: PersistedOffer) {
    p.offerId != "" && p.request.requestId != "" && p.requestId == p.request.requestId && 1 <= p.status <= 4
  }

  function SavedKey(p: PersistedOffer): RequestKey {
    (p.client, p.request.requestId)
  }

  function LoadOffer(p: PersistedOffer): Offer
    requires OfferLoadable(p)
  {
    Offer(p.requestId, p.resourceClass, p.expiresAt, p.request, p.client, StatusOf(p.status), p.execution)
  }

  /** The offers and the request index the loader builds; none if a record is malformed or an ID or request repeats. */
  function LoadOffers(saved: seq<PersistedOffer>): (r: Option<(map<string, Offer>, map<RequestKey, string>)>) {
    if saved == [] then Some((map[], map[])) else
    var p, rest := saved[|saved| - 1], LoadOffers(saved[..|saved| - 1]);
    if rest.None? || !OfferLoadable(p) || p.offerId in rest.value.0 || SavedKey(p) in rest.value.1 then None
    else Some((rest.value.0[p.offerId := LoadOffer(p)], rest.value.1[SavedKey(p) := p.offerId]))
  }

  predicate ExecutionLoadable(p: PersistedExecution) {
    && p.id != "" && p.offerId != "" && p.resourceClass != "" && p.request.requestId != "" && 1 <= p.phase <= 6
    && p.startedAt != UNSET && p.occurredAt != UNSET && Terminal(PhaseOf(p.phase)) == p.released
  }

  function LoadExecution(cfg: Config, p: PersistedExecution, now: Time): Execution
    requires ExecutionLoadable(p)
  {
    LoadedExecution(cfg, Execution(p.offerId, p.client, p.resourceClass, p.request, PhaseOf(p.phase), p.detail, p.exitCode,
                                   p.occurredAt, p.startedAt, p.released, p.retainUntil, p.leaseUntil, p.revision), now)
  }

  function LoadExecutions(cfg: Config, saved: seq<PersistedExecution>, now: Time): (r: Option<map<string, Execution>>) {
    if saved == [] then Some(map[]) else
    var p, rest := saved[|saved| - 1], LoadExecutions(cfg, saved[..|saved| - 1], now);
    if rest.None? || !ExecutionLoadable(p) || p.id in rest.value then None
    else Some(rest.value[p.id := LoadExecution(cfg, p, now)])
  }

  /** Unfinished entries are skipped; of two entries under one key the later wins. A key always holds its separator,
      so the loader's test for an empty key never decides. */
  function LoadedReplay(saved: seq<PersistedReplay>): map<ReplayKey, ReplayEntry> {
    if saved == [] then map[] else
    var n := |saved| - 1;
    var rest := LoadedReplay(saved[..n]);
    if saved[n].complete then rest[saved[n].key := ReplayEntry(saved[n].seenAt, saved[n].envelope, true, saved[n].reply)]
    else rest
  }

  predicate Matched(offers: map<string, Offer>, executions: map<string, Execution>) {
    forall id | id in offers && offers[id].status == Assigned ::
      && offers[id].execution in executions && executions[offers[id].execution].offerId == id
      && executions[offers[id].execution].resourceClass == offers[id].resourceClass
  }

  function Lapsed(offers: map<string, Offer>, now: Time): map<string, Offer> {
    map id | id in offers :: Lapse(offers[id], now)
  }

  /** Every check of the loader. */
  ghost predicate Loadable(cfg: Config, identity: Identity, snap: Snapshot, now: Time) {
    && (snap.version == 1 || snap.version == STATE_VERSION) && snap.identity == identity
    && LoadOffers(snap.offers).Some? && LoadExecutions(cfg, snap.executions, now).Some?
    && Fits(cfg, Lapsed(LoadOffers(snap.offers).value.0, now), LoadExecutions(cfg, snap.executions, now).value)
  }

  /** The loader's last pass: assigned offers have their execution, and every slot held fits. */
  ghost predicate Fits(cfg: Config, offers: map<string, Offer>, executions: map<string, Execution>) {
    Matched(offers, executions) && WithinLimits(cfg, Tally(offers, HoldingIds(offers, executions)))
  }

  ghost function Loaded(cfg: Config, snap: Snapshot, now: Time): State
    requires LoadOffers(snap.offers).Some? && LoadExecutions(cfg, snap.executions, now).Some?
  {
    var (offers, requests) := LoadOffers(snap.offers).value;
    var executions := LoadExecutions(cfg, snap.executions, now).value;
    State(Lapsed(offers, now), requests, executions, Tally(Lapsed(offers, now), HoldingIds(Lapsed(offers, now), executions)),
          LoadedReplay(snap.replay), snap.tombstones, snap.highWater)
  }

  // ------------------------------------------------------------------ closure

  lemma OfferReloads(cfg: Config, id: string, o: Offer)
    requires OfferShape(cfg, id, o)
    ensures OfferLoadable(SaveOffer(id, o)) && LoadOffer(SaveOffer(id, o)) == o && SavedKey(SaveOffer(id, o)) == KeyOf(o)
  {
  }

  function Restrict<K, V>(m: map<K, V>, keys: set<K>): map<K, V> {
    map k | k in m && k in keys :: m[k]
  }

  function IndexOf(requests: map<RequestKey, string>, ids: set<string>): map<RequestKey, string> {
    map k | k in requests && requests[k] in ids :: requests[k]
  }

  lemma RestrictMore<K, V>(m: map<K, V>, keys: set<K>, k: K)
    requires k in m && k in keys
    ensures Restrict(m, keys) == Restrict(m, keys - {k})[k := m[k]]
  {
  }

  lemma IndexMore(offers: map<string, Offer>, requests: map<RequestKey, string>, ids: set<string>, id: string)
    requires Indexed(offers, requests) && id in offers && id in ids
    ensures KeyOf(offers[id]) !in IndexOf(requests, ids - {id})
    ensures IndexOf(requests, ids) == IndexOf(requests, ids - {id})[KeyOf(offers[id]) := id]
  {
  }

  lemma SavedLess(saved: seq<PersistedOffer>, offers: map<string, Offer>, ids: set<string>)
    requires saved != [] && OffersSaved(saved, offers, ids)
    ensures var n := |saved| - 1;
      && saved[n].offerId in ids && saved[n].offerId in offers && saved[n] == SaveOffer(saved[n].offerId, offers[saved[n].offerId])
      && OffersSaved(saved[..n], offers, ids - {saved[n].offerId})
  {
    hide SaveOffer;
    var n := |saved| - 1;
    assert saved[n].offerId in OfferIds(saved);
    assert OfferIds(saved[..n]) == ids - {saved[n].offerId} by {
      assert forall k | k in ids - {saved[n].offerId} :: exists i | 0 <= i < n :: saved[..n][i].offerId == k;
    }
  }

  lemma {:induction false} OffersReload(cfg: Config, saved: seq<PersistedOffer>, offers: map<string, Offer>,
                                        requests: map<RequestKey, string>, ids: set<string>)
    requires OffersSaved(saved, offers, ids) && Offered(cfg, offers) && Indexed(offers, requests)
    ensures LoadOffers(saved) == Some((Restrict(offers, ids), IndexOf(requests, ids)))
  {
    if saved == [] {
      assert ids == {};
    } else {
      hide OffersSaved, SaveOffer, LoadOffer, SavedKey, Indexed, KeyOf, OfferLoadable, IndexOf;
      var n := |saved| - 1;
      SavedLess(saved, offers, ids);
      var id := saved[n].offerId;
      OffersReload(cfg, saved[..n], offers, requests, ids - {id});
      assert OfferShape(cfg, id, offers[id]);
      OfferReloads(cfg, id, offers[id]);
      RestrictMore(offers, ids, id);
      IndexMore(offers, requests, ids, id);
    }
  }

  lemma SavedFewer(saved: seq<PersistedExecution>, executions: map<string, Execution>, ids: set<string>)
    requires saved != [] && ExecutionsSaved(saved, executions, ids)
    ensures var n := |saved| - 1;
      && saved[n].id in ids && saved[n].id in executions && saved[n] == SaveExecution(saved[n].id, executions[saved[n].id])
      && ExecutionsSaved(saved[..n], executions, ids - {saved[n].id})
  {
    hide SaveExecution;
    var n := |saved| - 1;
    assert saved[n].id in ExecutionIds(saved);
    assert ExecutionIds(saved[..n]) == ids - {saved[n].id} by {
      assert forall k | k in ids - {saved[n].id} :: exists i | 0 <= i < n :: saved[..n][i].id == k;
    }
  }

  function Revised(cfg: Config, executions: map<string, Execution>, now: Time): map<string, Execution> {
    map x | x in executions :: LoadedExecution(cfg, executions[x], now)
  }

  lemma {:induction false} ExecutionsReload(cfg: Config, saved: seq<PersistedExecution>, s: State, now: Time, ids: set<string>)
    requires ExecutionsSaved(saved, s.executions, ids)
    requires ValidConfig(cfg) && Offered(cfg, s.offers) && Paired(s.offers, s.executions) && Shaped(s.executions)
    ensures LoadExecutions(cfg, saved, now) == Some(Restrict(Revised(cfg, s.executions, now), ids))
  {
    if saved == [] {
      assert ids == {};
    } else {
      hide ExecutionsSaved, Offered, Paired, Shaped, ExecutionLoadable, LoadedExecution;
      var n := |saved| - 1;
      SavedFewer(saved, s.executions, ids);
      ExecutionsReload(cfg, saved[..n], s, now, ids - {saved[n].id});
      ExecutionReloads(cfg, saved[n].id, s);
      RestrictMore(Revised(cfg, s.executions, now), ids, saved[n].id);
    }
  }

  lemma ExecutionReloads(cfg: Config, x: string, s: State)
    requires ValidConfig(cfg) && Offered(cfg, s.offers) && Paired(s.offers, s.executions) && Shaped(s.executions)
    requires x in s.executions
    ensures ExecutionLoadable(SaveExecution(x, s.executions[x]))
    ensures PhaseOf(PhaseCode(s.executions[x].phase)) == s.executions[x].phase
  {
    var r := s.executions[x];
    assert ExecutionShape(x, r) && Backs(r.offerId, s.offers[r.offerId], x, r);
    assert OfferShape(cfg, r.offerId, s.offers[r.offerId]);
  }

  lemma {:induction false} ReplayReload(saved: seq<PersistedReplay>, replay: map<ReplayKey, ReplayEntry>, keys: set<ReplayKey>)
    requires ReplaySaved(saved, replay, keys)
    ensures LoadedReplay(saved) == map k | k in replay && k in keys && replay[k].done :: replay[k]
  {
    if saved == [] {
      assert keys == {};
    } else {
      var n := |saved| - 1;
      var last, rest := saved[n].key, keys - {saved[n].key};
      assert EntryKeys(saved[..n]) == rest by {
        assert forall k | k in rest :: exists i | 0 <= i < n :: saved[..n][i].key == k;
      }
      ReplayReload(saved[..n], replay, rest);
      assert last in keys;
    }
  }

  lemma MatchedReload(offers: map<string, Offer>, executions: map<string, Execution>)
    requires Paired(offers, executions)
    ensures Matched(offers, executions)
  {
    forall id | id in offers && offers[id].status == Assigned
      ensures executions[offers[id].execution].resourceClass == offers[id].resourceClass
    {
      var x := offers[id].execution;
      assert Backs(executions[x].offerId, offers[executions[x].offerId], x, executions[x]);
    }
  }

  /** Every snapshot of a state that keeps the invariant passes every check of
      the loader, and loading it gives exactly the reloaded state. */
  lemma SnapshotCloses(cfg: Config, identity: Identity, snap: Snapshot, s: State, now: Time)
    requires ValidConfig(cfg) && Inv(cfg, s) && IsSnapshotOf(snap, identity, s)
    ensures Loadable(cfg, identity, snap, now) && Loaded(cfg, snap, now) == Reload(cfg, s, now)
    ensures Inv(cfg, Loaded(cfg, snap, now))
  {
    hide Offered, Indexed, Paired, Shaped, WithinLimits, Budgeted, QuotasKept, ReplaySound, OffersSaved,
         ExecutionsSaved, ReplaySaved, LoadOffers, LoadExecutions, LoadedReplay, Matched, HoldingIds, LoadedExecution, Lapse;
    OffersReload(cfg, snap.offers, s.offers, s.requests, s.offers.Keys);
    ExecutionsReload(cfg, snap.executions, s, now, s.executions.Keys);
    ReplayReload(snap.replay, s.replay, s.replay.Keys);
    RestrictAll(s.offers, Revised(cfg, s.executions, now));
    IndexAll(s.offers, s.requests);
    assert Revised(cfg, s.executions, now).Keys == s.executions.Keys;
    LoadedIs(cfg, snap, s, now);
    ReloadInv(cfg, s, now);
    MatchedReload(Reload(cfg, s, now).offers, Reload(cfg, s, now).executions);
  }

  lemma LoadedIs(cfg: Config, snap: Snapshot, s: State, now: Time)
    requires LoadOffers(snap.offers) == Some((s.offers, s.requests))
    requires LoadExecutions(cfg, snap.executions, now) == Some(Revised(cfg, s.executions, now))
    requires LoadedReplay(snap.replay) == map k | k in s.replay && k in s.replay.Keys && s.replay[k].done :: s.replay[k]
    requires snap.highWater == s.highWater && snap.tombstones == s.tombstones
    ensures Loaded(cfg, snap, now) == Reload(cfg, s, now)
    ensures Reload(cfg, s, now).offers == Lapsed(s.offers, now) && Reload(cfg, s, now).executions == Revised(cfg, s.executions, now)
  {
    var t := Reload(cfg, s, now);
    hide LoadOffers, LoadExecutions, LoadedReplay, HoldingIds, Lapse, LoadedExecution;
    assert t.offers == Lapsed(s.offers, now) && t.executions == Revised(cfg, s.executions, now);
    assert t.replay == LoadedReplay(snap.replay);
  }

  lemma RestrictAll(offers: map<string, Offer>, executions: map<string, Execution>)
    ensures Restrict(offers, offers.Keys) == offers && Restrict(executions, executions.Keys) == executions
  {
  }

  lemma IndexAll(offers: map<string, Offer>, requests: map<RequestKey, string>)
    requires Indexed(offers, requests)
    ensures IndexOf(requests, offers.Keys) == requests
  {
  }

  /** The snapshot of any state a run reaches loads, whatever the clock reads then. */
  lemma ReachableSnapshotLoads(cfg: Config, identity: Identity, w: World, snap: Snapshot, now: Time)
    requires Reachable(cfg, w) && (IsSnapshotOf(snap, identity, w.mem) || IsSnapshotOf(snap, identity, w.disk))
    ensures Loadable(cfg, identity, snap, now) && Inv(cfg, Loaded(cfg, snap, now))
    ensures IsSnapshotOf(snap, identity, w.disk) ==> Loaded(cfg, snap, now) == Restarting(cfg, w, now).mem
  {
    hide IsSnapshotOf, Inv, Loadable, Loaded, Reload, ThreadsSound, Hist, LogSound, Reachable;
    ReachableInv(cfg, w);
    assert ValidConfig(cfg) by { ReachableConfig(cfg, w); }
    if IsSnapshotOf(snap, identity, w.disk) {
      SnapshotCloses(cfg, identity, snap, w.disk, now);
    } else {
      SnapshotCloses(cfg, identity, snap, w.mem, now);
    }
  }

  lemma ReachableConfig(cfg: Config, w: World)
    requires Reachable(cfg, w)
    ensures ValidConfig(cfg)
  {
  }
}
