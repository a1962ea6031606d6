/** What every locked section of the allocator keeps. Each step of the machine
    is a composition of a few updates; each update has one preservation lemma. */
module AllocatorInvariant {
  import opened Protocol
  import opened AllocatorState

  predicate OfferShape(cfg: Config, id: string, o: Offer) {
    id != "" && o.requestId != "" && o.request.requestId == o.requestId && o.resourceClass in cfg.limits
  }

  predicate Offered(cfg: Config, offers: map<string, Offer>) {
    forall id | id in offers :: OfferShape(cfg, id, offers[id])
  }

  /** The request index and the offers name each other exactly. */
  predicate Indexed(offers: map<string, Offer>, requests: map<RequestKey, string>) {
    && (forall id | id in offers :: KeyOf(offers[id]) in requests && requests[KeyOf(offers[id])] == id)
    && (forall k | k in requests :: requests[k] in offers && KeyOf(offers[requests[k]]) == k)
  }

  predicate Backs(id: string, o: Offer, x: string, r: Execution) {
    && o.status == Assigned && o.execution == x
    && r.offerId == id && r.client == o.client && r.resourceClass == o.resourceClass && r.request == o.request
  }

  /** Executions and assigned offers correspond one to one. */
  predicate Paired(offers: map<string, Offer>, executions: map<string, Execution>) {
    && (forall id | id in offers && offers[id].status == Assigned ::
          offers[id].execution in executions && executions[offers[id].execution].offerId == id)
    && (forall id | id in offers && offers[id].status != Assigned :: offers[id].execution == "")
    && (forall x | x in executions ::
          executions[x].offerId in offers && Backs(executions[x].offerId, offers[executions[x].offerId], x, executions[x]))
  }

  predicate ExecutionShape(x: string, r: Execution) {
    && x != "" && r.phase != Unspecified && r.released == Terminal(r.phase)
    && r.startedAt > UNSET && r.occurredAt > UNSET && r.revision >= 1
    && (if Terminal(r.phase) then r.retainUntil > UNSET else r.leaseUntil > UNSET)
  }

  predicate Shaped(executions: map<string, Execution>) {
    forall x | x in executions :: ExecutionShape(x, executions[x])
  }

  /** The ledger counts exactly the offers that hold a slot. */
  ghost predicate LedgerExact(s: State) {
    s.used == Tally(s.offers, HoldingIds(s.offers, s.executions))
  }

  ghost predicate WithinLimits(cfg: Config, used: multiset<string>) {
    forall c :: used[c] <= Limit(cfg, c)
  }

  predicate Budgeted(cfg: Config, s: State) {
    2 * |s.offers| + |s.tombstones| <= cfg.maxRecords && s.offers.Keys !! s.tombstones.Keys
  }

  predicate QuotaKept(cfg: Config, offers: map<string, Offer>, executions: map<string, Execution>, c: Identity) {
    var q := QuotaOf(cfg, c);
    && (q.offers > 0 ==> |OutstandingOf(offers, c)| <= q.offers)
    && (q.executions > 0 ==> |LiveOf(executions, c)| <= q.executions)
  }

  ghost predicate QuotasKept(cfg: Config, s: State) {
    forall c :: QuotaKept(cfg, s.offers, s.executions, c)
  }

  predicate ReplaySound(cfg: Config, replay: map<ReplayKey, ReplayEntry>) {
    |replay| <= cfg.replayCapacity && forall k | k in replay :: ReplayKeyOf(replay[k].envelope) == k
  }

  ghost predicate Inv(cfg: Config, s: State) {
    && Offered(cfg, s.offers) && Indexed(s.offers, s.requests) && Paired(s.offers, s.executions) && Shaped(s.executions)
    && LedgerExact(s) && WithinLimits(cfg, s.used)
    && Budgeted(cfg, s) && QuotasKept(cfg, s) && ReplaySound(cfg, s.replay)
  }

  lemma EmptyInv(cfg: Config)
    requires ValidConfig(cfg)
    ensures Inv(cfg, EMPTY)
  {
    assert HoldingIds(EMPTY.offers, EMPTY.executions) == {};
    assert forall c :: OutstandingOf(EMPTY.offers, c) == {} && LiveOf(EMPTY.executions, c) == {};
  }

  // --------------------------------------------------------- counting slots

  lemma TallyAgrees(a: map<string, Offer>, b: map<string, Offer>, ids: set<string>)
    requires ids <= a.Keys && ids <= b.Keys
    requires forall id | id in ids :: a[id].resourceClass == b[id].resourceClass
    ensures Tally(a, ids) == Tally(b, ids)
  {
    assert forall c :: OfClass(a, ids, c) == OfClass(b, ids, c);
  }

  lemma TallySplits(offers: map<string, Offer>, part: set<string>, rest: set<string>)
    requires part + rest <= offers.Keys && part !! rest
    ensures Tally(offers, part + rest) == Tally(offers, part) + Tally(offers, rest)
  {
    forall c ensures Tally(offers, part + rest)[c] == (Tally(offers, part) + Tally(offers, rest))[c] {
      assert OfClass(offers, part + rest, c) == OfClass(offers, part, c) + OfClass(offers, rest, c);
    }
  }

  lemma TallyOne(offers: map<string, Offer>, id: string)
    requires id in offers
    ensures Tally(offers, {id}) == multiset{offers[id].resourceClass}
  {
    forall c ensures Tally(offers, {id})[c] == multiset{offers[id].resourceClass}[c] {
      assert OfClass(offers, {id}, c) == if offers[id].resourceClass == c then {id} else {};
    }
  }

  /** One holder stops holding: its class loses one slot, and the guard against zero is idle. */
  lemma TallyDrops(offers: map<string, Offer>, after: map<string, Offer>, ids: set<string>, id: string)
    requires ids <= offers.Keys && id in ids && ids - {id} <= after.Keys
    requires forall j | j in ids - {id} :: after[j].resourceClass == offers[j].resourceClass
    ensures offers[id].resourceClass in Tally(offers, ids)
    ensures Tally(after, ids - {id}) == Tally(offers, ids) - multiset{offers[id].resourceClass}
  {
    var k := offers[id].resourceClass;
    assert id in OfClass(offers, ids, k);
    forall c ensures Tally(after, ids - {id})[c] == (Tally(offers, ids) - multiset{k})[c] {
      assert OfClass(after, ids - {id}, c) == OfClass(offers, ids, c) - {id};
    }
  }

  // ------------------------------------------------------------ cardinality

  lemma SubsetSmaller<T>(a: set<T>, b: set<T>)
    requires a <= b
    ensures |a| <= |b| && |b - a| == |b| - |a|
  {
    assert b == a + (b - a);
  }

  lemma MapSize<K, V>(m: map<K, V>)
    ensures |m| == |m.Keys|
  {
  }

  lemma MapShrinks<K, V>(a: map<K, V>, b: map<K, V>)
    requires b.Keys <= a.Keys
    ensures |b| <= |a|
  {
    SubsetSmaller(b.Keys, a.Keys);
    MapSize(a);
    MapSize(b);
  }

  lemma QuotaShrinks(cfg: Config, offers: map<string, Offer>, executions: map<string, Execution>,
                     offers': map<string, Offer>, executions': map<string, Execution>, c: Identity)
    requires QuotaKept(cfg, offers, executions, c)
    requires OutstandingOf(offers', c) <= OutstandingOf(offers, c)
    requires LiveOf(executions', c) <= LiveOf(executions, c)
    ensures QuotaKept(cfg, offers', executions', c)
  {
    SubsetSmaller(OutstandingOf(offers', c), OutstandingOf(offers, c));
    SubsetSmaller(LiveOf(executions', c), LiveOf(executions, c));
  }

  lemma BudgetSame(cfg: Config, s: State, t: State)
    requires Budgeted(cfg, s) && t.offers.Keys == s.offers.Keys && t.tombstones == s.tombstones
    ensures Budgeted(cfg, t)
  {
    MapSize(s.offers);
    MapSize(t.offers);
  }

  // -------------------------------------------------- one offer, one execution

  lemma OfferedAt(cfg: Config, offers: map<string, Offer>, id: string, o: Offer)
    requires Offered(cfg, offers) && OfferShape(cfg, id, o)
    ensures Offered(cfg, offers[id := o])
  {
  }

  lemma ShapeOfOffer(cfg: Config, offers: map<string, Offer>, executions: map<string, Execution>, id: string)
    requires Offered(cfg, offers) && Paired(offers, executions) && id in offers
    ensures OfferShape(cfg, id, offers[id]) && (offers[id].status != Assigned ==> offers[id].execution == "")
  {
  }

  lemma ShapeOf(executions: map<string, Execution>, x: string)
    requires Shaped(executions) && x in executions
    ensures ExecutionShape(x, executions[x])
  {
  }

  lemma IndexedAt(offers: map<string, Offer>, requests: map<RequestKey, string>, id: string, o: Offer)
    requires Indexed(offers, requests) && id in offers && KeyOf(o) == KeyOf(offers[id])
    ensures Indexed(offers[id := o], requests)
  {
  }

  lemma IndexedNew(offers: map<string, Offer>, requests: map<RequestKey, string>, id: string, o: Offer)
    requires Indexed(offers, requests) && id !in offers && KeyOf(o) !in requests
    ensures Indexed(offers[id := o], requests[KeyOf(o) := id])
  {
  }

  lemma Unbound(offers: map<string, Offer>, executions: map<string, Execution>, id: string)
    requires Paired(offers, executions) && (id in offers ==> offers[id].status != Assigned)
    ensures forall y | y in executions :: executions[y].offerId != id
  {
  }

  lemma PairedOffer(offers: map<string, Offer>, executions: map<string, Execution>, id: string, o: Offer)
    requires Paired(offers, executions) && (id in offers ==> offers[id].status != Assigned)
    requires o.status != Assigned && o.execution == ""
    ensures Paired(offers[id := o], executions)
  {
    Unbound(offers, executions, id);
    hide Backs;
  }

  lemma PairedBind(offers: map<string, Offer>, executions: map<string, Execution>,
                   id: string, o: Offer, x: string, r: Execution)
    requires Paired(offers, executions) && id in offers && offers[id].status != Assigned && x !in executions
    requires Backs(id, o, x, r)
    ensures Paired(offers[id := o], executions[x := r])
  {
    Unbound(offers, executions, id);
    hide Backs;
  }

  predicate SameWork(r: Execution, r': Execution) {
    r'.offerId == r.offerId && r'.client == r.client && r'.resourceClass == r.resourceClass && r'.request == r.request
  }

  lemma PairedRecord(offers: map<string, Offer>, executions: map<string, Execution>, x: string, r: Execution)
    requires Paired(offers, executions) && x in executions && SameWork(executions[x], r)
    ensures Paired(offers, executions[x := r])
  {
  }

  lemma ShapedAt(executions: map<string, Execution>, x: string, r: Execution)
    requires Shaped(executions) && ExecutionShape(x, r)
    ensures Shaped(executions[x := r])
  {
  }

  // ------------------------------------------------------------------ expiry

  lemma LapseLinks(cfg: Config, offers: map<string, Offer>, requests: map<RequestKey, string>,
                   executions: map<string, Execution>, now: Time)
    requires Offered(cfg, offers) && Indexed(offers, requests) && Paired(offers, executions)
    ensures var after := map id | id in offers :: Lapse(offers[id], now);
            Offered(cfg, after) && Indexed(after, requests) && Paired(after, executions)
  {
    LapseIndexed(offers, requests, now);
    LapsePaired(offers, executions, now);
    hide Indexed, Paired;
  }

  lemma LapseIndexed(offers: map<string, Offer>, requests: map<RequestKey, string>, now: Time)
    requires Indexed(offers, requests)
    ensures Indexed(map id | id in offers :: Lapse(offers[id], now), requests)
  {
  }

  lemma LapsePaired(offers: map<string, Offer>, executions: map<string, Execution>, now: Time)
    requires Paired(offers, executions)
    ensures Paired(map id | id in offers :: Lapse(offers[id], now), executions)
  {
  }

  lemma LapseHolds(offers: map<string, Offer>, executions: map<string, Execution>, now: Time)
    ensures var after := map id | id in offers :: Lapse(offers[id], now);
            HoldingIds(after, executions) == HoldingIds(offers, executions) - DueIds(offers, now)
    ensures DueIds(offers, now) <= HoldingIds(offers, executions)
  {
  }

  lemma LapseQuota(cfg: Config, offers: map<string, Offer>, executions: map<string, Execution>, now: Time, c: Identity)
    requires QuotaKept(cfg, offers, executions, c)
    ensures QuotaKept(cfg, map id | id in offers :: Lapse(offers[id], now), executions, c)
  {
    QuotaShrinks(cfg, offers, executions, map id | id in offers :: Lapse(offers[id], now), executions, c);
  }

  lemma ExpireLedger(s: State, now: Time)
    requires LedgerExact(s)
    ensures LedgerExact(Expire(s, now)) && Expire(s, now).used <= s.used
  {
    var t := Expire(s, now);
    var due, held := DueIds(s.offers, now), HoldingIds(s.offers, s.executions);
    LapseHolds(s.offers, s.executions, now);
    TallySplits(s.offers, held - due, due);
    assert held - due + due == held;
    TallyAgrees(s.offers, t.offers, held - due);
    hide Counts;
  }

  lemma ExpireInv(cfg: Config, s: State, now: Time)
    requires Inv(cfg, s)
    ensures Inv(cfg, Expire(s, now))
  {
    var t := Expire(s, now);
    hide Offered, Indexed, Paired, Shaped, LedgerExact, QuotaKept, ReplaySound, Budgeted;
    LapseLinks(cfg, s.offers, s.requests, s.executions, now);
    ExpireLedger(s, now);
    forall c ensures QuotaKept(cfg, t.offers, t.executions, c) { LapseQuota(cfg, s.offers, s.executions, now, c); }
    BudgetSame(cfg, s, t);
  }

  // ------------------------------------------------------------------ minting

  lemma MintLedger(cfg: Config, s: State, client: Identity, q: Request, now: Time, id: string)
    requires LedgerExact(s) && id !in s.offers
    ensures LedgerExact(Mint(cfg, s, client, q, now, id))
  {
    var t := Mint(cfg, s, client, q, now, id);
    var held := HoldingIds(s.offers, s.executions);
    assert HoldingIds(t.offers, t.executions) == held + {id};
    TallySplits(t.offers, held, {id});
    TallyOne(t.offers, id);
    TallyAgrees(s.offers, t.offers, held);
  }

  lemma MintQuota(cfg: Config, s: State, client: Identity, q: Request, now: Time, id: string, c: Identity)
    requires QuotaKept(cfg, s.offers, s.executions, c) && id !in s.offers && Admit(cfg, s, client, false).None?
    ensures QuotaKept(cfg, s.offers[id := NewOffer(cfg, client, q, now)], s.executions, c)
  {
    assert OutstandingOf(s.offers[id := NewOffer(cfg, client, q, now)], c)
        == OutstandingOf(s.offers, c) + (if c == client then {id} else {});
  }

  lemma MintBudget(cfg: Config, s: State, client: Identity, q: Request, now: Time, id: string)
    requires Budgeted(cfg, s) && id !in s.offers && id !in s.tombstones
    requires 2 * |s.offers| + |s.tombstones| + 2 <= cfg.maxRecords
    ensures Budgeted(cfg, Mint(cfg, s, client, q, now, id))
  {
    var t := Mint(cfg, s, client, q, now, id);
    assert t.offers.Keys == s.offers.Keys + {id};
    MapSize(s.offers);
    MapSize(t.offers);
  }

  lemma MintInv(cfg: Config, s: State, client: Identity, q: Request, now: Time, env: RequestEnv)
    requires Inv(cfg, s) && env.newId !in s.tombstones && q.requestId != ""
    requires (client, q.requestId) !in s.requests
    requires RequestRefusal(cfg, s, client, q, env).None?
    ensures Inv(cfg, Mint(cfg, s, client, q, now, env.newId))
  {
    var id, o := env.newId, NewOffer(cfg, client, q, now);
    var t := Mint(cfg, s, client, q, now, id);
    hide Indexed, Paired, Shaped, LedgerExact, QuotaKept, ReplaySound, Budgeted, Admit, Tombstoned;
    IndexedNew(s.offers, s.requests, id, o);
    PairedOffer(s.offers, s.executions, id, o);
    MintLedger(cfg, s, client, q, now, id);
    MintBudget(cfg, s, client, q, now, id);
    forall c ensures QuotaKept(cfg, t.offers, t.executions, c) { MintQuota(cfg, s, client, q, now, id, c); }
  }

  // --------------------------------------------------------------- assignment

  lemma BindLedger(cfg: Config, s: State, id: string, x: string, now: Time)
    requires LedgerExact(s) && Paired(s.offers, s.executions)
    requires id in s.offers && s.offers[id].status == Outstanding && x !in s.executions
    ensures LedgerExact(Bind(cfg, s, id, x, now))
  {
    var t := Bind(cfg, s, id, x, now);
    var held := HoldingIds(s.offers, s.executions);
    assert HoldingIds(t.offers, t.executions) == held;
    TallyAgrees(s.offers, t.offers, held);
  }

  lemma BindQuota(cfg: Config, s: State, id: string, x: string, now: Time, c: Identity)
    requires QuotaKept(cfg, s.offers, s.executions, c) && id in s.offers && x !in s.executions
    requires Admit(cfg, s, s.offers[id].client, true).None?
    ensures var t := Bind(cfg, s, id, x, now); QuotaKept(cfg, t.offers, t.executions, c)
  {
    var t := Bind(cfg, s, id, x, now);
    BindCounts(cfg, s, id, x, now, c);
    SubsetSmaller(OutstandingOf(t.offers, c), OutstandingOf(s.offers, c));
    hide OutstandingOf, LiveOf, Bind;
  }

  lemma BindCounts(cfg: Config, s: State, id: string, x: string, now: Time, c: Identity)
    requires id in s.offers && x !in s.executions
    ensures var t := Bind(cfg, s, id, x, now);
            && OutstandingOf(t.offers, c) <= OutstandingOf(s.offers, c)
            && |LiveOf(t.executions, c)| == |LiveOf(s.executions, c)| + (if c == s.offers[id].client then 1 else 0)
  {
    var r, o := NewExecution(cfg, id, s.offers[id], now), s.offers[id].(status := Assigned, execution := x);
    LiveGains(s.executions, x, r, c);
    OutstandingLoses(s.offers, id, o, c);
    hide LiveOf, OutstandingOf;
  }

  lemma LiveGains(executions: map<string, Execution>, x: string, r: Execution, c: Identity)
    requires x !in executions && !Terminal(r.phase)
    ensures |LiveOf(executions[x := r], c)| == |LiveOf(executions, c)| + (if c == r.client then 1 else 0)
  {
    assert LiveOf(executions[x := r], c) == LiveOf(executions, c) + (if c == r.client then {x} else {});
  }

  lemma OutstandingLoses(offers: map<string, Offer>, id: string, o: Offer, c: Identity)
    requires o.status != Outstanding
    ensures OutstandingOf(offers[id := o], c) <= OutstandingOf(offers, c)
  {
  }

  lemma BindInv(cfg: Config, s: State, id: string, x: string, now: Time)
    requires ValidConfig(cfg) && Inv(cfg, s) && now > UNSET && x != ""
    requires id in s.offers && s.offers[id].status == Outstanding && x !in s.executions
    requires Admit(cfg, s, s.offers[id].client, true).None?
    ensures Inv(cfg, Bind(cfg, s, id, x, now))
  {
    hide Offered, Indexed, Paired, Shaped, LedgerExact, QuotaKept, ReplaySound, Budgeted, Admit;
    var t := Bind(cfg, s, id, x, now);
    ShapeOfOffer(cfg, s.offers, s.executions, id);
    OfferedAt(cfg, s.offers, id, t.offers[id]);
    IndexedAt(s.offers, s.requests, id, t.offers[id]);
    PairedBind(s.offers, s.executions, id, t.offers[id], x, t.executions[x]);
    ShapedAt(s.executions, x, t.executions[x]);
    BindLedger(cfg, s, id, x, now);
    BudgetSame(cfg, s, t);
    forall c ensures QuotaKept(cfg, t.offers, t.executions, c) { BindQuota(cfg, s, id, x, now, c); }
  }

  // -------------------------------------------------------- execution records

  lemma StayLiveHolds(offers: map<string, Offer>, executions: map<string, Execution>, x: string, r: Execution)
    requires x in executions && r.released == executions[x].released
    ensures HoldingIds(offers, executions[x := r]) == HoldingIds(offers, executions)
  {
  }

  lemma StayLiveQuota(cfg: Config, offers: map<string, Offer>, executions: map<string, Execution>,
                      x: string, r: Execution, c: Identity)
    requires QuotaKept(cfg, offers, executions, c)
    requires x in executions && r.client == executions[x].client && Terminal(executions[x].phase) == Terminal(r.phase)
    ensures QuotaKept(cfg, offers, executions[x := r], c)
  {
    assert LiveOf(executions[x := r], c) == LiveOf(executions, c);
  }

  /** An update of a live record that stays live moves no slot. */
  lemma StayLiveInv(cfg: Config, s: State, x: string, r: Execution)
    requires Inv(cfg, s) && x in s.executions && SameWork(s.executions[x], r)
    requires !Terminal(s.executions[x].phase) && !Terminal(r.phase) && ExecutionShape(x, r)
    ensures Inv(cfg, SetExecution(s, x, r))
  {
    hide Offered, Indexed, Paired, Shaped, QuotaKept, ReplaySound, Budgeted, HoldingIds, LiveOf, OutstandingOf, WithinLimits, Counts;
    var t := SetExecution(s, x, r);
    ShapeOf(s.executions, x);
    StayLiveHolds(s.offers, s.executions, x, r);
    PairedRecord(s.offers, s.executions, x, r);
    ShapedAt(s.executions, x, r);
    BudgetSame(cfg, s, t);
    forall c ensures QuotaKept(cfg, t.offers, t.executions, c) { StayLiveQuota(cfg, s.offers, s.executions, x, r, c); }
  }

  lemma FinishHolds(offers: map<string, Offer>, executions: map<string, Execution>, x: string, r: Execution)
    requires Paired(offers, executions) && x in executions && !executions[x].released && r.released
    ensures executions[x].offerId in HoldingIds(offers, executions)
    ensures offers[executions[x].offerId].resourceClass == executions[x].resourceClass
    ensures HoldingIds(offers, executions[x := r]) == HoldingIds(offers, executions) - {executions[x].offerId}
  {
    var id := executions[x].offerId;
    assert Backs(id, offers[id], x, executions[x]);
  }

  lemma FinishLedger(cfg: Config, s: State, x: string, phase: Phase, detail: string, exit: Option<int>, now: Time)
    requires LedgerExact(s) && Paired(s.offers, s.executions) && x in s.executions && !s.executions[x].released
    ensures LedgerExact(Finish(cfg, s, x, phase, detail, exit, now))
    ensures s.executions[x].resourceClass in s.used
  {
    var t := Finish(cfg, s, x, phase, detail, exit, now);
    FinishHolds(s.offers, s.executions, x, t.executions[x]);
    hide Paired, HoldingIds;
    TallyDrops(s.offers, t.offers, HoldingIds(s.offers, s.executions), s.executions[x].offerId);
  }

  lemma FinishQuota(cfg: Config, offers: map<string, Offer>, executions: map<string, Execution>,
                    x: string, r: Execution, c: Identity)
    requires QuotaKept(cfg, offers, executions, c) && x in executions && Terminal(r.phase)
    ensures QuotaKept(cfg, offers, executions[x := r], c)
  {
    QuotaShrinks(cfg, offers, executions, offers, executions[x := r], c);
  }

  /** Finishing a live execution gives back exactly the one slot its offer held. */
  lemma FinishInv(cfg: Config, s: State, x: string, phase: Phase, detail: string, exit: Option<int>, now: Time)
    requires ValidConfig(cfg) && Inv(cfg, s) && x in s.executions && now > UNSET
    requires !Terminal(s.executions[x].phase) && Terminal(phase)
    ensures Inv(cfg, Finish(cfg, s, x, phase, detail, exit, now))
    ensures s.executions[x].resourceClass in s.used
  {
    hide Offered, Indexed, Paired, Shaped, LedgerExact, QuotaKept, ReplaySound, Budgeted;
    var t := Finish(cfg, s, x, phase, detail, exit, now);
    ShapeOf(s.executions, x);
    PairedRecord(s.offers, s.executions, x, t.executions[x]);
    ShapedAt(s.executions, x, t.executions[x]);
    FinishLedger(cfg, s, x, phase, detail, exit, now);
    BudgetSame(cfg, s, t);
    forall c ensures QuotaKept(cfg, t.offers, t.executions, c) {
      FinishQuota(cfg, s.offers, s.executions, x, t.executions[x], c);
    }
  }

  // ------------------------------------------------------------------ release

  function Unreserved(s: State, id: string, status: OfferStatus): State
    requires id in s.offers
  {
    s.(offers := s.offers[id := s.offers[id].(status := status)], used := s.used - multiset{s.offers[id].resourceClass})
  }

  lemma ReleaseLedger(s: State, id: string, status: OfferStatus)
    requires LedgerExact(s) && id in s.offers && s.offers[id].status == Outstanding
    requires status == Expired || status == Released
    ensures s.offers[id].resourceClass in s.used && LedgerExact(Unreserved(s, id, status))
  {
    var t := Unreserved(s, id, status);
    var held := HoldingIds(s.offers, s.executions);
    assert HoldingIds(t.offers, t.executions) == held - {id};
    TallyDrops(s.offers, t.offers, held, id);
  }

  lemma ReleaseQuota(cfg: Config, offers: map<string, Offer>, executions: map<string, Execution>,
                     id: string, status: OfferStatus, c: Identity)
    requires QuotaKept(cfg, offers, executions, c) && id in offers && status != Outstanding
    ensures QuotaKept(cfg, offers[id := offers[id].(status := status)], executions, c)
  {
    QuotaShrinks(cfg, offers, executions, offers[id := offers[id].(status := status)], executions, c);
  }

  lemma ReleaseInv(cfg: Config, s: State, id: string, status: OfferStatus)
    requires Inv(cfg, s) && id in s.offers && s.offers[id].status == Outstanding
    requires status == Expired || status == Released
    ensures s.offers[id].resourceClass in s.used
    ensures Inv(cfg, Unreserved(s, id, status))
  {
    hide Offered, Indexed, Paired, Shaped, LedgerExact, QuotaKept, ReplaySound, Budgeted;
    var t := Unreserved(s, id, status);
    ShapeOfOffer(cfg, s.offers, s.executions, id);
    OfferedAt(cfg, s.offers, id, t.offers[id]);
    IndexedAt(s.offers, s.requests, id, t.offers[id]);
    PairedOffer(s.offers, s.executions, id, t.offers[id]);
    ReleaseLedger(s, id, status);
    BudgetSame(cfg, s, t);
    forall c ensures QuotaKept(cfg, t.offers, t.executions, c) { ReleaseQuota(cfg, s.offers, s.executions, id, status, c); }
  }

  // ------------------------------------------------------------------- sweep

  lemma CollectKeeps(s: State, dead: set<string>, now: Time)
    requires Paired(s.offers, s.executions) && dead <= s.offers.Keys && "" !in s.executions
    ensures forall x | x in s.executions :: x in Collect(s, dead, now).executions <==> s.executions[x].offerId !in dead
  {
    forall x | x in s.executions ensures x in Collect(s, dead, now).executions <==> s.executions[x].offerId !in dead {
      var id := s.executions[x].offerId;
      assert Backs(id, s.offers[id], x, s.executions[x]);
    }
  }

  lemma CollectIndexed(s: State, dead: set<string>, now: Time)
    requires Indexed(s.offers, s.requests) && dead <= s.offers.Keys
    ensures var t := Collect(s, dead, now); Indexed(t.offers, t.requests)
  {
  }

  lemma CollectPaired(s: State, dead: set<string>, now: Time)
    requires Paired(s.offers, s.executions) && dead <= s.offers.Keys && "" !in s.executions
    ensures var t := Collect(s, dead, now); Paired(t.offers, t.executions)
  {
    CollectKeeps(s, dead, now);
  }

  lemma CollectHolds(s: State, now: Time)
    requires Paired(s.offers, s.executions) && Shaped(s.executions)
    ensures var t := Collect(s, CollectableIds(s, now), now);
            HoldingIds(t.offers, t.executions) == HoldingIds(s.offers, s.executions)
  {
    var dead := CollectableIds(s, now);
    var t := Collect(s, dead, now);
    CollectKeeps(s, dead, now);
    forall id | id in s.offers && Holds(s.offers[id], s.executions) ensures id in t.offers && Holds(t.offers[id], t.executions) {
      if s.offers[id].status == Assigned { ShapeOf(s.executions, s.offers[id].execution); }
    }
  }

  lemma CollectLedger(s: State, now: Time)
    requires LedgerExact(s) && Paired(s.offers, s.executions) && Shaped(s.executions)
    ensures LedgerExact(Collect(s, CollectableIds(s, now), now))
  {
    var t := Collect(s, CollectableIds(s, now), now);
    CollectHolds(s, now);
    hide Paired, Shaped, HoldingIds, CollectableIds;
    TallyAgrees(s.offers, t.offers, HoldingIds(s.offers, s.executions));
  }

  lemma CollectKeys(s: State, dead: set<string>, now: Time)
    requires dead <= s.offers.Keys
    ensures Collect(s, dead, now).offers.Keys == s.offers.Keys - dead
    ensures Collect(s, dead, now).tombstones.Keys == s.tombstones.Keys + dead
  {
  }

  lemma CollectBudget(cfg: Config, s: State, dead: set<string>, now: Time)
    requires Budgeted(cfg, s) && dead <= s.offers.Keys
    ensures Budgeted(cfg, Collect(s, dead, now))
  {
    var t := Collect(s, dead, now);
    CollectKeys(s, dead, now);
    hide Collect;
    SubsetSmaller(dead, s.offers.Keys);
    MapSize(s.offers);
    MapSize(t.offers);
    MapSize(s.tombstones);
    MapSize(t.tombstones);
  }

  lemma CollectQuota(cfg: Config, s: State, dead: set<string>, now: Time, c: Identity)
    requires QuotaKept(cfg, s.offers, s.executions, c) && dead <= s.offers.Keys
    ensures var t := Collect(s, dead, now); QuotaKept(cfg, t.offers, t.executions, c)
  {
    var t := Collect(s, dead, now);
    QuotaShrinks(cfg, s.offers, s.executions, t.offers, t.executions, c);
  }

  /** Collection moves an offer's two records into one tombstone and no slot at all. */
  lemma CollectInv(cfg: Config, s: State, now: Time)
    requires Inv(cfg, s)
    ensures Inv(cfg, Collect(s, CollectableIds(s, now), now))
  {
    var dead := CollectableIds(s, now);
    var t := Collect(s, dead, now);
    assert Offered(cfg, t.offers) && Shaped(t.executions) && "" !in s.executions && t.used == s.used && t.replay == s.replay;
    hide Offered, Indexed, Paired, Shaped, LedgerExact, QuotaKept, ReplaySound, Budgeted, Collect, CollectableIds;
    CollectBudget(cfg, s, dead, now);
    CollectIndexed(s, dead, now);
    CollectPaired(s, dead, now);
    CollectLedger(s, now);
    forall c ensures QuotaKept(cfg, t.offers, t.executions, c) { CollectQuota(cfg, s, dead, now, c); }
  }

  lemma RetireInv(cfg: Config, s: State, now: Time)
    requires Inv(cfg, s)
    ensures Inv(cfg, Retire(s, now))
  {
    var t := Retire(s, now);
    MapShrinks(s.replay, t.replay);
    MapShrinks(s.tombstones, t.tombstones);
    hide Offered, Indexed, Paired, Shaped, QuotaKept;
  }

  lemma PruneSound(cfg: Config, replay: map<ReplayKey, ReplayEntry>, now: Time)
    requires ReplaySound(cfg, replay)
    ensures ReplaySound(cfg, Prune(cfg, replay, now))
  {
    MapShrinks(replay, Prune(cfg, replay, now));
  }

  lemma SweepInv(cfg: Config, s: State, now: Time)
    requires Inv(cfg, s)
    ensures Inv(cfg, SweepReady(cfg, s, now)) && Inv(cfg, Sweep(cfg, s, now))
  {
    hide Offered, Indexed, Paired, Shaped, LedgerExact, QuotaKept, ReplaySound, Budgeted, Collect, Retire, Expire, Prune, Collectable;
    var s0, s1 := Advance(s, now), SweepReady(cfg, s, now);
    AdvanceInv(cfg, s, now);
    ExpireInv(cfg, s0, s0.highWater);
    ExpireFrame(s0, s0.highWater);
    PruneSound(cfg, s.replay, s0.highWater);
    ReplayInv(cfg, Expire(s0, s0.highWater), Prune(cfg, s.replay, s0.highWater));
    CollectInv(cfg, s1, s1.highWater);
    RetireInv(cfg, Collect(s1, CollectableIds(s1, s1.highWater), s1.highWater), s1.highWater);
  }

  lemma ExpireFrame(s: State, now: Time)
    ensures Expire(s, now).replay == s.replay && Expire(s, now).highWater == s.highWater
    ensures Expire(s, now).requests == s.requests && Expire(s, now).executions == s.executions
    ensures Expire(s, now).tombstones == s.tombstones && Expire(s, now).offers.Keys == s.offers.Keys
  {
  }

  lemma AdvanceInv(cfg: Config, s: State, now: Time)
    requires Inv(cfg, s)
    ensures Inv(cfg, Advance(s, now))
  {
    hide Offered, Indexed, Paired, Shaped, QuotaKept, ReplaySound;
  }

  lemma ReplayInv(cfg: Config, s: State, replay: map<ReplayKey, ReplayEntry>)
    requires Inv(cfg, s) && ReplaySound(cfg, replay)
    ensures Inv(cfg, s.(replay := replay))
  {
    hide Offered, Indexed, Paired, Shaped, QuotaKept, ReplaySound;
  }

  // ------------------------------------------------------------------- reload

  lemma ReloadKeepsExecutions(cfg: Config, s: State, now: Time)
    requires Shaped(s.executions)
    ensures Reload(cfg, s, now).executions == s.executions
  {
    forall x | x in s.executions ensures LoadedExecution(cfg, s.executions[x], now) == s.executions[x] {
      assert ExecutionShape(x, s.executions[x]);
    }
  }

  lemma ReloadFits(cfg: Config, s: State, now: Time)
    requires LedgerExact(s) && WithinLimits(cfg, s.used) && Shaped(s.executions)
    ensures WithinLimits(cfg, Reload(cfg, s, now).used)
  {
    var t := Reload(cfg, s, now);
    ReloadKeepsExecutions(cfg, s, now);
    LapseHolds(s.offers, s.executions, now);
    var held, left := HoldingIds(s.offers, s.executions), HoldingIds(t.offers, t.executions);
    forall c ensures t.used[c] <= Limit(cfg, c) {
      SubsetSmaller(OfClass(t.offers, left, c), OfClass(s.offers, held, c));
    }
  }

  lemma ReloadReplay(cfg: Config, s: State, now: Time)
    requires ReplaySound(cfg, s.replay)
    ensures ReplaySound(cfg, Reload(cfg, s, now).replay)
  {
    MapShrinks(s.replay, Reload(cfg, s, now).replay);
  }

  /** A restart keeps the invariant; the fresh ledger fits because re-expiry only frees slots. */
  lemma ReloadInv(cfg: Config, s: State, now: Time)
    requires Inv(cfg, s)
    ensures Inv(cfg, Reload(cfg, s, now))
  {
    hide Offered, Indexed, Paired, Shaped, WithinLimits, QuotaKept, ReplaySound, Budgeted, LedgerExact, Reload, Lapse;
    var t := Reload(cfg, s, now);
    ReloadParts(cfg, s, now);
    ReloadKeepsExecutions(cfg, s, now);
    ReloadReplay(cfg, s, now);
    LapseLinks(cfg, s.offers, s.requests, s.executions, now);
    ReloadFits(cfg, s, now);
    BudgetSame(cfg, s, t);
    forall c ensures QuotaKept(cfg, t.offers, t.executions, c) { LapseQuota(cfg, s.offers, s.executions, now, c); }
  }

  lemma ReloadParts(cfg: Config, s: State, now: Time)
    ensures var t := Reload(cfg, s, now);
      && LedgerExact(t) && t.requests == s.requests && t.tombstones == s.tombstones
      && t.offers == (map id | id in s.offers :: Lapse(s.offers[id], now))
  {
    hide HoldingIds, Lapse, LoadedExecution;
  }
}
