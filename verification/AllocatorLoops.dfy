/** What each pass over the allocator's maps has achieved part way through. */
module AllocatorLoops {
  import opened Protocol
  import opened AllocatorState
  import opened AllocatorInvariant
  import opened Snapshots

  // -------------------------------------------------------------------- saving

  lemma OffersSavedMore(saved: seq<PersistedOffer>, offers: map<string, Offer>, ids: set<string>, id: string)
    requires OffersSaved(saved, offers, ids) && id in offers && id !in ids
    ensures OffersSaved(saved + [SaveOffer(id, offers[id])], offers, ids + {id})
  {
    var more := saved + [SaveOffer(id, offers[id])];
    forall i | 0 <= i < |saved| ensures saved[i].offerId != id { assert saved[i].offerId in OfferIds(saved); }
    forall k | k in ids + {id} ensures k in OfferIds(more) {
      if k == id {
        assert more[|saved|].offerId == id;
      } else {
        var i :| 0 <= i < |saved| && saved[i].offerId == k;
        assert more[i].offerId == k;
      }
    }
  }

  lemma ExecutionsSavedMore(saved: seq<PersistedExecution>, executions: map<string, Execution>, ids: set<string>, x: string)
    requires ExecutionsSaved(saved, executions, ids) && x in executions && x !in ids
    ensures ExecutionsSaved(saved + [SaveExecution(x, executions[x])], executions, ids + {x})
  {
    var more := saved + [SaveExecution(x, executions[x])];
    forall i | 0 <= i < |saved| ensures saved[i].id != x { assert saved[i].id in ExecutionIds(saved); }
    forall k | k in ids + {x} ensures k in ExecutionIds(more) {
      if k == x {
        assert more[|saved|].id == x;
      } else {
        var i :| 0 <= i < |saved| && saved[i].id == k;
        assert more[i].id == k;
      }
    }
  }

  lemma ReplaySavedMore(saved: seq<PersistedReplay>, replay: map<ReplayKey, ReplayEntry>, keys: set<ReplayKey>, key: ReplayKey)
    requires ReplaySaved(saved, replay, keys) && key in replay && key !in keys
    ensures ReplaySaved(saved + [SaveEntry(key, replay[key])], replay, keys + {key})
  {
    var more := saved + [SaveEntry(key, replay[key])];
    forall i | 0 <= i < |saved| ensures saved[i].key != key { assert saved[i].key in EntryKeys(saved); }
    forall k | k in keys + {key} ensures k in EntryKeys(more) {
      if k == key {
        assert more[|saved|].key == key;
      } else {
        var i :| 0 <= i < |saved| && saved[i].key == k;
        assert more[i].key == k;
      }
    }
  }

  // -------------------------------------------------------------------- expiry

  predicate Visiting(was: map<string, Offer>, offers: map<string, Offer>, todo: set<string>, now: Time) {
    && offers.Keys == was.Keys
    && forall id | id in was :: offers[id] == if id in todo then was[id] else Lapse(was[id], now)
  }

  /** Part way through the expiry pass: the offers still to visit are as they
      were, and the ledger has given back the slots of the due ones visited. */
  ghost predicate Expiry(s: State, now: Time, offers: map<string, Offer>, used: multiset<string>, todo: set<string>) {
    && Visiting(s.offers, offers, todo, now)
    && used == s.used - Tally(s.offers, DueIds(s.offers, now) - todo)
  }

  lemma ExpiryStarts(s: State, now: Time)
    ensures Expiry(s, now, s.offers, s.used, s.offers.Keys)
  {
    assert DueIds(s.offers, now) - s.offers.Keys == {};
    NothingTallied(s.offers);
  }

  lemma ExpiryEnds(s: State, now: Time, offers: map<string, Offer>, used: multiset<string>)
    requires Expiry(s, now, offers, used, {})
    ensures s.(offers := offers, used := used) == Expire(s, now)
  {
    assert DueIds(s.offers, now) - {} == DueIds(s.offers, now);
    assert offers == map id | id in s.offers :: Lapse(s.offers[id], now);
  }

  lemma ExpiryStep(s: State, now: Time, offers: map<string, Offer>, used: multiset<string>, todo: set<string>, id: string)
    requires Expiry(s, now, offers, used, todo) && id in todo && id in offers
    ensures if Due(offers[id], now)
      then Expiry(s, now, offers[id := offers[id].(status := Expired)], used - multiset{offers[id].resourceClass}, todo - {id})
      else Expiry(s, now, offers, used, todo - {id})
  {
    hide Tally, DueIds;
    VisitOffer(s.offers, offers, todo, now, id);
    ReleasedOne(s.offers, s.used, todo, now, id);
  }

  lemma VisitOffer(was: map<string, Offer>, offers: map<string, Offer>, todo: set<string>, now: Time, id: string)
    requires Visiting(was, offers, todo, now) && id in todo && id in was
    ensures offers[id] == was[id]
    ensures Visiting(was, offers[id := Lapse(was[id], now)], todo - {id}, now)
    ensures !Due(was[id], now) ==> Visiting(was, offers, todo - {id}, now)
  {
  }

  lemma ReleasedOne(was: map<string, Offer>, counted: multiset<string>, todo: set<string>, now: Time, id: string)
    requires id in todo && id in was
    ensures var due := DueIds(was, now);
      && due - todo <= was.Keys && due - (todo - {id}) <= was.Keys
      && counted - Tally(was, due - (todo - {id}))
         == counted - Tally(was, due - todo) - (if Due(was[id], now) then multiset{was[id].resourceClass} else multiset{})
  {
    var due := DueIds(was, now);
    if Due(was[id], now) {
      assert due - (todo - {id}) == (due - todo) + {id};
      TallySplits(was, due - todo, {id});
      TallyOne(was, id);
    } else {
      assert due - (todo - {id}) == due - todo;
    }
  }

  lemma NothingTallied(offers: map<string, Offer>)
    ensures Tally(offers, {}) == multiset{}
  {
    var none: multiset<string> := multiset{};
    forall c ensures Tally(offers, {})[c] == none[c] {
      assert OfClass(offers, {}, c) == {};
    }
  }

  // ---------------------------------------------------------------- collection

  predicate BusyAmong(s: State, keys: set<ReplayKey>, key: RequestKey) {
    exists k | k in s.replay && k in keys :: BusyKey(s, s.replay[k]) == Some(key)
  }

  lemma BusyMore(s: State, seen: set<ReplayKey>, k: ReplayKey, key: RequestKey)
    requires k in s.replay
    ensures BusyAmong(s, seen + {k}, key) <==> BusyAmong(s, seen, key) || BusyKey(s, s.replay[k]) == Some(key)
  {
  }

  lemma BusyGrows(s: State, todo: set<ReplayKey>, k: ReplayKey)
    requires todo <= s.replay.Keys && k in todo
    ensures forall key ::
      (BusyAmong(s, s.replay.Keys - (todo - {k}), key) <==> BusyAmong(s, s.replay.Keys - todo, key) || BusyKey(s, s.replay[k]) == Some(key))
  {
    forall key
      ensures BusyAmong(s, s.replay.Keys - (todo - {k}), key) <==> BusyAmong(s, s.replay.Keys - todo, key) || BusyKey(s, s.replay[k]) == Some(key)
    {
      BusyMore(s, s.replay.Keys - todo, k, key);
      assert s.replay.Keys - (todo - {k}) == s.replay.Keys - todo + {k};
    }
  }

  lemma NothingCollected(s: State, now: Time)
    ensures AllocatorState.Collect(s, {}, now) == s && CollectableIds(s, now) - s.offers.Keys == {}
  {
    assert s.tombstones + map[] == s.tombstones;
  }

  lemma VisitedOne(s: State, todo: set<string>, now: Time, id: string)
    requires id in todo && id in s.offers
    ensures var all := CollectableIds(s, now);
      all - (todo - {id}) == if Collectable(s, id, now) then all - todo + {id} else all - todo
  {
    hide Collectable;
  }

  /** The collection test as the pass makes it, on the maps as they are at that moment. */
  predicate Eligible(executions: map<string, Execution>, o: Offer, busy: set<RequestKey>, now: Time) {
    && KeyOf(o) !in busy
    && (if o.status == Assigned then
          o.execution in executions && Terminal(executions[o.execution].phase) && executions[o.execution].retainUntil <= now
        else o.status == Expired || o.status == Released)
  }

  /** The offer visited next is untouched by what the pass has collected so far. */
  lemma NextToCollect(cfg: Config, s: State, gone: set<string>, now: Time, id: string)
    requires Inv(cfg, s) && gone <= s.offers.Keys && id in s.offers && id !in gone
    ensures var c := AllocatorState.Collect(s, gone, now); var x := s.offers[id].execution;
      && id in c.offers && c.offers[id] == s.offers[id]
      && (s.offers[id].status == Assigned ==> x in s.executions && x in c.executions && c.executions[x] == s.executions[x])
  {
    hide Offered, Indexed, LedgerExact, WithinLimits, Budgeted, QuotasKept, ReplaySound;
    var x := s.offers[id].execution;
    if s.offers[id].status == Assigned {
      assert ExecutionShape(x, s.executions[x]);
      forall g | g in gone ensures s.offers[g].execution != x {
        if s.offers[g].status == Assigned { assert s.executions[s.offers[g].execution].offerId == g; }
      }
    }
  }

  lemma EligibleExactly(cfg: Config, s: State, gone: set<string>, busy: set<RequestKey>, now: Time, id: string)
    requires Inv(cfg, s) && gone <= s.offers.Keys && id in s.offers && id !in gone
    requires forall key :: key in busy <==> Busy(s, key)
    ensures var c := AllocatorState.Collect(s, gone, now);
      && id in c.offers && c.offers[id] == s.offers[id]
      && (Eligible(c.executions, s.offers[id], busy, now) <==> Collectable(s, id, now))
  {
    hide Inv, AllocatorState.Collect, Busy;
    NextToCollect(cfg, s, gone, now, id);
  }

  predicate DroppedBy(retired: set<RequestKey>, executions: map<string, Execution>, entry: ReplayEntry) {
    && entry.done
    && match entry.envelope.payload
       case ExecutionRequest(q) => (entry.envelope.sender, q.requestId) in retired
       case ExecutionAssign(r, _, _) => (entry.envelope.sender, r) in retired
       case ExecutionOfferRelease(_, _) => false
       case p => NamedExecution(p) !in executions
  }

  lemma SameDrops(s: State, retired: set<RequestKey>, entry: ReplayEntry)
    requires forall key :: key in retired <==> Tombstoned(s, key)
    ensures DroppedBy(retired, s.executions, entry) <==> Dropped(s, entry)
  {
    hide Tombstoned;
  }

  lemma CollectOne(s: State, gone: set<string>, now: Time, id: string)
    requires gone <= s.offers.Keys && id in s.offers && id !in gone
    ensures AllocatorState.Collect(s, gone + {id}, now) == Remove(AllocatorState.Collect(s, gone, now), id, s.offers[id], now)
  {
    CollectOneOffer(s, gone, now, id);
    CollectOneKey(s, gone, now, id);
    CollectOneExecution(s, gone, now, id);
    CollectOneTombstone(s, gone, now, id);
    hide AllocatorState.Collect;
    CollectFrame(s, gone, now);
    CollectFrame(s, gone + {id}, now);
  }

  /** What collecting one offer does to the four maps. */
  function Remove(s: State, id: string, o: Offer, now: Time): State {
    s.(offers := s.offers - {id}, requests := s.requests - {KeyOf(o)}, executions := s.executions - {o.execution},
       tombstones := s.tombstones[id := Bury(id, o, now)])
  }

  lemma CollectFrame(s: State, gone: set<string>, now: Time)
    requires gone <= s.offers.Keys
    ensures var c := AllocatorState.Collect(s, gone, now); c.used == s.used && c.replay == s.replay && c.highWater == s.highWater
  {
  }

  lemma CollectOneOffer(s: State, gone: set<string>, now: Time, id: string)
    requires gone <= s.offers.Keys && id in s.offers && id !in gone
    ensures AllocatorState.Collect(s, gone + {id}, now).offers == AllocatorState.Collect(s, gone, now).offers - {id}
  {
  }

  lemma CollectOneKey(s: State, gone: set<string>, now: Time, id: string)
    requires gone <= s.offers.Keys && id in s.offers && id !in gone
    ensures AllocatorState.Collect(s, gone + {id}, now).requests == AllocatorState.Collect(s, gone, now).requests - {KeyOf(s.offers[id])}
  {
  }

  lemma CollectOneExecution(s: State, gone: set<string>, now: Time, id: string)
    requires gone <= s.offers.Keys && id in s.offers && id !in gone
    ensures AllocatorState.Collect(s, gone + {id}, now).executions == AllocatorState.Collect(s, gone, now).executions - {s.offers[id].execution}
  {
  }

  lemma CollectOneTombstone(s: State, gone: set<string>, now: Time, id: string)
    requires gone <= s.offers.Keys && id in s.offers && id !in gone
    ensures AllocatorState.Collect(s, gone + {id}, now).tombstones
         == AllocatorState.Collect(s, gone, now).tombstones[id := Bury(id, s.offers[id], now)]
  {
  }

  // ------------------------------------------------------------------- loading

  lemma {:induction false} OfferPrefix(saved: seq<PersistedOffer>, i: nat)
    requires i <= |saved| && LoadOffers(saved).Some?
    ensures LoadOffers(saved[..i]).Some?
    decreases |saved| - i
  {
    if i < |saved| {
      OfferPrefix(saved, i + 1);
      assert saved[..i + 1][..i] == saved[..i];
    } else {
      assert saved[..i] == saved;
    }
  }

  lemma {:induction false} ExecutionPrefix(cfg: Config, saved: seq<PersistedExecution>, now: Time, i: nat)
    requires i <= |saved| && LoadExecutions(cfg, saved, now).Some?
    ensures LoadExecutions(cfg, saved[..i], now).Some?
    decreases |saved| - i
  {
    if i < |saved| {
      ExecutionPrefix(cfg, saved, now, i + 1);
      assert saved[..i + 1][..i] == saved[..i];
    } else {
      assert saved[..i] == saved;
    }
  }

  predicate MatchedOne(offers: map<string, Offer>, executions: map<string, Execution>, id: string)
    requires id in offers
  {
    offers[id].status == Assigned ==>
      && offers[id].execution in executions && executions[offers[id].execution].offerId == id
      && executions[offers[id].execution].resourceClass == offers[id].resourceClass
  }

  lemma TallyGrows(offers: map<string, Offer>, part: set<string>, whole: set<string>, c: string)
    requires part <= whole <= offers.Keys
    ensures Tally(offers, part)[c] <= Tally(offers, whole)[c]
  {
    SubsetSmaller(OfClass(offers, part, c), OfClass(offers, whole, c));
  }

  /** One more offer counted while the loader reserves its slot. */
  lemma ReservedOne(offers: map<string, Offer>, executions: map<string, Execution>, todo: set<string>, id: string)
    requires id in offers && id in todo
    ensures var held := HoldingIds(offers, executions);
      && held - todo <= offers.Keys && held - (todo - {id}) <= offers.Keys
      && Tally(offers, held - (todo - {id})) == Tally(offers, held - todo)
           + (if Holds(offers[id], executions) then multiset{offers[id].resourceClass} else multiset{})
  {
    var held := HoldingIds(offers, executions);
    if Holds(offers[id], executions) {
      assert held - (todo - {id}) == (held - todo) + {id};
      TallySplits(offers, held - todo, {id});
      TallyOne(offers, id);
    } else {
      assert held - (todo - {id}) == held - todo;
    }
  }

  /** Part way through the loader's last pass. */
  ghost predicate Counted(cfg: Config, offers: map<string, Offer>, executions: map<string, Execution>, todo: set<string>, used: multiset<string>) {
    && used == Tally(offers, HoldingIds(offers, executions) - todo) && WithinLimits(cfg, used)
    && forall id | id in offers.Keys - todo :: MatchedOne(offers, executions, id)
  }

  lemma CountingStarts(cfg: Config, offers: map<string, Offer>, executions: map<string, Execution>)
    ensures Counted(cfg, offers, executions, offers.Keys, multiset{})
  {
    assert HoldingIds(offers, executions) - offers.Keys == {};
    NothingTallied(offers);
  }

  /** One offer: a mismatch or a full class means the snapshot does not fit; otherwise its slot is counted. */
  lemma CountingStep(cfg: Config, offers: map<string, Offer>, executions: map<string, Execution>, todo: set<string>,
                     used: multiset<string>, id: string)
    requires Counted(cfg, offers, executions, todo, used) && id in todo && id in offers
    ensures !MatchedOne(offers, executions, id) ==> !Fits(cfg, offers, executions)
    ensures MatchedOne(offers, executions, id) && Holds(offers[id], executions) ==>
      if used[offers[id].resourceClass] >= Limit(cfg, offers[id].resourceClass) then !Fits(cfg, offers, executions)
      else Counted(cfg, offers, executions, todo - {id}, used + multiset{offers[id].resourceClass})
    ensures MatchedOne(offers, executions, id) && !Holds(offers[id], executions) ==> Counted(cfg, offers, executions, todo - {id}, used)
  {
    hide Tally, HoldingIds, Holds;
    ReservedOne(offers, executions, todo, id);
    var held := HoldingIds(offers, executions);
    HeldIn(offers, executions);
    TallyGrows(offers, held - (todo - {id}), held, offers[id].resourceClass);
    assert offers.Keys - (todo - {id}) == offers.Keys - todo + {id};
  }

  lemma HeldIn(offers: map<string, Offer>, executions: map<string, Execution>)
    ensures HoldingIds(offers, executions) <= offers.Keys
  {
  }

  lemma CountingEnds(cfg: Config, offers: map<string, Offer>, executions: map<string, Execution>, used: multiset<string>)
    requires Counted(cfg, offers, executions, {}, used)
    ensures Fits(cfg, offers, executions) && used == Tally(offers, HoldingIds(offers, executions))
  {
    assert HoldingIds(offers, executions) - {} == HoldingIds(offers, executions);
    assert forall id | id in offers :: MatchedOne(offers, executions, id);
  }

  // --------------------------------------------------------------- undoing by hand

  lemma Undo<K, V>(m: map<K, V>, k: K, v: V)
    requires k !in m
    ensures m[k := v] - {k} == m
  {
  }

  lemma Restore<K, V>(m: map<K, V>, k: K, v: V)
    requires k in m
    ensures m[k := v][k := m[k]] == m
  {
  }

  lemma CountOne<T>(all: set<T>, todo: set<T>, x: T)
    requires x in todo
    ensures |all - (todo - {x})| == |all - todo| + (if x in all then 1 else 0)
  {
    assert all - (todo - {x}) == if x in all then (all - todo) + {x} else all - todo;
  }
}
