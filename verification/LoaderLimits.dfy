/** What the loader does with snapshots the program did not write itself: which
    of them give a state whose executions and assigned offers match, and when
    the ledger's guard against going below zero decides. */
module LoaderLimits {
  import opened Protocol
  import opened AllocatorState
  import opened AllocatorInvariant
  import opened AllocatorRuns
  import opened AllocatorTheorems
  import opened AllocatorLoops
  import opened Snapshots

  // ------------------------------------------------------------------------ pairing

  function AssignedIn(offers: map<string, Offer>): set<string> {
    set id | id in offers && offers[id].status == Assigned
  }

  /** Some assigned offer names the execution and is named back by it. */
  predicate NamedBack(offers: map<string, Offer>, executions: map<string, Execution>, x: string)
    requires x in executions
  {
    var id := executions[x].offerId;
    id in offers && offers[id].status == Assigned && offers[id].execution == x
  }

  /** Once every assigned offer has its execution, no execution is left over exactly when there are as many. */
  lemma NamedExactly(offers: map<string, Offer>, executions: map<string, Execution>)
    requires Matched(offers, executions)
    ensures (forall x | x in executions :: NamedBack(offers, executions, x)) <==> |executions| == |AssignedIn(offers)|
  {
    var named := set x | x in executions && NamedBack(offers, executions, x);
    var ids := set x | x in named :: executions[x].offerId;
    forall id | id in AssignedIn(offers) ensures id in ids {
      assert offers[id].execution in named;
    }
    assert ids == AssignedIn(offers);
    InjectionSize(executions, named, ids);
    SubsetSmaller(named, executions.Keys);
    MapSize(executions);
    assert |executions.Keys - named| == 0 <==> executions.Keys - named == {};
  }

  /** The number of offers the file says are assigned. */
  function CountAssigned(saved: seq<PersistedOffer>): nat {
    if saved == [] then 0 else CountAssigned(saved[..|saved| - 1]) + if saved[|saved| - 1].status == 2 then 1 else 0
  }

  lemma {:induction false} OffersCounted(saved: seq<PersistedOffer>)
    requires LoadOffers(saved).Some?
    ensures |AssignedIn(LoadOffers(saved).value.0)| == CountAssigned(saved)
  {
    if saved != [] {
      var n := |saved| - 1;
      OffersCounted(saved[..n]);
      AssignedMore(LoadOffers(saved[..n]).value.0, saved[n].offerId, LoadOffer(saved[n]));
      hide AssignedIn;
    }
  }

  lemma AssignedMore(offers: map<string, Offer>, id: string, o: Offer)
    requires id !in offers
    ensures |AssignedIn(offers[id := o])| == |AssignedIn(offers)| + if o.status == Assigned then 1 else 0
  {
    assert AssignedIn(offers[id := o]) == AssignedIn(offers) + if o.status == Assigned then {id} else {};
  }

  lemma {:induction false} ExecutionsCounted(cfg: Config, saved: seq<PersistedExecution>, now: Time)
    requires LoadExecutions(cfg, saved, now).Some?
    ensures |LoadExecutions(cfg, saved, now).value| == |saved|
  {
    if saved != [] {
      var n := |saved| - 1;
      hide LoadExecution;
      ExecutionsCounted(cfg, saved[..n], now);
    }
  }

  lemma {:induction false} OfferLoadedAt(saved: seq<PersistedOffer>, i: nat)
    requires LoadOffers(saved).Some? && i < |saved|
    ensures OfferLoadable(saved[i]) && saved[i].offerId in LoadOffers(saved).value.0
    ensures LoadOffers(saved).value.0[saved[i].offerId] == LoadOffer(saved[i])
  {
    hide LoadOffer;
    var n := |saved| - 1;
    if i < n { OfferLoadedAt(saved[..n], i); }
  }

  lemma {:induction false} OfferLoadedFrom(saved: seq<PersistedOffer>, id: string) returns (i: nat)
    requires LoadOffers(saved).Some? && id in LoadOffers(saved).value.0
    ensures i < |saved| && saved[i].offerId == id
  {
    hide LoadOffer;
    var n := |saved| - 1;
    if saved[n].offerId == id { i := n; } else { i := OfferLoadedFrom(saved[..n], id); }
  }

  lemma {:induction false} ExecutionLoadedAt(cfg: Config, saved: seq<PersistedExecution>, now: Time, i: nat)
    requires LoadExecutions(cfg, saved, now).Some? && i < |saved|
    ensures ExecutionLoadable(saved[i]) && saved[i].id in LoadExecutions(cfg, saved, now).value
    ensures LoadExecutions(cfg, saved, now).value[saved[i].id] == LoadExecution(cfg, saved[i], now)
  {
    hide LoadExecution, ExecutionLoadable;
    var n := |saved| - 1;
    if i < n { ExecutionLoadedAt(cfg, saved[..n], now, i); }
  }

  lemma {:induction false} ExecutionLoadedFrom(cfg: Config, saved: seq<PersistedExecution>, now: Time, x: string) returns (i: nat)
    requires LoadExecutions(cfg, saved, now).Some? && x in LoadExecutions(cfg, saved, now).value
    ensures i < |saved| && saved[i].id == x
  {
    hide LoadExecution, ExecutionLoadable;
    var n := |saved| - 1;
    if saved[n].id == x { i := n; } else { i := ExecutionLoadedFrom(cfg, saved[..n], now, x); }
  }

  /** Client and request of an assigned offer agree with the execution it names. */
  predicate SameTerms(p: PersistedOffer, q: PersistedExecution) {
    p.status == 2 && p.execution == q.id ==> p.client == q.client && p.request == q.request
  }

  predicate TermsAgree(snap: Snapshot) {
    forall i, j | 0 <= i < |snap.offers| && 0 <= j < |snap.executions| :: SameTerms(snap.offers[i], snap.executions[j])
  }

  predicate OthersUnbound(snap: Snapshot) {
    forall i | 0 <= i < |snap.offers| && snap.offers[i].status != 2 :: snap.offers[i].execution == ""
  }

  predicate TermsKept(offers: map<string, Offer>, executions: map<string, Execution>) {
    forall id | id in offers && offers[id].status == Assigned && offers[id].execution in executions ::
      executions[offers[id].execution].client == offers[id].client && executions[offers[id].execution].request == offers[id].request
  }

  predicate Unbinding(offers: map<string, Offer>) {
    forall id | id in offers && offers[id].status != Assigned :: offers[id].execution == ""
  }

  lemma PairedIs(offers: map<string, Offer>, executions: map<string, Execution>)
    requires Matched(offers, executions)
    ensures Paired(offers, executions) <==>
      (forall x | x in executions :: NamedBack(offers, executions, x)) && TermsKept(offers, executions) && Unbinding(offers)
  {
    if Paired(offers, executions) {
      forall x | x in executions ensures NamedBack(offers, executions, x) {
        assert Backs(executions[x].offerId, offers[executions[x].offerId], x, executions[x]);
      }
      forall id | id in offers && offers[id].status == Assigned && offers[id].execution in executions
        ensures executions[offers[id].execution].client == offers[id].client && executions[offers[id].execution].request == offers[id].request
      {
        var x := offers[id].execution;
        assert Backs(executions[x].offerId, offers[executions[x].offerId], x, executions[x]);
      }
    }
  }

  lemma TermsLoaded(cfg: Config, snap: Snapshot, now: Time)
    requires LoadOffers(snap.offers).Some? && LoadExecutions(cfg, snap.executions, now).Some?
    ensures TermsKept(LoadOffers(snap.offers).value.0, LoadExecutions(cfg, snap.executions, now).value) <==> TermsAgree(snap)
  {
    var offers, executions := LoadOffers(snap.offers).value.0, LoadExecutions(cfg, snap.executions, now).value;
    hide LoadOffers, LoadExecutions;
    if TermsAgree(snap) {
      forall id | id in offers && offers[id].status == Assigned && offers[id].execution in executions
        ensures executions[offers[id].execution].client == offers[id].client && executions[offers[id].execution].request == offers[id].request
      {
        var i := OfferLoadedFrom(snap.offers, id);
        OfferLoadedAt(snap.offers, i);
        var j := ExecutionLoadedFrom(cfg, snap.executions, now, offers[id].execution);
        ExecutionLoadedAt(cfg, snap.executions, now, j);
        assert SameTerms(snap.offers[i], snap.executions[j]);
      }
    }
    if TermsKept(offers, executions) {
      forall i, j | 0 <= i < |snap.offers| && 0 <= j < |snap.executions| ensures SameTerms(snap.offers[i], snap.executions[j]) {
        OfferLoadedAt(snap.offers, i);
        ExecutionLoadedAt(cfg, snap.executions, now, j);
      }
    }
  }

  lemma UnboundLoaded(snap: Snapshot)
    requires LoadOffers(snap.offers).Some?
    ensures Unbinding(LoadOffers(snap.offers).value.0) <==> OthersUnbound(snap)
  {
    var offers := LoadOffers(snap.offers).value.0;
    hide LoadOffers;
    if OthersUnbound(snap) {
      forall id | id in offers && offers[id].status != Assigned ensures offers[id].execution == "" {
        var i := OfferLoadedFrom(snap.offers, id);
        OfferLoadedAt(snap.offers, i);
      }
    }
    if Unbinding(offers) {
      forall i | 0 <= i < |snap.offers| && snap.offers[i].status != 2 ensures snap.offers[i].execution == "" {
        OfferLoadedAt(snap.offers, i);
      }
    }
  }

  /** Expiry neither assigns nor unassigns. */
  lemma LapsedSame(offers: map<string, Offer>, executions: map<string, Execution>, now: Time)
    ensures AssignedIn(Lapsed(offers, now)) == AssignedIn(offers)
    ensures TermsKept(Lapsed(offers, now), executions) <==> TermsKept(offers, executions)
    ensures Unbinding(Lapsed(offers, now)) <==> Unbinding(offers)
  {
    var after := Lapsed(offers, now);
    forall id | id in offers
      ensures after[id].execution == offers[id].execution && after[id].client == offers[id].client && after[id].request == offers[id].request
      ensures after[id].status == Assigned <==> offers[id].status == Assigned
    {
    }
  }

  /** Over every snapshot the loader accepts: each loaded execution is named by an assigned offer and names it
      back exactly when the file lists as many executions as assigned offers. */
  lemma NoOrphanExactly(cfg: Config, identity: Identity, snap: Snapshot, now: Time)
    requires Loadable(cfg, identity, snap, now)
    ensures var s := Loaded(cfg, snap, now);
      (forall x | x in s.executions :: NamedBack(s.offers, s.executions, x)) <==> |snap.executions| == CountAssigned(snap.offers)
  {
    var offers, executions := LoadOffers(snap.offers).value.0, LoadExecutions(cfg, snap.executions, now).value;
    hide LoadOffers, LoadExecutions, AssignedIn, HoldingIds, LoadedReplay;
    assert Loaded(cfg, snap, now).offers == Lapsed(offers, now) && Loaded(cfg, snap, now).executions == executions;
    LapsedSame(offers, executions, now);
    NamedExactly(Lapsed(offers, now), executions);
    OffersCounted(snap.offers);
    ExecutionsCounted(cfg, snap.executions, now);
  }

  /** And executions and assigned offers are paired exactly when, besides, each pair agrees on client and request
      and no other offer names an execution. All of it can be read off the file. */
  lemma PairedExactly(cfg: Config, identity: Identity, snap: Snapshot, now: Time)
    requires Loadable(cfg, identity, snap, now)
    ensures Paired(Loaded(cfg, snap, now).offers, Loaded(cfg, snap, now).executions) <==>
      |snap.executions| == CountAssigned(snap.offers) && TermsAgree(snap) && OthersUnbound(snap)
  {
    var offers, executions := LoadOffers(snap.offers).value.0, LoadExecutions(cfg, snap.executions, now).value;
    hide LoadOffers, LoadExecutions, AssignedIn, HoldingIds, LoadedReplay, NamedBack, TermsKept, Unbinding, TermsAgree, OthersUnbound, Paired;
    NoOrphanExactly(cfg, identity, snap, now);
    LapsedSame(offers, executions, now);
    PairedIs(Lapsed(offers, now), executions);
    TermsLoaded(cfg, snap, now);
    UnboundLoaded(snap);
  }

  const ORPHANED := Snapshot(STATE_VERSION, [1], UNSET, map[], [],
                             [PersistedExecution("x", "o", [7], "c", Request("r", "c", ""), 2, "", None, 1, 1, false, 1, UNSET, 9)], [])

  /** The loader ties assigned offers to executions but not executions to offers: it accepts a snapshot
      with an execution no offer backs, and the state it builds breaks the invariant. */
  lemma OrphanAccepted(cfg: Config, now: Time)
    requires ValidConfig(cfg)
    ensures Loadable(cfg, [1], ORPHANED, now) && !Inv(cfg, Loaded(cfg, ORPHANED, now))
  {
    var p := ORPHANED.executions[0];
    assert ORPHANED.executions[..0] == [];
    assert LoadExecutions(cfg, ORPHANED.executions, now) == Some(map[][p.id := LoadExecution(cfg, p, now)]);
    var offers, executions := Lapsed(map[], now), LoadExecutions(cfg, ORPHANED.executions, now).value;
    assert HoldingIds(offers, executions) == {};
    forall c ensures Tally(offers, {})[c] <= Limit(cfg, c) {
      assert OfClass(offers, {}, c) == {};
    }
    assert p.id in executions;
    assert !Paired(offers, executions);
  }

  // -------------------------------------------------------------- the ledger's guard

  /** The releases an expiry pass makes, one by one. */
  function ReleaseAll(used: multiset<string>, classes: seq<string>): multiset<string> {
    if classes == [] then used else ReleaseAll(used, classes[..|classes| - 1]) - multiset{classes[|classes| - 1]}
  }

  /** Some release finds its counter at zero, so that the guard decides. */
  predicate GuardDecides(used: multiset<string>, classes: seq<string>) {
    exists i | 0 <= i < |classes| :: classes[i] !in ReleaseAll(used, classes[..i])
  }

  lemma {:induction false} ReleasedAll(used: multiset<string>, classes: seq<string>)
    ensures ReleaseAll(used, classes) == used - multiset(classes)
  {
    if classes != [] {
      var n := |classes| - 1;
      var rest, c := classes[..n], classes[n];
      ReleasedAll(used, rest);
      assert classes == rest + [c];
      LessOne(used, multiset(rest), c);
    }
  }

  lemma LessOne(used: multiset<string>, given: multiset<string>, c: string)
    ensures used - given - multiset{c} == used - (given + multiset{c})
  {
  }

  lemma GuardLast(used: multiset<string>, classes: seq<string>, c: string)
    ensures GuardDecides(used, classes + [c]) <==> GuardDecides(used, classes) || c !in ReleaseAll(used, classes)
  {
    var n, all := |classes|, classes + [c];
    hide ReleaseAll;
    assert all[..n] == classes && all[n] == c;
    forall i | 0 <= i < n ensures all[..i] == classes[..i] && all[i] == classes[i] {}
    if GuardDecides(used, classes) {
      var i :| 0 <= i < n && classes[i] !in ReleaseAll(used, classes[..i]);
      assert all[i] !in ReleaseAll(used, all[..i]);
    } else if c !in ReleaseAll(used, classes) {
      assert all[n] !in ReleaseAll(used, all[..n]);
    }
  }

  lemma CountedOneMore(used: multiset<string>, given: multiset<string>, c: string)
    ensures given + multiset{c} <= used <==> given <= used && c in used - given
  {
  }

  /** In whatever order the slots are given back, the guard decides exactly when they are not all counted. */
  lemma {:induction false} GuardExactly(used: multiset<string>, classes: seq<string>)
    ensures GuardDecides(used, classes) <==> !(multiset(classes) <= used)
  {
    if classes != [] {
      var n := |classes| - 1;
      var rest, c := classes[..n], classes[n];
      hide GuardDecides, ReleaseAll;
      GuardExactly(used, rest);
      ReleasedAll(used, rest);
      assert classes == rest + [c];
      GuardLast(used, rest, c);
      CountedOneMore(used, multiset(rest), c);
    }
  }

  /** In a running allocator the guard never decides, whatever is due and in whatever order it expires. */
  lemma GuardIdleInRuns(cfg: Config, w: World, now: Time, classes: seq<string>)
    requires Reachable(cfg, w) && multiset(classes) == Tally(w.mem.offers, DueIds(w.mem.offers, now))
    ensures !GuardDecides(w.mem.used, classes)
  {
    hide Reachable, GuardDecides;
    ReleaseGuardIdle(cfg, w, now);
    GuardExactly(w.mem.used, classes);
  }

  predicate DueOnFile(p: PersistedOffer, now: Time) {
    p.status == 1 && p.expiresAt <= now
  }

  /** While a snapshot loads, nothing is counted yet when its offers expire: the guard decides exactly when the
      file holds an outstanding offer whose expiry is not after the clock. */
  lemma GuardInLoaderExactly(snap: Snapshot, now: Time, classes: seq<string>)
    requires LoadOffers(snap.offers).Some?
    requires var offers := LoadOffers(snap.offers).value.0; multiset(classes) == Tally(offers, DueIds(offers, now))
    ensures GuardDecides(multiset{}, classes) <==> exists i | 0 <= i < |snap.offers| :: DueOnFile(snap.offers[i], now)
  {
    var offers := LoadOffers(snap.offers).value.0;
    hide LoadOffers, GuardDecides;
    GuardExactly(multiset{}, classes);
    if i :| 0 <= i < |snap.offers| && DueOnFile(snap.offers[i], now) {
      OfferLoadedAt(snap.offers, i);
      var id := snap.offers[i].offerId;
      TallySplits(offers, DueIds(offers, now) - {id}, {id});
      assert DueIds(offers, now) - {id} + {id} == DueIds(offers, now);
      TallyOne(offers, id);
      assert offers[id].resourceClass in multiset(classes);
    } else {
      forall id | id in offers ensures !Due(offers[id], now) {
        var i := OfferLoadedFrom(snap.offers, id);
        OfferLoadedAt(snap.offers, i);
        assert !DueOnFile(snap.offers[i], now);
      }
      assert DueIds(offers, now) == {};
      NothingTallied(offers);
    }
  }

  const LATE_OFFER := PersistedOffer("o", "r", "c", 1, Request("r", "c", ""), [7], 1, "")

  /** Such a snapshot: one outstanding offer that was due before the restart. */
  lemma GuardDecidesOnce()
    ensures LoadOffers([LATE_OFFER]).Some? && GuardDecides(multiset{}, ["c"])
    ensures var offers := LoadOffers([LATE_OFFER]).value.0; Tally(offers, DueIds(offers, 1)) == multiset(["c"])
  {
    var saved := [LATE_OFFER];
    assert saved[..|saved| - 1] == [] && LoadOffers([]) == Some((map[], map[]));
    assert LoadOffers(saved) == Some((map["o" := LoadOffer(LATE_OFFER)], map[SavedKey(LATE_OFFER) := "o"]));
    var offers := LoadOffers(saved).value.0;
    assert DueIds(offers, 1) == {"o"};
    TallyOne(offers, "o");
    assert ["c"][0] !in ReleaseAll(multiset{}, ["c"][..0]);
  }
}
