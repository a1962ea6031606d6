/** What the client guarantees: a deterministic choice that loses nothing, one
    assignment per request, and views that converge. */
module ClientTheorems {
  import opened Protocol
  import opened OfferOrder
  import opened ClientState
  import opened ExecutionViews
  import AllocatorRuns
  import AllocatorState

  // ------------------------------------------------------------------------- the choice

  lemma {:induction false} BestExists(all: set<Candidate>)
    requires all != {}
    ensures exists b :: Best(b, all)
    decreases |all|
  {
    var a :| a in all;
    if all == {a} {
      assert Best(a, all);
    } else {
      var rest := all - {a};
      assert all == rest + {a};
      BestExists(rest);
      var b :| Best(b, rest);
      Trichotomy(a, b);
      if Less(a, b) {
        forall c | c in all ensures c == a || Less(a, c) {
          if c != a && c != b { Transitive(a, b, c); }
        }
        assert Best(a, all);
      } else {
        assert Best(b, all);
      }
    }
  }

  /** If any offer is eligible, exactly one is chosen, whatever order they came in. */
  lemma ChoiceUnique(c: Client, r: RequestRecord, sel: Selection)
    requires (forall id | id in r.offers :: r.offers[id].offer.offerId == id)
    ensures EligibleIds(c, r, sel) != {} ==> exists id :: Chosen(c, r, sel, id)
    ensures forall id, id' | Chosen(c, r, sel, id) && Chosen(c, r, sel, id') :: id == id'
  {
    if EligibleIds(c, r, sel) != {} {
      var all := Candidates(c, r, sel);
      var some :| some in EligibleIds(c, r, sel);
      assert CandidateOf(c, r.offers[some], sel) in all;
      BestExists(all);
      var b :| Best(b, all);
      var id :| id in EligibleIds(c, r, sel) && CandidateOf(c, r.offers[id], sel) == b;
      assert Chosen(c, r, sel, id);
    }
    forall id, id' | Chosen(c, r, sel, id) && Chosen(c, r, sel, id') ensures id == id' {
      BestUnique(CandidateOf(c, r.offers[id], sel), CandidateOf(c, r.offers[id'], sel), Candidates(c, r, sel));
    }
  }

  // ------------------------------------------------------------------- what steps keep

  lemma SwapKeeps(c: Client, q: string, r: RequestRecord)
    requires ClientInv(c) && q in c.requests && r.executionId == c.requests[q].executionId
    requires OffersKeyed(q, r) && OneKept(c.executions, r)
    ensures ClientInv(c.(requests := c.requests[q := r]))
  {
    hide OffersKeyed, OneKept;
  }

  /** A new offer joins an open selection unreleased, and a closed one already released. */
  lemma OfferKeeps(c: Client, sender: Identity, correlation: string, offer: WireOffer, releaseId: string, now: Time)
    requires ClientInv(c)
    ensures ClientInv(HandleOffer(c, sender, correlation, offer, releaseId, now).0)
  {
    hide ClientInv, Refreshed, TakeOffer;
    if offer.requestId in c.requests && sender in c.routes {
      RefreshKeeps(c, sender, offer.node);
      TakeKeeps(Refreshed(c, sender, offer.node), sender, offer, releaseId, now);
    }
  }

  lemma RefreshKeeps(c: Client, sender: Identity, node: Option<Node>)
    requires ClientInv(c) && sender in c.routes
    ensures ClientInv(Refreshed(c, sender, node))
    ensures Refreshed(c, sender, node).requests == c.requests && Refreshed(c, sender, node).executions == c.executions
  {
    hide OffersKeyed, OneKept;
  }

  lemma TakeKeeps(c: Client, sender: Identity, offer: WireOffer, releaseId: string, now: Time)
    requires ClientInv(c) && offer.requestId in c.requests
    ensures ClientInv(TakeOffer(c, sender, c.requests[offer.requestId], offer, releaseId, now).0)
  {
    var r := c.requests[offer.requestId];
    assert OffersKeyed(offer.requestId, r) && OneKept(c.executions, r);
    hide ClientInv;
    var open := OfferRecord(offer, sender, None);
    var shut := OfferRecord(offer, sender, NewRelease(c, sender, releaseId, now).0);
    if offer.offerId !in r.offers {
      if r.executionId == "" {
        SwapKeeps(c, offer.requestId, r.(offers := r.offers[offer.offerId := open]));
      } else if NewRelease(c, sender, releaseId, now).1.None? {
        SwapKeeps(c, offer.requestId, r.(offers := r.offers[offer.offerId := shut]));
      }
    }
  }

  lemma ChosenKept(c: Client, r: RequestRecord, sel: Selection, chosen: string)
    requires OffersKeyed(r.request.requestId, r) && OneKept(c.executions, r) && r.executionId == "" && chosen in r.offers
    requires Releasable(c, r, sel, chosen)
    ensures forall id | id in r.offers :: Settled(c, r, sel, chosen)[id].release.None? <==> id == chosen
    ensures forall id | id in r.offers ::
      Settled(c, r, sel, chosen)[id].offer == r.offers[id].offer && Settled(c, r, sel, chosen)[id].allocatorId == r.offers[id].allocatorId
  {
    forall id | id in r.offers ensures Settled(c, r, sel, chosen)[id].release.None? <==> id == chosen {
      if id != chosen { assert id in Losers(r, chosen); }
    }
  }

  lemma BindKeeps(c: Client, q: string, r: RequestRecord, x: string, e: ExecutionRecord)
    requires ClientInv(c) && q in c.requests && c.requests[q].executionId == "" && x != "" && x !in c.executions
    requires OffersKeyed(q, r) && r.executionId == x && KeptIs(r, e) && e.requestId == q
    ensures ClientInv(c.(requests := c.requests[q := r], executions := c.executions[x := e]))
  {
    hide OffersKeyed, KeptIs;
    forall p | p in c.requests && p != q ensures OneKept(c.executions[x := e], c.requests[p]) {
      assert OneKept(c.executions, c.requests[p]);
    }
  }

  lemma CommitKeeps(c: Client, q: string, sel: Selection, chosen: string)
    requires ClientInv(c) && q in c.requests && c.requests[q].executionId == "" && Chosen(c, c.requests[q], sel, chosen)
    requires sel.executionId != "" && sel.executionId !in c.executions && Releasable(c, c.requests[q], sel, chosen)
    ensures ClientInv(Commit(c, c.requests[q], sel, chosen))
  {
    var r := c.requests[q];
    assert OffersKeyed(q, r) && OneKept(c.executions, r);
    hide Best, Releasable, Settled, Candidates, ClientInv;
    ChosenKept(c, r, sel, chosen);
    SettledKeys(c, r, sel, chosen);
    var c' := Commit(c, r, sel, chosen);
    BindKeeps(c, q, c'.requests[q], sel.executionId, c'.executions[sel.executionId]);
  }

  lemma SettledKeys(c: Client, r: RequestRecord, sel: Selection, chosen: string)
    ensures Settled(c, r, sel, chosen).Keys == r.offers.Keys
  {
    hide Lost;
  }

  lemma SelectKeeps(c: Client, me: Identity, requestId: string, sel: Selection, chosen: string)
    requires ClientInv(c)
    requires requestId in c.requests && EligibleIds(c, c.requests[requestId], sel) != {} ==> Chosen(c, c.requests[requestId], sel, chosen)
    ensures ClientInv(Select(c, me, requestId, sel, chosen).0)
  {
    hide Releasable, Settled;
    if requestId in c.requests { assert OffersKeyed(requestId, c.requests[requestId]); }
    hide ClientInv, Best;
    if Select(c, me, requestId, sel, chosen).0 != c {
      CommitKeeps(c, requestId, sel, chosen);
    }
  }

  lemma StateKeeps(c: Client, sender: Identity, v: View)
    requires ClientInv(c)
    ensures ClientInv(HandleState(c, sender, v).0)
  {
    if v.executionId in c.executions {
      var e := Observe(c.executions[v.executionId], v).0;
      ObserveFrame(c.executions[v.executionId], v);
      hide Observe, OffersKeyed;
      forall q | q in c.requests ensures OneKept(c.executions[v.executionId := e], c.requests[q]) {
        assert OneKept(c.executions, c.requests[q]);
      }
    }
  }

  lemma ObserveFrame(e: ExecutionRecord, v: View)
    ensures var e' := Observe(e, v).0; e' == e.(view := e'.view, leaseLost := e'.leaseLost)
  {
    hide Compare;
  }

  lemma AckedKept(executions: map<string, ExecutionRecord>, q: string, r: RequestRecord, offerId: string, o: OfferRecord)
    requires OffersKeyed(q, r) && OneKept(executions, r) && offerId in r.offers && r.offers[offerId].release.Some?
    requires o == r.offers[offerId].(release := o.release) && o.release.Some?
    ensures var r' := r.(offers := r.offers[offerId := o]); OffersKeyed(q, r') && OneKept(executions, r')
  {
  }

  lemma AckKeeps(c: Client, sender: Identity, correlation: string, requestId: string, offerId: string, outcome: ReleaseOutcome)
    requires ClientInv(c)
    ensures ClientInv(HandleReleaseAck(c, sender, correlation, requestId, offerId, outcome).0)
  {
    if requestId in c.requests && offerId in c.requests[requestId].offers && c.requests[requestId].offers[offerId].release.Some? {
      var r := c.requests[requestId];
      var o := r.offers[offerId].(release := Some(r.offers[offerId].release.value.(acknowledged := true)));
      hide OffersKeyed, OneKept;
      assert OffersKeyed(requestId, r) && OneKept(c.executions, r);
      hide ClientInv;
      AckedKept(c.executions, requestId, r, offerId, o);
      SwapKeeps(c, requestId, r.(offers := r.offers[offerId := o]));
    }
  }

  lemma CreateKeeps(c: Client, request: Request, messageId: string, now: Time)
    requires ClientInv(c)
    ensures ClientInv(CreateRequest(c, request, messageId, now).0)
  {
    hide KeptIs;
  }

  lemma RegisterKeeps(c: Client, identity: Identity, route: Route)
    requires ClientInv(c)
    ensures ClientInv(RegisterAllocator(c, identity, route).0)
  {
    hide OffersKeyed, OneKept;
  }

  /** After a selection exactly one offer of the request has no release, and it is the one its execution names. */
  lemma ExactlyOneKept(c: Client, q: string)
    requires ClientInv(c) && q in c.requests && c.requests[q].executionId != ""
    ensures var r := c.requests[q];
      && r.executionId in c.executions
      && (set id | id in r.offers && r.offers[id].release.None?) == {c.executions[r.executionId].offerId}
  {
    assert OneKept(c.executions, c.requests[q]);
  }

  // --------------------------------------------------------------------- convergence

  function Observed(e: ExecutionRecord, views: seq<View>): ExecutionRecord {
    if views == [] then e else Observe(Observed(e, views[..|views| - 1]), views[|views| - 1]).0
  }

  /** No view in the sequence is reported as a conflict. */
  predicate Agreeable(e: ExecutionRecord, views: seq<View>) {
    views == [] || (Agreeable(e, views[..|views| - 1]) && Observe(Observed(e, views[..|views| - 1]), views[|views| - 1]).1.None?)
  }

  /** One view per revision, and none above a terminal one. */
  predicate Consistent(views: seq<View>) {
    forall i, j | 0 <= i < |views| && 0 <= j < |views| ::
      && (views[i].revision == views[j].revision ==> views[i] == views[j])
      && (Terminal(views[i].phase) ==> views[j].revision <= views[i].revision)
  }

  predicate Highest(v: View, views: seq<View>) {
    v in views && forall w | w in views :: w.revision <= v.revision
  }

  /** Any delivery of consistent views, in any order and with any repetition, ends at the highest revision
      delivered, and none is reported as a conflict. */
  lemma {:induction false} ViewsConverge(e: ExecutionRecord, views: seq<View>)
    requires e.view.None? && !e.leaseLost && Consistent(views)
    ensures Agreeable(e, views)
    ensures views == [] ==> Observed(e, views) == e
    ensures views != [] ==> Observed(e, views).view.Some? && Highest(Observed(e, views).view.value, views)
    ensures views != [] ==> (Observed(e, views).leaseLost <==> LeaseGone(Observed(e, views).view.value))
  {
    if views != [] {
      var n := |views| - 1;
      var rest, last := views[..n], views[n];
      ConsistentPrefix(views);
      ViewsConverge(e, rest);
      if n > 0 {
        var was := Observed(e, rest).view.value;
        AgreesWithLast(views, was);
        ObserveOne(Observed(e, rest), last);
        hide Observe, Consistent, LeaseGone, Highest;
        HighestOf(views, was);
      } else {
        assert rest == [] && views == [last];
      }
    }
  }

  lemma ConsistentPrefix(views: seq<View>)
    requires views != [] && Consistent(views)
    ensures Consistent(views[..|views| - 1])
  {
  }

  lemma AgreesWithLast(views: seq<View>, was: View)
    requires |views| > 1 && Consistent(views) && Highest(was, views[..|views| - 1])
    ensures var last := views[|views| - 1];
      && (was.revision == last.revision ==> was == last) && (Terminal(was.phase) ==> last.revision <= was.revision)
      && (Terminal(was.phase) || !LeaseGone(was) || last.revision <= was.revision)
  {
    var k :| 0 <= k < |views| - 1 && views[..|views| - 1][k] == was;
    assert views[k] == was;
  }

  lemma HighestOf(views: seq<View>, was: View)
    requires |views| > 1 && Highest(was, views[..|views| - 1])
    ensures var last := views[|views| - 1]; Highest(if last.revision > was.revision then last else was, views)
  {
    var n := |views| - 1;
    forall w | w in views ensures w in views[..n] || w == views[n] {
      var i :| 0 <= i < |views| && views[i] == w;
      if i < n { assert views[..n][i] == w; }
    }
  }

  /** One more view that agrees with the one on file. */
  lemma ObserveOne(e: ExecutionRecord, v: View)
    requires e.view.Some? && (e.view.value.revision == v.revision ==> e.view.value == v)
    requires Terminal(e.view.value.phase) ==> v.revision <= e.view.value.revision
    ensures var (e', err) := Observe(e, v);
      && err.None? && e'.view.Some? && e'.view.value == (if v.revision > e.view.value.revision then v else e.view.value)
      && e'.leaseLost == (e.leaseLost || (v.revision > e.view.value.revision && LeaseGone(v)))
  {
  }

  /** The states one allocator run shows of an assignment, delivered in any order and number, converge. */
  lemma AllocatorViewsConverge(cfg: AllocatorState.Config, worlds: seq<AllocatorRuns.World>, events: seq<AllocatorRuns.Event>,
                               n: nat, offerId: string, e: ExecutionRecord, views: seq<View>)
    requires AllocatorState.ValidConfig(cfg) && AllocatorRuns.Run(cfg, worlds, events) && CrashesSynced(worlds, events) && n < |worlds|
    requires e.view.None? && !e.leaseLost && forall i | 0 <= i < |views| :: (offerId, views[i]) in worlds[n].views
    ensures Agreeable(e, views)
    ensures views != [] ==> Observed(e, views).view.Some? && Highest(Observed(e, views).view.value, views)
  {
    hide AllocatorRuns.Run, CrashesSynced, Agreeable, Observed;
    ViewsCohere(cfg, worlds, events, n);
    forall i, j | 0 <= i < |views| && 0 <= j < |views|
      ensures views[i].revision == views[j].revision ==> views[i] == views[j]
      ensures Terminal(views[i].phase) ==> views[j].revision <= views[i].revision
    {
      assert (offerId, views[i]) in worlds[n].views && (offerId, views[j]) in worlds[n].views;
    }
    ViewsConverge(e, views);
  }
}
