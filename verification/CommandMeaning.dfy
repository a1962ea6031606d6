/** What single commands mean for the client that sends them: repeating a
    command changes nothing, and an assigned offer never launches again. */
module CommandMeaning {
  import opened Protocol
  import opened AllocatorState
  import opened AllocatorInvariant

  // ---------------------------------------------------------------------- requests

  /** `id` is on record as the offer for this very request, and may still be taken or has been. */
  predicate Stands(s: State, client: Identity, q: Request, id: string) {
    && (client, q.requestId) in s.requests && s.requests[(client, q.requestId)] == id && id in s.offers
    && s.offers[id].request == q && (s.offers[id].status == Outstanding || s.offers[id].status == Assigned)
  }

  /** Asking again while the offer stands gives it again and takes nothing more. */
  lemma Reoffers(cfg: Config, s: State, client: Identity, q: Request, now: Time, env: RequestEnv, id: string)
    requires Stands(s, client, q, id) && now < s.offers[id].expiresAt
    ensures HandleRequest(cfg, s, client, q, now, env) == (Expire(s, now), OfferReply(id, s.offers[id]))
  {
    ExpireAt(s, now, id);
    hide Expire, RequestRefusal, Mint;
  }

  lemma ExpireAt(s: State, now: Time, id: string)
    requires id in s.offers
    ensures Expire(s, now).requests == s.requests && id in Expire(s, now).offers && Expire(s, now).offers[id] == Lapse(s.offers[id], now)
  {
  }

  // -------------------------------------------------------------------- assignments

  /** An assigned offer never launches again: the same execution gets its state, any other is refused. */
  lemma AssignedNeverLaunches(cfg: Config, s: State, e: Envelope, requestId: string, offerId: string, x: string,
                              now: Time, placed: bool, saved: bool)
    requires Inv(cfg, s) && offerId in s.offers && s.offers[offerId].status == Assigned
    requires s.offers[offerId].client == e.sender && s.offers[offerId].requestId == requestId
    ensures s.offers[offerId].execution in s.executions
    ensures AssignBegin(cfg, s, e, requestId, offerId, x, now, placed, saved).1
         == Settled(if x == s.offers[offerId].execution then Answer(StateResponse(ViewOf(x, s.executions[x]))) else Fail(OfferAlreadyAssigned))
  {
    hide Inv, Expire, Admit, Bind;
    ExecutionThere(cfg, s, offerId);
    ExpireAt(s, now, offerId);
    ExpireFrame(s, now);
  }

  lemma ExecutionThere(cfg: Config, s: State, id: string)
    requires Inv(cfg, s) && id in s.offers && s.offers[id].status == Assigned
    ensures s.offers[id].execution in s.executions
  {
    hide Offered, Indexed, Shaped, LedgerExact, WithinLimits, Budgeted, QuotasKept, ReplaySound;
  }

  // ----------------------------------------------------------------- releases

  /** A settled offer answers every release with its status and stays as it is. */
  lemma SettledAnswers(s: State, e: Envelope, requestId: string, offerId: string, now: Time, saved: bool)
    requires offerId in s.offers && s.offers[offerId].status != Outstanding
    requires s.offers[offerId].client == e.sender && s.offers[offerId].requestId == requestId
    ensures HandleRelease(s, e, requestId, offerId, now, saved).0 == s
    ensures HandleRelease(s, e, requestId, offerId, now, saved).1 == Answer(ReleaseAck(requestId, offerId, OutcomeOf(s.offers[offerId].status)))
  {
  }

  function OutcomeOf(status: OfferStatus): ReleaseOutcome {
    match status case Expired => OutcomeExpired case Assigned => OutcomeAssigned case _ => OutcomeReleased
  }

  lemma OutstandingReleased(cfg: Config, s: State, e: Envelope, requestId: string, offerId: string, now: Time)
    requires Inv(cfg, s) && offerId in s.offers && s.offers[offerId].status == Outstanding
    requires s.offers[offerId].client == e.sender && s.offers[offerId].requestId == requestId
    ensures var (t, r) := HandleRelease(s, e, requestId, offerId, now, true); var o := s.offers[offerId];
      && t.offers == s.offers[offerId := o.(status := if o.expiresAt <= now then Expired else Released)]
      && s.used == t.used + multiset{o.resourceClass}
      && r == Answer(ReleaseAck(requestId, offerId, OutcomeOf(t.offers[offerId].status)))
  {
    hide Inv, Unreserved;
    ReleaseInv(cfg, s, offerId, Released);
    OneBack(s.used, s.offers[offerId].resourceClass);
  }

  lemma OneBack(used: multiset<string>, c: string)
    requires c in used
    ensures used == used - multiset{c} + multiset{c}
  {
  }

  /** A release answers with what the offer has become, frees exactly one slot if the offer held one as an offer,
      and repeated answers the same without freeing another. */
  lemma ReleaseRepeats(cfg: Config, s: State, e: Envelope, requestId: string, offerId: string, now: Time, later: Time, saved: bool)
    requires Inv(cfg, s) && offerId in s.offers && s.offers[offerId].client == e.sender && s.offers[offerId].requestId == requestId
    ensures var (t, r) := HandleRelease(s, e, requestId, offerId, now, true);
      && offerId in t.offers && t.offers[offerId].status != Outstanding
      && r == Answer(ReleaseAck(requestId, offerId, OutcomeOf(t.offers[offerId].status)))
      && s.used == (if s.offers[offerId].status == Outstanding then t.used + multiset{s.offers[offerId].resourceClass} else t.used)
      && HandleRelease(t, e, requestId, offerId, later, saved) == (t, r)
  {
    hide Inv, HandleRelease;
    if s.offers[offerId].status == Outstanding {
      OutstandingReleased(cfg, s, e, requestId, offerId, now);
    } else {
      SettledAnswers(s, e, requestId, offerId, now, true);
    }
    SettledAnswers(HandleRelease(s, e, requestId, offerId, now, true).0, e, requestId, offerId, later, saved);
  }

  // -------------------------------------------------------------------------- retention

  /** A sweep takes an execution away only once it has ended and its retention has passed at effective time. */
  lemma ResultsRetained(cfg: Config, s: State, now: Time, x: string)
    requires Inv(cfg, s) && x in s.executions && x !in Sweep(cfg, s, now).executions
    ensures Terminal(s.executions[x].phase) && s.executions[x].retainUntil <= Max(s.highWater, now)
  {
    var s1 := SweepReady(cfg, s, now);
    assert s1.executions == s.executions && s1.highWater == Max(s.highWater, now) by {
      hide Expire;
      ExpireFrame(Advance(s, now), Max(s.highWater, now));
    }
    SweepInv(cfg, s, now);
    hide Inv, SweepReady, CollectableIds;
    CollectedEnded(cfg, s1, s1.highWater, x);
  }

  lemma CollectedEnded(cfg: Config, s: State, now: Time, x: string)
    requires Inv(cfg, s) && x in s.executions && x !in AllocatorState.Collect(s, CollectableIds(s, now), now).executions
    ensures Terminal(s.executions[x].phase) && s.executions[x].retainUntil <= now
  {
    hide Offered, Indexed, LedgerExact, WithinLimits, Budgeted, QuotasKept, ReplaySound, Busy;
    var id :| id in CollectableIds(s, now) && s.offers[id].execution == x;
    assert ExecutionShape(x, s.executions[x]);
  }
}
