/** How the live state may change in one locked section that neither mints,
    binds nor collects. Everything the run-level safety properties depend on
    survives such a step. */
module AllocatorQuiet {
  import opened Protocol
  import opened AllocatorState
  import opened AllocatorInvariant

  predicate OfferStep(o: Offer, o': Offer) {
    o' == o || (o.status == Outstanding && (o' == o.(status := Expired) || o' == o.(status := Released)))
  }

  predicate OffersKept(s: State, s': State) {
    && s'.requests == s.requests && s'.offers.Keys == s.offers.Keys
    && forall id | id in s.offers :: OfferStep(s.offers[id], s'.offers[id])
  }

  /** A record shows the same state, or it was live and shows the next revision. */
  predicate RecordStep(r: Execution, r': Execution) {
    && SameWork(r, r')
    && (ViewOf("", r') == ViewOf("", r) || (!Terminal(r.phase) && r'.revision == r.revision + 1))
  }

  predicate RecordsKept(s: State, s': State) {
    s'.executions.Keys == s.executions.Keys && forall x | x in s.executions :: RecordStep(s.executions[x], s'.executions[x])
  }

  predicate SameGuard(d: Tombstone, d': Tombstone) {
    d'.client == d.client && d'.requestId == d.requestId && d'.expiresAt == d.expiresAt
  }

  predicate TombstonesKept(s: State, s': State) {
    s'.tombstones.Keys == s.tombstones.Keys && forall id | id in s.tombstones :: SameGuard(s.tombstones[id], s'.tombstones[id])
  }

  predicate Quiet(s: State, s': State) {
    OffersKept(s, s') && RecordsKept(s, s') && TombstonesKept(s, s') && s.highWater <= s'.highWater
  }

  /** Replay entries of commands still being handled are never dropped. */
  predicate EntriesKept(replay: map<ReplayKey, ReplayEntry>, replay': map<ReplayKey, ReplayEntry>) {
    forall k | k in replay && !replay[k].done :: k in replay' && replay'[k] == replay[k]
  }

  lemma ExpireQuiet(s: State, now: Time)
    ensures Quiet(s, Expire(s, now)) && EntriesKept(s.replay, Expire(s, now).replay)
  {
  }

  lemma PruneKeeps(cfg: Config, replay: map<ReplayKey, ReplayEntry>, now: Time)
    ensures EntriesKept(replay, Prune(cfg, replay, now))
  {
  }

  /** `Quiet` reads neither the replay cache nor the ledger. */
  lemma QuietElsewhere(s: State, s': State, replay: map<ReplayKey, ReplayEntry>)
    requires Quiet(s, s')
    ensures Quiet(s, s'.(replay := replay))
  {
    hide OfferStep, RecordStep, SameGuard;
  }

  lemma EvictKeeps(replay: map<ReplayKey, ReplayEntry>, victims: set<ReplayKey>, limit: int)
    requires Evicts(replay, victims, limit)
    ensures EntriesKept(replay, replay - victims)
  {
  }

  lemma EntriesChain(a: map<ReplayKey, ReplayEntry>, b: map<ReplayKey, ReplayEntry>, c: map<ReplayKey, ReplayEntry>)
    requires EntriesKept(a, b) && EntriesKept(b, c)
    ensures EntriesKept(a, c)
  {
  }

  lemma EntriesGrow(a: map<ReplayKey, ReplayEntry>, b: map<ReplayKey, ReplayEntry>, key: ReplayKey, entry: ReplayEntry)
    requires EntriesKept(a, b) && key !in a
    ensures EntriesKept(a, b[key := entry])
  {
  }

  lemma BeginEntries(cfg: Config, s: State, e: Envelope, now: Time, victims: set<ReplayKey>, saved: bool)
    requires Evicts(Prune(cfg, s.replay, now), victims, cfg.replayCapacity - 1)
    ensures EntriesKept(s.replay, BeginReplay(cfg, s, e, now, victims, saved).0.replay)
  {
    hide EntriesKept, Expire, Evicts;
    var p, key := Prune(cfg, s.replay, now), ReplayKeyOf(e);
    PruneKeeps(cfg, s.replay, now);
    EvictKeeps(p, victims, cfg.replayCapacity - 1);
    EntriesChain(s.replay, p, p - victims);
    if key !in p {
      EntriesGrow(p, p - victims, key, ReplayEntry(now, e, false, Reply([], None)));
      EntriesChain(s.replay, p, (p - victims)[key := ReplayEntry(now, e, false, Reply([], None))]);
    }
  }

  lemma BeginQuiet(cfg: Config, s: State, e: Envelope, now: Time, victims: set<ReplayKey>, saved: bool)
    requires Evicts(Prune(cfg, s.replay, now), victims, cfg.replayCapacity - 1)
    ensures var s' := BeginReplay(cfg, s, e, now, victims, saved).0; Quiet(s, s') && EntriesKept(s.replay, s'.replay)
  {
    hide Quiet, EntriesKept, Expire, Prune, Evicts;
    BeginEntries(cfg, s, e, now, victims, saved);
    ExpireQuiet(s, now);
    var s' := BeginReplay(cfg, s, e, now, victims, saved).0;
    QuietElsewhere(s, Expire(s, now), s'.replay);
  }

  lemma OfferQuiet(s: State, id: string, o: Offer, used: multiset<string>)
    requires id in s.offers && OfferStep(s.offers[id], o)
    ensures Quiet(s, s.(offers := s.offers[id := o], used := used))
  {
  }

  lemma RecordQuiet(s: State, x: string, r: Execution)
    requires x in s.executions && RecordStep(s.executions[x], r)
    ensures Quiet(s, SetExecution(s, x, r))
  {
  }

  lemma FinishQuiet(cfg: Config, s: State, x: string, phase: Phase, detail: string, exit: Option<int>, now: Time)
    requires x in s.executions && !Terminal(s.executions[x].phase)
    ensures Quiet(s, Finish(cfg, s, x, phase, detail, exit, now)) && Finish(cfg, s, x, phase, detail, exit, now).replay == s.replay
  {
  }

  lemma AssignEndQuiet(cfg: Config, s: State, x: string, startErr: Option<string>, now: Time)
    requires x in s.executions
    ensures var s' := AssignEnd(cfg, s, x, startErr, now); Quiet(s, s') && s'.replay == s.replay
  {
    hide Quiet;
    SelfQuiet(s);
    if s.executions[x].phase == Starting {
      RecordQuiet(s, x, Touch(s.executions[x], Running, s.executions[x].detail, now));
      if startErr.Some? { FinishQuiet(cfg, s, x, Failed, startErr.value, None, now); }
    }
  }

  lemma SelfQuiet(s: State)
    ensures Quiet(s, s)
  {
  }

  lemma CancelQuiet(s: State, e: Envelope, x: string, reason: string, now: Time, saved: bool)
    ensures var s' := CancelBegin(s, e, x, reason, now, saved).0; Quiet(s, s') && s'.replay == s.replay
  {
    hide Quiet;
    SelfQuiet(s);
    if x in s.executions && !Terminal(s.executions[x].phase) {
      RecordQuiet(s, x, Touch(s.executions[x], Phase.Cancelling, reason, now));
    }
  }

  lemma StopQuiet(cfg: Config, s: State, x: string, reason: string, wasPhase: Phase, wasDetail: string,
                  stopped: bool, now: Time)
    ensures x in s.executions ==>
      var s' := CancelEnd(cfg, s, x, reason, wasPhase, wasDetail, stopped, now); Quiet(s, s') && s'.replay == s.replay
    ensures var s' := EvictEnd(cfg, s, x, wasPhase, wasDetail, stopped, now); Quiet(s, s') && s'.replay == s.replay
  {
    hide Quiet, AllocatorState.Finish;
    SelfQuiet(s);
    if x in s.executions && !Terminal(s.executions[x].phase) {
      FinishQuiet(cfg, s, x, Cancelled, reason, None, now);
      FinishQuiet(cfg, s, x, Failed, LEASE_EXPIRED, None, now);
      RecordQuiet(s, x, Touch(s.executions[x], wasPhase, wasDetail, now));
    }
  }

  lemma EvictBeginQuiet(s: State, x: string, now: Time, saved: bool)
    requires x in s.executions && !Terminal(s.executions[x].phase)
    ensures Quiet(s, EvictBegin(s, x, now, saved))
  {
    hide Quiet;
    SelfQuiet(s);
    RecordQuiet(s, x, Touch(s.executions[x], Phase.Cancelling, LEASE_EXPIRED, now));
  }

  lemma ReleaseQuiet(s: State, e: Envelope, r: string, o: string, now: Time, saved: bool)
    ensures var s' := HandleRelease(s, e, r, o, now, saved).0; Quiet(s, s') && s'.replay == s.replay
  {
    hide Quiet;
    SelfQuiet(s);
    if o in s.offers && s.offers[o].status == Outstanding {
      var offer := s.offers[o];
      OfferQuiet(s, o, offer.(status := Expired), s.used - multiset{offer.resourceClass});
      OfferQuiet(s, o, offer.(status := Released), s.used - multiset{offer.resourceClass});
    }
  }

  lemma RenewQuiet(s: State, e: Envelope, x: string, duration: int, now: Time, saved: bool)
    ensures var s' := HandleRenew(s, e, x, duration, now, saved).0; Quiet(s, s') && s'.replay == s.replay
  {
    hide Quiet;
    SelfQuiet(s);
    if x in s.executions { RecordQuiet(s, x, s.executions[x].(leaseUntil := now + duration)); }
  }

  lemma CompletedQuiet(cfg: Config, s: State, c: Completion, now: Time, saved: bool)
    ensures var s' := RuntimeCompleted(cfg, s, c, now, saved).0; Quiet(s, s') && s'.replay == s.replay
  {
    hide Quiet, AllocatorState.Finish;
    SelfQuiet(s);
    if c.executionId in s.executions && !Terminal(s.executions[c.executionId].phase) {
      FinishQuiet(cfg, s, c.executionId, CompletionPhase(c), CompletionDetail(c), c.exitCode, now);
    }
  }

  lemma RecoverQuiet(cfg: Config, s: State, x: string, outcome: RuntimeOutcome, checked: Time, now: Time)
    requires x in s.executions
    ensures Quiet(s, RecoverVisit(cfg, s, x, outcome, checked, now))
  {
    hide Quiet, AllocatorState.Finish;
    SelfQuiet(s);
    var r := s.executions[x];
    if !Terminal(r.phase) {
      FinishQuiet(cfg, s, x, if r.detail == LEASE_EXPIRED then Failed else Cancelled, r.detail, None, now);
      FinishQuiet(cfg, s, x, Failed, LEASE_EXPIRED, None, now);
      RecordQuiet(s, x, Touch(r, Running, r.detail, now));
      if outcome.Missing? || outcome.Conflicting? { FinishQuiet(cfg, s, x, Failed, outcome.detail, None, now); }
    }
  }

  lemma CleanedUpQuiet(s: State, id: string)
    requires id in s.tombstones
    ensures Quiet(s, CleanedUp(s, id))
  {
  }

  lemma ReloadQuiet(cfg: Config, s: State, now: Time)
    requires Shaped(s.executions)
    ensures Quiet(s, Reload(cfg, s, now))
  {
    ReloadKeepsExecutions(cfg, s, now);
  }
}
