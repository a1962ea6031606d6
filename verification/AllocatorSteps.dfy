/** Every locked section keeps the allocator invariant, on its success branch
    and on its failed-save branch alike. */
module AllocatorSteps {
  import opened Protocol
  import opened AllocatorState
  import opened AllocatorInvariant

  predicate Live(phase: Phase) {
    phase != Unspecified && !Terminal(phase)
  }

  lemma TouchKeeps(cfg: Config, s: State, x: string, phase: Phase, detail: string, now: Time)
    requires Inv(cfg, s) && x in s.executions && !Terminal(s.executions[x].phase) && Live(phase) && now > UNSET
    ensures Inv(cfg, SetExecution(s, x, Touch(s.executions[x], phase, detail, now)))
  {
    hide Offered, Indexed, Paired, LedgerExact, QuotaKept, ReplaySound, Budgeted, SetExecution;
    ShapeOf(s.executions, x);
    StayLiveInv(cfg, s, x, Touch(s.executions[x], phase, detail, now));
  }

  lemma BeginKeeps(cfg: Config, s: State, e: Envelope, now: Time, victims: set<ReplayKey>, saved: bool)
    requires Inv(cfg, s)
    ensures Inv(cfg, BeginReplay(cfg, s, e, now, victims, saved).0)
  {
    hide Inv, ReplaySound, Expire, Prune;
    var s1 := Expire(s, now).(replay := Prune(cfg, s.replay, now));
    var s2 := s1.(replay := s1.replay - victims);
    InvReplay(cfg, s);
    ExpireInv(cfg, s, now);
    PruneSound(cfg, s.replay, now);
    ReplayInv(cfg, Expire(s, now), s1.replay);
    ReplayDrops(cfg, s1.replay, victims);
    ReplayInv(cfg, s1, s2.replay);
    var key, entry := ReplayKeyOf(e), ReplayEntry(now, e, false, Reply([], None));
    if |s2.replay| < cfg.replayCapacity {
      ReplayGrows(cfg, s2.replay, key, entry);
      ReplayInv(cfg, s2, s2.replay[key := entry]);
    }
  }

  lemma InvReplay(cfg: Config, s: State)
    requires Inv(cfg, s)
    ensures ReplaySound(cfg, s.replay)
  {
    hide Offered, Indexed, Paired, Shaped, LedgerExact, QuotaKept, Budgeted;
  }

  lemma ReplayDrops(cfg: Config, replay: map<ReplayKey, ReplayEntry>, victims: set<ReplayKey>)
    requires ReplaySound(cfg, replay)
    ensures ReplaySound(cfg, replay - victims)
  {
    MapShrinks(replay, replay - victims);
  }

  lemma ReplayGrows(cfg: Config, replay: map<ReplayKey, ReplayEntry>, key: ReplayKey, entry: ReplayEntry)
    requires ReplaySound(cfg, replay) && |replay| < cfg.replayCapacity && ReplayKeyOf(entry.envelope) == key
    ensures ReplaySound(cfg, replay[key := entry])
  {
    assert replay[key := entry].Keys == replay.Keys + {key};
    MapSize(replay);
    MapSize(replay[key := entry]);
  }

  lemma FinishReplayKeeps(cfg: Config, s: State, e: Envelope, reply: Reply, victims: set<ReplayKey>)
    requires Inv(cfg, s)
    ensures Inv(cfg, FinishReplay(s, e, reply, victims))
  {
    hide Offered, Indexed, Paired, Shaped, LedgerExact, QuotaKept, Budgeted, WithinLimits;
    var key := ReplayKeyOf(e);
    if key in s.replay {
      var t := s.replay[key := Finished(s.replay[key], reply)] - victims;
      MapShrinks(s.replay, t);
      ReplayInv(cfg, s, t);
    }
  }

  lemma RequestKeeps(cfg: Config, s: State, client: Identity, q: Request, now: Time, env: RequestEnv)
    requires Inv(cfg, s) && q.requestId != "" && env.newId !in s.tombstones
    ensures Inv(cfg, HandleRequest(cfg, s, client, q, now, env).0)
  {
    hide Inv, Expire, Mint, Admit, Tombstoned;
    var s1 := Expire(s, now);
    ExpireInv(cfg, s, now);
    ExpireFrame(s, now);
    if (client, q.requestId) !in s1.requests && RequestRefusal(cfg, s1, client, q, env).None? && env.saved {
      MintInv(cfg, s1, client, q, now, env);
    } else if (client, q.requestId) in s1.requests {
      IndexHits(cfg, s1, (client, q.requestId));
    }
  }

  lemma IndexHits(cfg: Config, s: State, k: RequestKey)
    requires Inv(cfg, s) && k in s.requests
    ensures s.requests[k] in s.offers && KeyOf(s.offers[s.requests[k]]) == k
  {
    hide Paired, Shaped, LedgerExact, QuotaKept, ReplaySound, Budgeted, Offered;
  }

  lemma AssignKeeps(cfg: Config, s: State, e: Envelope, r: string, o: string, x: string, now: Time, placed: bool, saved: bool)
    requires ValidConfig(cfg) && Inv(cfg, s) && x != "" && now > UNSET
    ensures Inv(cfg, AssignBegin(cfg, s, e, r, o, x, now, placed, saved).0)
  {
    hide Inv, Expire, Bind, Admit;
    var s1 := Expire(s, now);
    ExpireInv(cfg, s, now);
    if AssignRefusal(cfg, s1, e, r, o, x, placed).None? && saved {
      BindInv(cfg, s1, o, x, now);
    }
  }

  lemma AssignEndKeeps(cfg: Config, s: State, x: string, startErr: Option<string>, now: Time)
    requires ValidConfig(cfg) && Inv(cfg, s) && x in s.executions && now > UNSET
    ensures Inv(cfg, AssignEnd(cfg, s, x, startErr, now))
  {
    hide Inv, Finish, SetExecution, Touch;
    if s.executions[x].phase == Starting {
      if startErr.Some? {
        FinishInv(cfg, s, x, Failed, startErr.value, None, now);
      } else {
        TouchKeeps(cfg, s, x, Running, s.executions[x].detail, now);
      }
    }
  }

  lemma CancelKeeps(cfg: Config, s: State, e: Envelope, x: string, reason: string, now: Time, saved: bool)
    requires Inv(cfg, s) && now > UNSET
    ensures Inv(cfg, CancelBegin(s, e, x, reason, now, saved).0)
  {
    hide Inv, SetExecution, Touch;
    if x in s.executions && !Terminal(s.executions[x].phase) {
      TouchKeeps(cfg, s, x, Phase.Cancelling, reason, now);
    }
  }

  lemma UnhaltKeeps(cfg: Config, s: State, x: string, phase: Phase, detail: string, now: Time)
    requires Inv(cfg, s) && x in s.executions && Live(phase) && now > UNSET
    ensures Inv(cfg, Unhalt(s, x, phase, detail, now))
  {
    hide Inv, SetExecution, Touch;
    if s.executions[x].phase == Phase.Cancelling {
      TouchKeeps(cfg, s, x, phase, detail, now);
    }
  }

  lemma HaltedKeeps(cfg: Config, s: State, x: string, phase: Phase, reason: string, now: Time)
    requires ValidConfig(cfg) && Inv(cfg, s) && x in s.executions && Terminal(phase) && now > UNSET
    ensures Inv(cfg, Halted(cfg, s, x, phase, reason, now))
  {
    hide Inv, Finish;
    if !Terminal(s.executions[x].phase) {
      FinishInv(cfg, s, x, phase, reason, None, now);
    }
  }

  lemma StopKeeps(cfg: Config, s: State, x: string, reason: string, wasPhase: Phase, wasDetail: string,
                  stopped: bool, now: Time)
    requires ValidConfig(cfg) && Inv(cfg, s) && Live(wasPhase) && now > UNSET
    ensures x in s.executions ==> Inv(cfg, CancelEnd(cfg, s, x, reason, wasPhase, wasDetail, stopped, now))
    ensures Inv(cfg, EvictEnd(cfg, s, x, wasPhase, wasDetail, stopped, now))
  {
    hide Inv, Halted, Unhalt;
    if x in s.executions {
      HaltedKeeps(cfg, s, x, Cancelled, reason, now);
      HaltedKeeps(cfg, s, x, Failed, LEASE_EXPIRED, now);
      UnhaltKeeps(cfg, s, x, wasPhase, wasDetail, now);
    }
  }

  lemma EvictBeginKeeps(cfg: Config, s: State, x: string, now: Time, saved: bool)
    requires Inv(cfg, s) && x in s.executions && LeaseLapsed(s.executions[x], now) && now > UNSET
    ensures Inv(cfg, EvictBegin(s, x, now, saved))
  {
    hide Inv, SetExecution, Touch;
    TouchKeeps(cfg, s, x, Phase.Cancelling, LEASE_EXPIRED, now);
  }

  lemma ReleaseKeeps(cfg: Config, s: State, e: Envelope, r: string, o: string, now: Time, saved: bool)
    requires Inv(cfg, s)
    ensures Inv(cfg, HandleRelease(s, e, r, o, now, saved).0)
  {
    hide Inv;
    if o in s.offers && s.offers[o].status == Outstanding && saved {
      ReleaseInv(cfg, s, o, if s.offers[o].expiresAt <= now then Expired else Released);
    }
  }

  lemma RenewKeeps(cfg: Config, s: State, e: Envelope, x: string, duration: int, now: Time, saved: bool)
    requires Inv(cfg, s) && duration > 0 && now > UNSET
    ensures Inv(cfg, HandleRenew(s, e, x, duration, now, saved).0)
  {
    hide Offered, Indexed, Paired, LedgerExact, QuotaKept, ReplaySound, Budgeted, SetExecution;
    if x in s.executions && !Terminal(s.executions[x].phase) {
      ShapeOf(s.executions, x);
      StayLiveInv(cfg, s, x, s.executions[x].(leaseUntil := now + duration));
    }
  }

  lemma CompletedKeeps(cfg: Config, s: State, c: Completion, now: Time, saved: bool)
    requires ValidConfig(cfg) && Inv(cfg, s) && now > UNSET
    ensures Inv(cfg, RuntimeCompleted(cfg, s, c, now, saved).0)
  {
    hide Inv, AllocatorState.Finish;
    if c.executionId in s.executions && !Terminal(s.executions[c.executionId].phase) {
      FinishInv(cfg, s, c.executionId, CompletionPhase(c), CompletionDetail(c), c.exitCode, now);
    }
  }

  lemma RecoverKeeps(cfg: Config, s: State, x: string, outcome: RuntimeOutcome, checked: Time, now: Time)
    requires ValidConfig(cfg) && Inv(cfg, s) && x in s.executions && now > UNSET
    ensures Inv(cfg, RecoverVisit(cfg, s, x, outcome, checked, now))
  {
    hide Inv, AllocatorState.Finish, SetExecution, Touch;
    var r := s.executions[x];
    if !Terminal(r.phase) {
      FinishInv(cfg, s, x, if r.detail == LEASE_EXPIRED then Failed else Cancelled, r.detail, None, now);
      FinishInv(cfg, s, x, Failed, LEASE_EXPIRED, None, now);
      TouchKeeps(cfg, s, x, Running, r.detail, now);
      if outcome.Missing? || outcome.Conflicting? { FinishInv(cfg, s, x, Failed, outcome.detail, None, now); }
    }
  }

  lemma CleanedUpKeeps(cfg: Config, s: State, id: string)
    requires Inv(cfg, s) && id in s.tombstones
    ensures Inv(cfg, CleanedUp(s, id))
  {
    hide Offered, Indexed, Paired, Shaped, QuotaKept, ReplaySound;
    var t := CleanedUp(s, id);
    assert t.tombstones.Keys == s.tombstones.Keys;
    MapSize(s.tombstones);
    MapSize(t.tombstones);
  }
}
