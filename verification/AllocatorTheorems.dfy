/** What every run of one allocator guarantees. */
module AllocatorTheorems {
  import opened Protocol
  import opened AllocatorState
  import opened AllocatorInvariant
  import opened AllocatorSteps
  import opened AllocatorRuns
  import opened WorldInvariant
  import opened WorldSteps

  ghost predicate Reachable(cfg: Config, w: World) {
    ValidConfig(cfg) && exists worlds, events, n :: Run(cfg, worlds, events) && 0 <= n < |worlds| && worlds[n] == w
  }

  lemma ReachableInv(cfg: Config, w: World)
    requires Reachable(cfg, w)
    ensures WorldInv(cfg, w)
  {
    hide WorldInv, Apply, Enabled;
    var worlds, events, n :| Run(cfg, worlds, events) && 0 <= n < |worlds| && worlds[n] == w;
    RunInv(cfg, worlds, events, n);
  }

  lemma Extends(cfg: Config, w: World, ev: Event)
    requires Reachable(cfg, w) && Enabled(cfg, w, ev)
    ensures Reachable(cfg, Apply(cfg, w, ev))
  {
    hide Enabled, Apply;
    var worlds, events, n :| Run(cfg, worlds, events) && 0 <= n < |worlds| && worlds[n] == w;
    var past, done := worlds[..n + 1] + [Apply(cfg, w, ev)], events[..n] + [ev];
    assert Run(cfg, past, done) && past[n + 1] == Apply(cfg, w, ev);
  }

  lemma InvLedger(cfg: Config, s: State)
    requires Inv(cfg, s)
    ensures LedgerExact(s) && WithinLimits(cfg, s.used) && Paired(s.offers, s.executions) && Shaped(s.executions)
    ensures Budgeted(cfg, s) && QuotasKept(cfg, s) && Indexed(s.offers, s.requests)
  {
    hide Offered, Indexed, Paired, Shaped, LedgerExact, WithinLimits, Budgeted, QuotaKept;
  }

  // ---------------------------------------------------------------- capacity

  function HoldersOf(s: State, c: string): set<string> {
    set id | id in s.offers && Holds(s.offers[id], s.executions) && s.offers[id].resourceClass == c
  }

  /** In every reachable state each class's counter is the number of its offers that are outstanding,
      or assigned with an execution not yet released, and never exceeds the class's limit. */
  lemma CapacityConserved(cfg: Config, w: World, c: string)
    requires Reachable(cfg, w)
    ensures w.mem.used[c] == |HoldersOf(w.mem, c)| <= Limit(cfg, c)
  {
    hide Reachable, WorldInv, Inv, Paired, Shaped, Budgeted, QuotasKept, Indexed;
    ReachableInv(cfg, w);
    InvOf(cfg, w);
    InvLedger(cfg, w.mem);
    assert OfClass(w.mem.offers, HoldingIds(w.mem.offers, w.mem.executions), c) == HoldersOf(w.mem, c);
  }

  /** The ledger's guard against going below zero never decides anything in a running allocator:
      whatever a section releases is still counted. */
  lemma ReleaseGuardIdle(cfg: Config, w: World, now: Time)
    requires Reachable(cfg, w)
    ensures forall x | x in w.mem.executions && !w.mem.executions[x].released :: w.mem.executions[x].resourceClass in w.mem.used
    ensures forall id | id in w.mem.offers && w.mem.offers[id].status == Outstanding :: w.mem.offers[id].resourceClass in w.mem.used
    ensures Tally(w.mem.offers, DueIds(w.mem.offers, now)) <= w.mem.used
  {
    hide Reachable, WorldInv, Inv, Shaped, Budgeted, QuotasKept, Indexed, WithinLimits;
    var s := w.mem;
    ReachableInv(cfg, w);
    InvOf(cfg, w);
    InvLedger(cfg, s);
    var held, due := HoldingIds(s.offers, s.executions), DueIds(s.offers, now);
    forall id | id in held ensures s.offers[id].resourceClass in s.used {
      assert id in OfClass(s.offers, held, s.offers[id].resourceClass);
    }
    forall x | x in s.executions && !s.executions[x].released ensures s.executions[x].resourceClass in s.used {
      var id := s.executions[x].offerId;
      assert Backs(id, s.offers[id], x, s.executions[x]) && id in held;
    }
    DueCounted(s, now);
  }

  lemma DueCounted(s: State, now: Time)
    requires LedgerExact(s)
    ensures Tally(s.offers, DueIds(s.offers, now)) <= s.used
  {
    var held, due := HoldingIds(s.offers, s.executions), DueIds(s.offers, now);
    LapseHolds(s.offers, s.executions, now);
    TallySplits(s.offers, held - due, due);
    assert held - due + due == held;
  }

  // ----------------------------------------------------------- at most one start

  /** Over any run, with redelivery, failed saves, crashes, reloads and recoveries, runtime.Start is called
      at most once per offer; and whatever was started is durably assigned or already collected. */
  lemma StartedAtMostOnce(cfg: Config, w: World)
    requires Reachable(cfg, w)
    ensures forall i, j | 0 <= i < j < |w.launches| :: w.launches[i].offerId != w.launches[j].offerId
    ensures forall i | 0 <= i < |w.launches| && w.launches[i].offerId in w.disk.offers ::
      w.disk.offers[w.launches[i].offerId].status == Assigned
    ensures forall i | 0 <= i < |w.launches| && w.launches[i].offerId in w.mem.offers ::
      w.mem.offers[w.launches[i].offerId].status == Assigned
  {
    hide Reachable, Inv, ThreadSound;
    ReachableInv(cfg, w);
  }

  /** Start is called by exactly one kind of section, and only once the assignment is on disk. */
  lemma LaunchIsDurable(cfg: Config, w: World, ev: Event)
    requires Reachable(cfg, w) && Enabled(cfg, w, ev)
    ensures var w' := Apply(cfg, w, ev);
      w'.launches != w.launches ==>
        && ev.Assign? && |w'.launches| == |w.launches| + 1 && w.launches == w'.launches[..|w.launches|]
        && var l := w'.launches[|w.launches|]; var env := w.threads[ev.t].env;
        && env.payload == ExecutionAssign(l.requestId, l.offerId, l.executionId) && env.sender == l.client
        && l.offerId in w'.disk.offers && w'.disk.offers[l.offerId].status == Assigned
        && w'.disk.offers[l.offerId].execution == l.executionId && l.executionId in w'.disk.executions
        && KeyOf(w'.disk.offers[l.offerId]) == (l.client, l.requestId)
  {
    hide Reachable, HandleRequest, BeginReplay, CancelBegin, AssignEnd, CancelEnd, EvictEnd, SweepReady, Sweep, Reload,
         RecoverVisit, RuntimeCompleted, HandleRelease, HandleRenew, Expire;
    if ev.Assign? {
      var e, p := w.threads[ev.t].env, w.threads[ev.t].env.payload;
      AssignOutcome(cfg, w.mem, e, p.requestId, p.offerId, p.executionId, ev.now, ev.placed, ev.saved);
      hide AssignBegin;
    } else {
      LaunchesOnlyByAssign(cfg, w, ev);
    }
  }

  lemma LaunchesOnlyByAssign(cfg: Config, w: World, ev: Event)
    requires Enabled(cfg, w, ev) && !ev.Assign?
    ensures Apply(cfg, w, ev).launches == w.launches
  {
    hide HandleRequest, BeginReplay, CancelBegin, AssignEnd, CancelEnd, EvictEnd, SweepReady, Sweep, Reload,
         RecoverVisit, RuntimeCompleted, HandleRelease, HandleRenew, Expire, AssignBegin, Assigning, Evicts, ViewsOf;
  }

  // ------------------------------------------------------- work in flight

  /** When runtime.Start or runtime.Stop returns to its command, the execution is still on record: the lookups
      that follow without a check never come back empty. */
  lemma InFlightFound(cfg: Config, w: World, t: nat)
    requires Reachable(cfg, w) && t in w.threads && (w.threads[t].Launching? || w.threads[t].Stopping?)
    ensures w.threads[t].x in w.mem.executions
    ensures ReplayKeyOf(w.threads[t].env) in w.mem.replay && !w.mem.replay[ReplayKeyOf(w.threads[t].env)].done
  {
    hide Reachable, Core;
    ReachableInv(cfg, w);
    assert ThreadSound(w.mem, w.threads[t]);
  }

  // --------------------------------------------------------------- budgets

  function AssignedIds(s: State): set<string> {
    set id | id in s.offers && s.offers[id].status == Assigned
  }

  lemma {:induction false} InjectionSize(executions: map<string, Execution>, xs: set<string>, ids: set<string>)
    requires xs <= executions.Keys && ids == (set x | x in xs :: executions[x].offerId)
    requires forall x, y | x in xs && y in xs && executions[x].offerId == executions[y].offerId :: x == y
    ensures |ids| == |xs|
    decreases |xs|
  {
    if xs != {} {
      var x :| x in xs;
      var rest := set y | y in xs - {x} :: executions[y].offerId;
      InjectionSize(executions, xs - {x}, rest);
      assert ids == rest + {executions[x].offerId};
    }
  }

  lemma PairsCount(s: State)
    requires Paired(s.offers, s.executions)
    ensures |s.executions| == |AssignedIds(s)|
  {
    var ids := set x | x in s.executions.Keys :: s.executions[x].offerId;
    assert ids == AssignedIds(s);
    forall x, y | x in s.executions && y in s.executions && s.executions[x].offerId == s.executions[y].offerId ensures x == y {
      assert Backs(s.executions[x].offerId, s.offers[s.executions[x].offerId], x, s.executions[x]);
      assert Backs(s.executions[y].offerId, s.offers[s.executions[y].offerId], y, s.executions[y]);
    }
    InjectionSize(s.executions, s.executions.Keys, ids);
    MapSize(s.executions);
  }

  lemma RecordsFit(cfg: Config, s: State)
    requires Budgeted(cfg, s) && Paired(s.offers, s.executions)
    ensures |s.offers| + |s.executions| + |s.tombstones| <= cfg.maxRecords
  {
    PairsCount(s);
    hide Paired;
    SubsetSmaller(AssignedIds(s), s.offers.Keys);
    MapSize(s.offers);
  }

  /** The three kinds of record together stay within the configured budget, executions match assigned offers
      one to one, and every client stays within its non-zero quotas. */
  lemma BudgetsKept(cfg: Config, w: World)
    requires Reachable(cfg, w)
    ensures 2 * |w.mem.offers| + |w.mem.tombstones| <= cfg.maxRecords
    ensures |w.mem.executions| == |AssignedIds(w.mem)|
    ensures |w.mem.offers| + |w.mem.executions| + |w.mem.tombstones| <= cfg.maxRecords
    ensures forall c :: QuotaOf(cfg, c).offers > 0 ==> |OutstandingOf(w.mem.offers, c)| <= QuotaOf(cfg, c).offers
    ensures forall c :: QuotaOf(cfg, c).executions > 0 ==> |LiveOf(w.mem.executions, c)| <= QuotaOf(cfg, c).executions
  {
    hide Reachable, WorldInv, Inv, LedgerExact, Shaped, WithinLimits, Indexed, Paired, OutstandingOf, LiveOf, AssignedIds;
    ReachableInv(cfg, w);
    InvOf(cfg, w);
    InvLedger(cfg, w.mem);
    PairsCount(w.mem);
    RecordsFit(cfg, w.mem);
    forall c
      ensures QuotaOf(cfg, c).offers > 0 ==> |OutstandingOf(w.mem.offers, c)| <= QuotaOf(cfg, c).offers
      ensures QuotaOf(cfg, c).executions > 0 ==> |LiveOf(w.mem.executions, c)| <= QuotaOf(cfg, c).executions
    {
      assert QuotaKept(cfg, w.mem.offers, w.mem.executions, c);
    }
  }

  // ---------------------------------------------------- retired stays retired

  /** A collected offer never comes back, in memory or on disk, so no assignment of it can start anything. */
  lemma BuriedStaysBuried(cfg: Config, w: World, id: string)
    requires Reachable(cfg, w) && id in w.buried
    ensures id !in w.mem.offers && id !in w.disk.offers
    ensures forall e, r, x, now, placed, saved ::
      AssignBegin(cfg, w.mem, e, r, id, x, now, placed, saved).1 == Settled(Fail(OfferNotFound))
  {
    hide Reachable, Inv, ThreadsSound, LogSound;
    ReachableInv(cfg, w);
    forall e, r, x, now, placed, saved
      ensures AssignBegin(cfg, w.mem, e, r, id, x, now, placed, saved).1 == Settled(Fail(OfferNotFound))
    {
      ExpireFrame(w.mem, now);
      hide Expire;
    }
  }

  lemma GuardOf(cfg: Config, w: World, k: RequestKey)
    requires Reachable(cfg, w) && k in w.retired
    ensures Guarded(w.mem, k, w.retired[k])
  {
    hide Reachable, Inv, ThreadsSound, LogSound, Guarded;
    ReachableInv(cfg, w);
  }

  /** A request command sent before its request was collected, and still within the horizon when its handler
      runs, is refused as expired: no offer is minted and none is repeated, across restarts and clock regressions. */
  lemma RetiredStaysRetired(cfg: Config, w: World, t: nat, now: Time, renv: RequestEnv)
    requires Reachable(cfg, w) && Enabled(cfg, w, Serve(t, now, renv))
    requires var e := w.threads[t].env; var k := (e.sender, e.payload.request.requestId);
      k in w.retired && e.sentAt < w.retired[k] && w.mem.highWater <= e.sentAt + COMMAND_HORIZON
    ensures var e, w' := w.threads[t].env, Apply(cfg, w, Serve(t, now, renv));
      && w'.threads[t] == Replying(e, Fail(ResultExpired))
      && w'.mem.offers.Keys == w.mem.offers.Keys && w'.mem.requests == w.mem.requests
  {
    hide Reachable;
    var e := w.threads[t].env;
    var k := (e.sender, e.payload.request.requestId);
    GuardOf(cfg, w, k);
    ExpireFrame(w.mem, now);
    hide Expire, Admit;
    assert Tombstoned(Expire(w.mem, now), k);
  }

  predicate RefusedAsExpired(e: Envelope, th: Thread) {
    th == Replying(e, Fail(ResultExpired))
  }

  /** Exactly when a request is refused as expired: it is not on the index and a tombstone names it. With
      GuardOf, that is so from its collection until no envelope sent before can still be fresh. */
  lemma RefusedExactly(cfg: Config, w: World, t: nat, now: Time, renv: RequestEnv)
    requires Reachable(cfg, w) && Enabled(cfg, w, Serve(t, now, renv))
    ensures var k := (w.threads[t].env.sender, w.threads[t].env.payload.request.requestId);
      RefusedAsExpired(w.threads[t].env, Apply(cfg, w, Serve(t, now, renv)).threads[t]) <==> k !in w.mem.requests && Tombstoned(w.mem, k)
  {
    hide Reachable, WorldInv, Inv, HandleRequest, ViewsOf, Tombstoned;
    ReachableInv(cfg, w);
    InvOf(cfg, w);
    ExpiredExactly(cfg, w.mem, w.threads[t].env.sender, w.threads[t].env.payload.request, now, renv);
  }

  lemma ExpiredExactly(cfg: Config, s: State, client: Identity, q: Request, now: Time, renv: RequestEnv)
    requires Inv(cfg, s)
    ensures HandleRequest(cfg, s, client, q, now, renv).1 == Fail(ResultExpired) <==>
      (client, q.requestId) !in s.requests && Tombstoned(s, (client, q.requestId))
  {
    hide Inv, Expire;
    var k := (client, q.requestId);
    ExpireFrame(s, now);
    ExpireInv(cfg, s, now);
    if k in s.requests { IndexHits(cfg, Expire(s, now), k); }
    assert Tombstoned(Expire(s, now), k) <==> Tombstoned(s, k);
    assert Admit(cfg, Expire(s, now), client, false) != Some(ResultExpired);
    hide Tombstoned, Admit;
  }
}
