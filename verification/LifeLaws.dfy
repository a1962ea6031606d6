/** What time, the runtime, sweeps and restarts do to the records, event by event
    and in the records' own fields: which commands are fresh, what a report or a
    recovery leaves, what a sweep takes and what it must leave, and what comes back
    from disk. */
module LifeLaws {
  import opened Protocol
  import opened AllocatorState
  import opened AllocatorInvariant
  import opened AllocatorRuns
  import opened WorldInvariant
  import opened WorldSteps
  import opened CommandLaws

  // -------------------------------------------------------------------- time and arrival

  /** Offers expire by the clock, and by nothing else. */
  lemma TickLaw(cfg: Config, w: World, ev: Event)
    requires Enabled(cfg, w, ev) && ev.Tick?
    ensures var w' := Apply(cfg, w, ev);
      OnlyTime(w.mem, w'.mem, ev.now) && w'.threads == w.threads && w'.disk == (if ev.saved then w'.mem else w.disk)
  {
    hide Expire, ViewsOf, OnlyTime;
    ExpireIs(w.mem, ev.now);
  }

  /** The execution a command names, if it names one. */
  function About(p: Payload): Option<string> {
    if p.ExecutionAssign? || p.ExecutionCancel? || p.ExecutionInspect? || p.ExecutionLeaseRenew? || p.ExecutionTunnelOpen?
    then Some(p.executionId) else None
  }

  /** The sender's result of that name is past its retention, or collected. */
  predicate PastResult(s: State, e: Envelope, at: Time) {
    About(e.payload).Some? &&
      var x := About(e.payload).value;
      || (x in s.executions && s.executions[x].client == e.sender && Over(s.executions[x].phase) && s.executions[x].retainUntil <= at)
      || (exists id | id in s.tombstones :: s.tombstones[id].executionId == x && s.tombstones[id].client == e.sender)
  }

  predicate LetIn(s: State, e: Envelope, at: Time) {
    at - 604_800_000_000_000 <= e.sentAt <= at + 120_000_000_000 && !PastResult(s, e, at)
  }

  /** A command is let in if and only if, at the later of clock and high-water mark, it was sent at most a week ago and at
      most two minutes ahead, and does not ask after a result that is past. Arriving only moves that mark forward. */
  lemma ArriveLaw(cfg: Config, w: World, ev: Event)
    requires WorldInv(cfg, w) && Enabled(cfg, w, ev) && ev.Arrive?
    ensures var w', at := Apply(cfg, w, ev), Later(w.mem.highWater, ev.now);
      && w'.mem == w.mem.(highWater := at) && w'.disk == w.disk && w'.launches == w.launches
      && w'.threads == if LetIn(w.mem, ev.env, at) then w.threads[ev.t := Checked(ev.env, at)] else w.threads
  {
    hide WorldInv, Inv, ViewsOf;
    InvOf(cfg, w);
    NoNameless(cfg, w.mem);
    NamesIt(w.mem, ev.env);
  }

  lemma NamesIt(s: State, e: Envelope)
    requires ValidEnvelope(e)
    ensures About(e.payload) == if NamedExecution(e.payload) == "" then None else Some(NamedExecution(e.payload))
  {
  }

  // ------------------------------------------------------------------------ replay cache

  /** The entries that are not both finished and older than the replay lifetime. */
  predicate Recent(cfg: Config, was: map<ReplayKey, ReplayEntry>, m: map<ReplayKey, ReplayEntry>, now: Time) {
    && (forall k | k in was :: k in m <==> !was[k].done || was[k].seenAt > now - cfg.replayTTL)
    && (forall k | k in m :: k in was && m[k] == was[k])
  }

  predicate SameBut(s: State, t: State, now: Time) {
    && AgedBut(s.offers, t.offers, now, {}) && t.requests == s.requests && t.executions == s.executions
    && t.tombstones == s.tombstones && t.highWater == s.highWater
  }

  /** How a command fares at the cache, given the entries still counted. */
  ghost predicate Fares(cfg: Config, kept: map<ReplayKey, ReplayEntry>, m: map<ReplayKey, ReplayEntry>, b: Begin, e: Envelope, now: Time,
                        victims: set<ReplayKey>, saved: bool) {
    var k, left := (e.sender, e.messageId), kept - victims;
    if k in kept then m == kept && b == if kept[k].envelope == e then Duplicate(kept[k]) else Refused(ReplayConflict)
    else if |left| >= cfg.replayCapacity then m == left && b == Refused(ReplayCapacity)
    else if !saved then m == left && b == Refused(StoreFailure)
    else m == left[k := ReplayEntry(now, e, false, Reply([], None))] && b == Begin.Fresh
  }

  lemma RecentIs(cfg: Config, replay: map<ReplayKey, ReplayEntry>, now: Time)
    ensures Recent(cfg, replay, Prune(cfg, replay, now), now)
  {
  }

  lemma BeginIs(cfg: Config, s: State, e: Envelope, now: Time, victims: set<ReplayKey>, saved: bool)
    ensures var r := BeginReplay(cfg, s, e, now, victims, saved);
      && SameBut(s, r.0, now) && Fares(cfg, Prune(cfg, s.replay, now), r.0.replay, r.1, e, now, victims, saved)
      && (r.1 == Begin.Fresh ==> saved)
  {
    hide Expire, Prune, AgedBut, At;
    ExpireIs(s, now);
  }

  /** What goes for room: finished entries only, none of them younger than a finished one that stays, no more than needed
      to come down to `limit`, and all of them if that is not reached. */
  predicate OldestOut(m: map<ReplayKey, ReplayEntry>, victims: set<ReplayKey>, limit: int) {
    && victims <= m.Keys && (forall v | v in victims :: m[v].done)
    && (forall v, k | v in victims && k in m && k !in victims && m[k].done :: m[v].seenAt <= m[k].seenAt)
    && (victims == {} || |m| - |victims| >= limit) && (|m| - |victims| <= limit || forall k | k in m && m[k].done :: k in victims)
  }

  lemma OldestOutIs(m: map<ReplayKey, ReplayEntry>, victims: set<ReplayKey>, limit: int)
    ensures OldestOut(m, victims, limit) <==> Evicts(m, victims, limit)
  {
  }

  /** A command enters if and only if its sender used no such message ID within the lifetime or since unfinished, there is
      room once the victims have gone, and the save commits; its entry is then its own, unfinished, from now. The same
      envelope again finds its entry, another under its ID is refused, and neither leaves a trace. */
  lemma EnterLaw(cfg: Config, w: World, ev: Event)
    requires Enabled(cfg, w, ev) && ev.Enter?
    ensures exists kept, b ::
      && Recent(cfg, w.mem.replay, kept, ev.now) && SameBut(w.mem, Apply(cfg, w, ev).mem, ev.now)
      && Fares(cfg, kept, Apply(cfg, w, ev).mem.replay, b, w.threads[ev.t].env, ev.now, ev.victims, ev.saved)
      && OldestOut(kept, ev.victims, cfg.replayCapacity - 1) && GoesOn(w, Apply(cfg, w, ev), ev.t, b)
  {
    hide BeginReplay, ViewsOf, Evicts, Prune, SameBut, Recent, Fares, OldestOut;
    var e := w.threads[ev.t].env;
    OldestOutIs(Prune(cfg, w.mem.replay, ev.now), ev.victims, cfg.replayCapacity - 1);
    RecentIs(cfg, w.mem.replay, ev.now);
    BeginIs(cfg, w.mem, e, ev.now, ev.victims, ev.saved);
    var b := BeginReplay(cfg, w.mem, e, ev.now, ev.victims, ev.saved).1;
    assert GoesOn(w, Apply(cfg, w, ev), ev.t, b);
  }

  /** A command goes on to its handler only if it is new. */
  predicate GoesOn(w: World, w': World, t: nat, b: Begin)
    requires t in w.threads && w.threads[t].Checked?
  {
    && w'.launches == w.launches
    && if b == Begin.Fresh then w'.threads == w.threads[t := Begun(w.threads[t].env, w.threads[t].at)] && w'.disk == w'.mem
       else w'.threads == w.threads - {t} && w'.disk == w.disk
  }

  /** A command leaves its own answer in its own entry, and only entries evicted for room go. */
  lemma LeaveLaw(cfg: Config, w: World, ev: Event)
    requires Enabled(cfg, w, ev) && ev.Leave?
    ensures var th, w' := w.threads[ev.t], Apply(cfg, w, ev); var k := (th.env.sender, th.env.messageId);
      && k in w.mem.replay && w'.threads == w.threads - {ev.t} && w'.launches == w.launches && w'.disk == (if ev.saved then w'.mem else w.disk)
      && var m := w.mem.replay[k := ReplayEntry(w.mem.replay[k].seenAt, w.mem.replay[k].envelope, true, th.reply)];
      w'.mem == w.mem.(replay := m - ev.victims) && OldestOut(m, ev.victims, cfg.replayCapacity)
  {
    hide ViewsOf, Evicts, OldestOut;
    var th := w.threads[ev.t];
    var k := (th.env.sender, th.env.messageId);
    OldestOutIs(w.mem.replay[k := ReplayEntry(w.mem.replay[k].seenAt, w.mem.replay[k].envelope, true, th.reply)], ev.victims, cfg.replayCapacity);
  }

  // ------------------------------------------------------------------------- the runtime

  /** An eviction marks the work, at effective time, as being stopped for its lease; if the save fails only the clock
      has moved. */
  lemma EvictLaw(cfg: Config, w: World, ev: Event)
    requires Enabled(cfg, w, ev) && ev.Evict?
    ensures var w', at := Apply(cfg, w, ev), Later(w.mem.highWater, ev.now);
      && ev.x in w.mem.executions && var r := w.mem.executions[ev.x];
      && !Over(r.phase) && r.phase != Phase.Cancelling && r.leaseUntil <= at && w'.launches == w.launches
      && (if ev.saved then
            && Becomes(w.mem.(highWater := at), w'.mem, ev.x, Changed(r, Phase.Cancelling, "execution lease expired", at))
            && w'.threads == w.threads[ev.t := Evicting(ev.x, r.phase, r.detail)] && w'.disk == w'.mem
          else w'.mem == w.mem.(highWater := at) && w'.threads == w.threads && w'.disk == w.disk)
  {
    hide ViewsOf, Changed, SetExecution, Touch, OnlyRecord;
    TouchIs(w.mem.(highWater := Later(w.mem.highWater, ev.now)), ev.x, Phase.Cancelling, LEASE_EXPIRED, Later(w.mem.highWater, ev.now));
  }

  /** What a report says happened. */
  function Outcome(c: Completion): Phase {
    if c.failure.None? then Phase.Completed else Phase.Failed
  }

  function Words(c: Completion): string {
    if c.detail == "" && c.failure.Some? then c.failure.value else c.detail
  }

  predicate Reportable(s: State, c: Completion, saved: bool) {
    c.executionId != "" && c.executionId in s.executions && !Over(s.executions[c.executionId].phase) && saved
  }

  /** What a report does, in full, and what the runtime is told about it. */
  ghost predicate ReportRule(cfg: Config, s: State, t: State, err: Option<Error>, c: Completion, now: Time, saved: bool) {
    && (Reportable(s, c, saved) ==>
          Becomes(s, t, c.executionId, Closed(s.executions[c.executionId], Outcome(c), Words(c), c.exitCode, now, Later(now, s.highWater) + cfg.retention)))
    && (!Reportable(s, c, saved) ==> t == s)
    && err == if c.executionId == "" then Some(InvalidTransition)
              else if c.executionId !in s.executions then Some(ExecutionNotFound)
              else if Over(s.executions[c.executionId].phase) then
                if s.executions[c.executionId].phase == Outcome(c) then None else Some(InvalidTransition)
              else if saved then None else Some(StoreFailure)
  }

  lemma ReportIs(cfg: Config, s: State, c: Completion, now: Time, saved: bool)
    ensures var r := RuntimeCompleted(cfg, s, c, now, saved); ReportRule(cfg, s, r.0, r.1, c, now, saved)
  {
    hide Finish, Closed, OnlyRecord;
    if c.executionId in s.executions { FinishIs(cfg, s, c.executionId, Outcome(c), Words(c), c.exitCode, now); }
  }

  /** A committed report on work that has not ended ends it: completed if and only if it carries no failure, failed
      otherwise, with the report's own words and exit code, one revision on. Any other report changes nothing; it is
      accepted if and only if it names the outcome on record. */
  lemma ReportLaw(cfg: Config, w: World, ev: Event)
    requires Enabled(cfg, w, ev) && ev.Complete?
    ensures var w', err := Apply(cfg, w, ev), RuntimeCompleted(cfg, w.mem, ev.c, ev.now, ev.saved).1;
      && ReportRule(cfg, w.mem, w'.mem, err, ev.c, ev.now, ev.saved)
      && w'.threads == w.threads && w'.launches == w.launches && w'.disk == (if ev.saved then w'.mem else w.disk)
  {
    hide ViewsOf, RuntimeCompleted, ReportRule;
    ReportIs(cfg, w.mem, ev.c, ev.now, ev.saved);
  }

  /** The record after recovery has visited it. */
  function AfterVisit(cfg: Config, s: State, r: Execution, outcome: RuntimeOutcome, checked: Time, now: Time): Execution {
    var kept, gone := Later(now, s.highWater) + cfg.retention, outcome.Ok? || outcome.Missing?;
    if Over(r.phase) then r
    else if r.phase == Phase.Cancelling then
      if gone then Closed(r, if r.detail == "execution lease expired" then Phase.Failed else Phase.Cancelled, r.detail, None, now, kept) else r
    else if r.leaseUntil != UNSET && r.leaseUntil <= checked then
      if gone then Closed(r, Phase.Failed, "execution lease expired", None, now, kept) else r
    else if outcome.Missing? || outcome.Conflicting? then Closed(r, Phase.Failed, outcome.detail, None, now, kept)
    else if outcome.Ok? && r.phase == Phase.Starting then Changed(r, Phase.Running, r.detail, now)
    else r
  }

  lemma VisitIs(cfg: Config, s: State, x: string, outcome: RuntimeOutcome, checked: Time, now: Time)
    requires x in s.executions
    ensures Becomes(s, RecoverVisit(cfg, s, x, outcome, checked, now), x, AfterVisit(cfg, s, s.executions[x], outcome, checked, now))
  {
    hide Finish, Touch, SetExecution, Closed, Changed, Becomes;
    var r := s.executions[x];
    StaysIs(s, x);
    if r.phase == Phase.Cancelling {
      FinishIs(cfg, s, x, if r.detail == LEASE_EXPIRED then Phase.Failed else Phase.Cancelled, r.detail, None, now);
    } else if LeaseLapsed(r, checked) {
      FinishIs(cfg, s, x, Phase.Failed, LEASE_EXPIRED, None, now);
    } else if outcome.Missing? || outcome.Conflicting? {
      FinishIs(cfg, s, x, Phase.Failed, outcome.detail, None, now);
    } else {
      TouchIs(s, x, Phase.Running, r.detail, now);
    }
  }

  lemma StaysIs(s: State, x: string)
    requires x in s.executions
    ensures Becomes(s, s, x, s.executions[x])
  {
  }

  /** Recovery finishes an interrupted stop, ends work whose lease lapsed or that the runtime lost or contradicts, takes
      work it finds again into running, and otherwise leaves the record as it is. */
  lemma RecoverLaw(cfg: Config, w: World, ev: Event)
    requires Enabled(cfg, w, ev) && ev.Recover?
    ensures var w' := Apply(cfg, w, ev);
      && ev.x in w.mem.executions && w'.threads == w.threads && w'.launches == w.launches && w'.disk == (if ev.saved then w'.mem else w.disk)
      && Becomes(w.mem, w'.mem, ev.x, AfterVisit(cfg, w.mem, w.mem.executions[ev.x], ev.outcome, ev.checked, ev.now))
  {
    hide ViewsOf, RecoverVisit, AfterVisit, OnlyRecord;
    VisitIs(cfg, w.mem, ev.x, ev.outcome, ev.checked, ev.now);
  }

  // ----------------------------------------------------------------------------- restart

  /** A record as it comes back: older snapshots lack a revision, a retention or a lease. */
  function Restored(cfg: Config, r: Execution, now: Time): Execution {
    Execution(r.offerId, r.client, r.resourceClass, r.request, r.phase, r.detail, r.exitCode, r.occurredAt, r.startedAt, r.released,
              if Over(r.phase) && r.retainUntil == UNSET then r.occurredAt + cfg.retention else r.retainUntil,
              if !Over(r.phase) && r.leaseUntil == UNSET then now + cfg.leaseTTL else r.leaseUntil,
              if r.revision == 0 then 1 else r.revision)
  }

  /** A restart brings back what the disk has, finished answers only, with due offers expired and no command in flight. */
  lemma CrashLaw(cfg: Config, w: World, ev: Event)
    requires Enabled(cfg, w, ev) && ev.Crash?
    ensures var w', d := Apply(cfg, w, ev), w.disk; var s := w'.mem;
      && w'.disk == d && w'.threads == map[] && w'.cleaning == {} && w'.launches == w.launches
      && AgedBut(d.offers, s.offers, ev.now, {}) && s.requests == d.requests && s.tombstones == d.tombstones && s.highWater == d.highWater
      && s.executions.Keys == d.executions.Keys && (forall x | x in d.executions :: s.executions[x] == Restored(cfg, d.executions[x], ev.now))
      && (forall k | k in d.replay :: k in s.replay <==> d.replay[k].done) && (forall k | k in s.replay :: k in d.replay && s.replay[k] == d.replay[k])
  {
    hide ViewsOf;
  }

  /** Only the mark of a tombstone whose workload was cleaned up goes. */
  lemma CleanLaw(cfg: Config, w: World, ev: Event)
    requires WorldInv(cfg, w) && Enabled(cfg, w, ev) && ev.Clean?
    ensures var w' := Apply(cfg, w, ev);
      && ev.id in w.mem.tombstones && w'.cleaning == w.cleaning - {ev.id} && w'.threads == w.threads && w'.launches == w.launches
      && w'.disk == (if ev.saved then w'.mem else w.disk)
      && w'.mem == if ev.saved then w.mem.(tombstones := w.mem.tombstones[ev.id := w.mem.tombstones[ev.id].(cleanupPending := false)]) else w.mem
  {
    hide ViewsOf;
  }

  // ------------------------------------------------------------------------------- sweep

  /** An unfinished command may still touch the work of this client and request. */
  predicate InUse(s: State, client: Identity, requestId: string) {
    exists k | k in s.replay :: Touches(s, s.replay[k], client, requestId)
  }

  predicate Touches(s: State, entry: ReplayEntry, client: Identity, requestId: string) {
    && !entry.done
    && match entry.envelope.payload
       case ExecutionRequest(q) => entry.envelope.sender == client && q.requestId == requestId
       case ExecutionAssign(r, _, _) => entry.envelope.sender == client && r == requestId
       case ExecutionCancel(x, _) => x in s.executions && s.executions[x].client == client && s.executions[x].request.requestId == requestId
       case _ => false
  }

  /** Nothing is left to come of the offer: it expired, was released, or its work ended and was kept long enough. */
  predicate Settled(s: State, o: Offer, at: Time) {
    match StatusAt(o, at)
    case Expired => true
    case Released => true
    case Assigned => o.execution in s.executions && Over(s.executions[o.execution].phase) && s.executions[o.execution].retainUntil <= at
    case Outstanding => false
  }

  predicate Goes(s: State, id: string, at: Time) {
    id in s.offers && Settled(s, s.offers[id], at) && !InUse(s, s.offers[id].client, s.offers[id].requestId)
  }

  function Grave(id: string, o: Offer, at: Time): Tombstone {
    Tombstone(o.client, o.requestId, id, o.execution, at + 604_800_000_000_000, o.execution != "")
  }

  /** What becomes of one offer and all that hangs on it. */
  predicate OfferSwept(s: State, t: State, id: string, at: Time)
    requires id in s.offers
  {
    var o := s.offers[id]; var k := (o.client, o.requestId);
    if Goes(s, id, at) then
      id !in t.offers && k !in t.requests && o.execution !in t.executions && id in t.tombstones && t.tombstones[id] == Grave(id, o, at)
    else
      && id in t.offers && t.offers[id] == At(o, at) && k in t.requests && t.requests[k] == id && id !in t.tombstones
      && (o.status == OfferStatus.Assigned ==> o.execution in s.executions && o.execution in t.executions && t.executions[o.execution] == s.executions[o.execution])
  }

  /** A finished answer is dropped for its age, or because what it answers about is gone. */
  predicate AnswerGoes(cfg: Config, s: State, t: State, entry: ReplayEntry, at: Time) {
    && entry.done
    && (|| entry.seenAt <= at - cfg.replayTTL
        || match entry.envelope.payload
           case ExecutionRequest(q) => Entombed(s, entry.envelope.sender, q.requestId, at)
           case ExecutionAssign(r, _, _) => Entombed(s, entry.envelope.sender, r, at)
           case ExecutionOfferRelease(_, _) => false
           case ExecutionCancel(x, _) => x !in t.executions
           case ExecutionInspect(x) => x !in t.executions
           case ExecutionLeaseRenew(x, _) => x !in t.executions
           case ExecutionTunnelOpen(x) => x !in t.executions)
  }

  /** Collected before, or in this sweep. */
  predicate Entombed(s: State, client: Identity, requestId: string, at: Time) {
    || (exists id | id in s.tombstones :: s.tombstones[id].client == client && s.tombstones[id].requestId == requestId)
    || (exists id | id in s.offers :: Goes(s, id, at) && s.offers[id].client == client && s.offers[id].requestId == requestId)
  }

  ghost predicate SweepRule(cfg: Config, s: State, t: State, at: Time) {
    && t.highWater == at
    && (forall id | id in s.offers :: OfferSwept(s, t, id, at))
    && (forall id | id in t.offers :: id in s.offers) && (forall k | k in t.requests :: k in s.requests) && (forall x | x in t.executions :: x in s.executions)
    && (forall id | id in s.tombstones :: id in t.tombstones <==> s.tombstones[id].cleanupPending || s.tombstones[id].expiresAt > at)
    && (forall id | id in s.tombstones && id in t.tombstones :: t.tombstones[id] == s.tombstones[id])
    && (forall id | id in t.tombstones :: id in s.tombstones || id in s.offers)
    && (forall k | k in s.replay :: k in t.replay <==> !AnswerGoes(cfg, s, t, s.replay[k], at))
    && (forall k | k in t.replay :: k in s.replay && t.replay[k] == s.replay[k])
  }

  lemma ReadyIs(cfg: Config, s: State, now: Time)
    ensures var r, at := SweepReady(cfg, s, now), Later(s.highWater, now);
      && r.highWater == at && AgedBut(s.offers, r.offers, at, {}) && r.offers.Keys == s.offers.Keys
      && r.requests == s.requests && r.executions == s.executions && r.tombstones == s.tombstones && Recent(cfg, s.replay, r.replay, at)
  {
    hide Expire;
    ExpireIs(Advance(s, now), Later(s.highWater, now));
  }

  lemma BusyIs(s: State, r: State, client: Identity, requestId: string)
    requires r.executions == s.executions && (forall k | k in s.replay && !s.replay[k].done :: k in r.replay)
    requires forall k | k in r.replay :: k in s.replay && r.replay[k] == s.replay[k]
    ensures Busy(r, (client, requestId)) <==> InUse(s, client, requestId)
  {
    forall k | k in r.replay ensures BusyKey(r, r.replay[k]) == Some((client, requestId)) <==> Touches(s, s.replay[k], client, requestId) {}
    if k :| k in s.replay && Touches(s, s.replay[k], client, requestId) { assert k in r.replay; }
  }

  /** The same test on a state whose offers have been expired already. */
  predicate GoesAsIs(s: State, id: string, now: Time) {
    && id in s.offers && !InUse(s, s.offers[id].client, s.offers[id].requestId)
    && var o := s.offers[id];
    || o.status == OfferStatus.Expired || o.status == OfferStatus.Released
    || (o.status == OfferStatus.Assigned && o.execution in s.executions && Over(s.executions[o.execution].phase) && s.executions[o.execution].retainUntil <= now)
  }

  lemma GoesAsIsIs(s: State, id: string, now: Time)
    requires id in s.offers
    ensures id in CollectableIds(s, now) <==> GoesAsIs(s, id, now)
  {
    hide Busy, InUse;
    BusyIs(s, s, s.offers[id].client, s.offers[id].requestId);
  }

  lemma GoesIs(cfg: Config, s: State, now: Time, id: string)
    requires id in s.offers
    ensures var r, at := SweepReady(cfg, s, now), Later(s.highWater, now); id in r.offers && (Collectable(r, id, at) <==> Goes(s, id, at))
  {
    hide SweepReady, Busy, InUse;
    ReadyIs(cfg, s, now);
    BusyIs(s, SweepReady(cfg, s, now), s.offers[id].client, s.offers[id].requestId);
  }

  /** What the collection of the offers that go leaves. */
  ghost predicate Taken(s: State, r: State, c: State, at: Time) {
    && (forall id | id in s.offers :: id in c.offers <==> !Goes(s, id, at)) && (forall id | id in c.offers :: id in r.offers && c.offers[id] == r.offers[id])
    && (forall k | k in r.requests :: k in c.requests <==> !KeyGoes(s, k, at)) && (forall k | k in c.requests :: k in r.requests && c.requests[k] == r.requests[k])
    && (forall x | x in r.executions :: x in c.executions <==> !WorkGoes(s, x, at)) && (forall x | x in c.executions :: x in r.executions && c.executions[x] == r.executions[x])
    && (forall id | id in s.offers && Goes(s, id, at) :: id in c.tombstones && c.tombstones[id] == Grave(id, s.offers[id], at))
    && (forall id | id in r.tombstones :: id in c.tombstones && (id in s.offers || c.tombstones[id] == r.tombstones[id]))
    && (forall id | id in c.tombstones :: id in r.tombstones || (id in s.offers && Goes(s, id, at)))
    && c.replay == r.replay && c.highWater == r.highWater
  }

  ghost predicate KeyGoes(s: State, k: RequestKey, at: Time) {
    exists id | id in s.offers :: Goes(s, id, at) && (s.offers[id].client, s.offers[id].requestId) == k
  }

  ghost predicate WorkGoes(s: State, x: string, at: Time) {
    exists id | id in s.offers :: Goes(s, id, at) && s.offers[id].execution == x
  }

  lemma TakenIs(cfg: Config, s: State, now: Time)
    ensures var r, at := SweepReady(cfg, s, now), Later(s.highWater, now);
      CollectableIds(r, at) <= r.offers.Keys && Taken(s, r, AllocatorState.Collect(r, CollectableIds(r, at), at), at)
  {
    var r, at := SweepReady(cfg, s, now), Later(s.highWater, now);
    ReadyIs(cfg, s, now);
    hide SweepReady, Goes, Collectable;
    var dead := CollectableIds(r, at);
    forall id | id in s.offers ensures id in dead <==> Goes(s, id, at) { GoesIs(cfg, s, now, id); }
    hide CollectableIds;
    CollectsThose(s, r, dead, at);
  }

  lemma CollectsThose(s: State, r: State, dead: set<string>, at: Time)
    requires dead <= r.offers.Keys && r.offers.Keys == s.offers.Keys && AgedBut(s.offers, r.offers, at, {})
    requires forall id | id in s.offers :: id in dead <==> Goes(s, id, at)
    ensures Taken(s, r, AllocatorState.Collect(r, dead, at), at)
  {
    hide Goes, KeyGoes, WorkGoes;
    forall id | id in dead ensures KeyOf(r.offers[id]) == (s.offers[id].client, s.offers[id].requestId) && Bury(id, r.offers[id], at) == Grave(id, s.offers[id], at) {
      assert r.offers[id] == At(s.offers[id], at);
    }
    forall k ensures KeyGoes(s, k, at) <==> exists id | id in dead :: KeyOf(r.offers[id]) == k { KeyGoesIs(s, r, dead, at, k); }
    forall x ensures WorkGoes(s, x, at) <==> exists id | id in dead :: r.offers[id].execution == x { WorkGoesIs(s, r, dead, at, x); }
    hide KeyOf, Bury, Grave, AgedBut;
  }

  lemma KeyGoesIs(s: State, r: State, dead: set<string>, at: Time, k: RequestKey)
    requires dead <= r.offers.Keys && r.offers.Keys == s.offers.Keys && AgedBut(s.offers, r.offers, at, {})
    requires forall id | id in s.offers :: id in dead <==> Goes(s, id, at)
    ensures KeyGoes(s, k, at) <==> exists id | id in dead :: KeyOf(r.offers[id]) == k
  {
    hide Goes;
    forall id | id in s.offers ensures KeyOf(r.offers[id]) == (s.offers[id].client, s.offers[id].requestId) { assert r.offers[id] == At(s.offers[id], at); }
  }

  lemma WorkGoesIs(s: State, r: State, dead: set<string>, at: Time, x: string)
    requires dead <= r.offers.Keys && r.offers.Keys == s.offers.Keys && AgedBut(s.offers, r.offers, at, {})
    requires forall id | id in s.offers :: id in dead <==> Goes(s, id, at)
    ensures WorkGoes(s, x, at) <==> exists id | id in dead :: r.offers[id].execution == x
  {
    hide Goes;
    forall id | id in s.offers ensures r.offers[id].execution == s.offers[id].execution { assert r.offers[id] == At(s.offers[id], at); }
  }

  lemma SweptOffer(cfg: Config, s: State, now: Time, id: string)
    requires Inv(cfg, s) && id in s.offers
    ensures OfferSwept(s, Sweep(cfg, s, now), id, Later(s.highWater, now))
  {
    hide Inv, SweepReady, CollectableIds, AllocatorState.Collect, Goes, KeyGoes, WorkGoes, Recent, Dropped;
    var r, at := SweepReady(cfg, s, now), Later(s.highWater, now);
    ReadyIs(cfg, s, now);
    TakenIs(cfg, s, now);
    OnlyOwn(cfg, s, id, at);
  }

  /** What hangs on an offer hangs on no other. */
  lemma OnlyOwn(cfg: Config, s: State, id: string, at: Time)
    requires Inv(cfg, s) && id in s.offers
    ensures var o := s.offers[id]; var k := (o.client, o.requestId);
      && k in s.requests && s.requests[k] == id && id !in s.tombstones && "" !in s.executions
      && (KeyGoes(s, k, at) <==> Goes(s, id, at))
      && (o.status == OfferStatus.Assigned ==> o.execution in s.executions && (WorkGoes(s, o.execution, at) <==> Goes(s, id, at)))
      && (o.execution in s.executions && Goes(s, id, at) ==> WorkGoes(s, o.execution, at))
      && (o.status != OfferStatus.Assigned ==> o.execution == "")
  {
    hide Offered, LedgerExact, WithinLimits, QuotasKept, ReplaySound, Goes;
    var o := s.offers[id];
    assert forall j | j in s.offers && KeyOf(s.offers[j]) == KeyOf(o) :: j == id;
    NoNameless(cfg, s);
    if o.status == OfferStatus.Assigned {
      assert ExecutionShape(o.execution, s.executions[o.execution]);
      forall j | j in s.offers && s.offers[j].execution == o.execution ensures j == id {
        if s.offers[j].status == OfferStatus.Assigned { assert s.executions[s.offers[j].execution].offerId == j; }
      }
    }
  }

  lemma SweptRest(cfg: Config, s: State, now: Time)
    requires Inv(cfg, s)
    ensures var t, at := Sweep(cfg, s, now), Later(s.highWater, now);
      && t.highWater == at
      && (forall id | id in t.offers :: id in s.offers) && (forall k | k in t.requests :: k in s.requests) && (forall x | x in t.executions :: x in s.executions)
      && (forall id | id in s.tombstones :: id in t.tombstones <==> s.tombstones[id].cleanupPending || s.tombstones[id].expiresAt > at)
      && (forall id | id in s.tombstones && id in t.tombstones :: t.tombstones[id] == s.tombstones[id])
      && (forall id | id in t.tombstones :: id in s.tombstones || id in s.offers)
  {
    var r, at := SweepReady(cfg, s, now), Later(s.highWater, now);
    ReadyIs(cfg, s, now);
    TakenIs(cfg, s, now);
    ApartOf(cfg, s);
    hide Inv, SweepReady, CollectableIds, AllocatorState.Collect, Goes;
  }

  lemma ApartOf(cfg: Config, s: State)
    requires Inv(cfg, s)
    ensures forall id | id in s.tombstones :: id !in s.offers
  {
    hide Offered, Indexed, Paired, Shaped, LedgerExact, WithinLimits, QuotasKept, ReplaySound;
  }

  lemma EntombedIs(s: State, r: State, c: State, at: Time, client: Identity, requestId: string)
    requires Taken(s, r, c, at) && r.tombstones == s.tombstones && (forall id | id in s.tombstones :: id !in s.offers)
    ensures Tombstoned(c, (client, requestId)) <==> Entombed(s, client, requestId, at)
  {
    hide Goes;
    forall id | id in s.tombstones ensures id in c.tombstones && c.tombstones[id] == s.tombstones[id] {}
    forall id | id in s.offers && Goes(s, id, at) ensures id in c.tombstones && c.tombstones[id] == Grave(id, s.offers[id], at) {}
  }

  lemma DropsIs(s: State, c: State, at: Time, entry: ReplayEntry, cfg: Config)
    requires entry.done && entry.seenAt > at - cfg.replayTTL && ("" !in c.executions)
    requires forall client: Identity, requestId: string :: Tombstoned(c, (client, requestId)) <==> Entombed(s, client, requestId, at)
    ensures Dropped(c, entry) <==> AnswerGoes(cfg, s, c, entry, at)
  {
    hide Tombstoned, Entombed;
  }

  lemma SweptAnswers(cfg: Config, s: State, now: Time)
    requires Inv(cfg, s)
    ensures var t, at := Sweep(cfg, s, now), Later(s.highWater, now);
      && (forall k | k in s.replay :: k in t.replay <==> !AnswerGoes(cfg, s, t, s.replay[k], at))
      && (forall k | k in t.replay :: k in s.replay && t.replay[k] == s.replay[k])
  {
    var r, at := SweepReady(cfg, s, now), Later(s.highWater, now);
    hide SweepReady, CollectableIds, AllocatorState.Collect, Dropped, AnswerGoes;
    ReadyIs(cfg, s, now);
    TakenIs(cfg, s, now);
    ApartOf(cfg, s);
    NoNameless(cfg, s);
    hide Inv;
    var c := AllocatorState.Collect(r, CollectableIds(r, at), at);
    var t := Sweep(cfg, s, now);
    assert t.executions == c.executions;
    forall client: Identity, requestId: string ensures Tombstoned(c, (client, requestId)) <==> Entombed(s, client, requestId, at) {
      EntombedIs(s, r, c, at, client, requestId);
    }
    hide Taken, Tombstoned, Entombed;
    forall k | k in s.replay ensures k in t.replay <==> !AnswerGoes(cfg, s, t, s.replay[k], at) {
      SameExecutions(cfg, s, c, t, s.replay[k], at);
      if s.replay[k].done && s.replay[k].seenAt > at - cfg.replayTTL {
        DropsIs(s, c, at, s.replay[k], cfg);
      } else {
        AgeDecides(cfg, s, t, s.replay[k], at);
        if !s.replay[k].done { NotDropped(c, s.replay[k]); }
      }
    }
  }

  lemma NotDropped(c: State, entry: ReplayEntry)
    requires !entry.done
    ensures !Dropped(c, entry)
  {
  }

  lemma AgeDecides(cfg: Config, s: State, t: State, entry: ReplayEntry, at: Time)
    requires !entry.done || entry.seenAt <= at - cfg.replayTTL
    ensures AnswerGoes(cfg, s, t, entry, at) <==> entry.done
  {
  }

  lemma SameExecutions(cfg: Config, s: State, c: State, t: State, entry: ReplayEntry, at: Time)
    requires t.executions == c.executions
    ensures AnswerGoes(cfg, s, t, entry, at) <==> AnswerGoes(cfg, s, c, entry, at)
  {
    hide Entombed;
  }

  lemma NoNameless(cfg: Config, s: State)
    requires Inv(cfg, s)
    ensures "" !in s.executions
  {
    hide Offered, Indexed, Paired, LedgerExact, WithinLimits, Budgeted, QuotasKept, ReplaySound;
    forall x | x in s.executions ensures x != "" { assert ExecutionShape(x, s.executions[x]); }
  }

  /** A committed sweep takes exactly the offers nothing is left to come of and no unfinished command may touch, with their
      index entry and execution, and leaves a tombstone that names them; every other offer and its work stay. Of the
      tombstones it drops those past their time with no cleanup pending, of the answers the old ones and those about
      what is gone. A sweep whose save fails changes nothing. */
  lemma SweepLaw(cfg: Config, w: World, ev: Event)
    requires WorldInv(cfg, w) && Enabled(cfg, w, ev) && ev.SweepUp?
    ensures var w' := Apply(cfg, w, ev);
      && w'.threads == w.threads && w'.launches == w.launches
      && (!ev.saved ==> w' == w)
      && (ev.saved ==>
            && SweepRule(cfg, w.mem, w'.mem, Later(w.mem.highWater, ev.now)) && w'.disk == w'.mem
            && w'.cleaning == set id | id in w'.mem.tombstones && w'.mem.tombstones[id].cleanupPending)
  {
    hide WorldInv, Inv, Sweep, SweepReady, CollectableIds, ViewsOf, SweepRule;
    InvOf(cfg, w);
    SweepIs(cfg, w.mem, ev.now);
  }

  lemma SweepIs(cfg: Config, s: State, now: Time)
    requires Inv(cfg, s)
    ensures SweepRule(cfg, s, Sweep(cfg, s, now), Later(s.highWater, now))
  {
    hide Inv, Sweep, OfferSwept, AnswerGoes;
    SweptRest(cfg, s, now);
    SweptAnswers(cfg, s, now);
    forall id | id in s.offers ensures OfferSwept(s, Sweep(cfg, s, now), id, Later(s.highWater, now)) { SweptOffer(cfg, s, now, id); }
  }
}
