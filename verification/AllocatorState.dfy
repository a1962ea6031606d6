/** The allocator's durable command state machine as values: the records, and
    one function per locked section of a handler. A save either commits the
    whole state or fails; where a handler rolls back by hand, the function says
    what the rollback must amount to, and AllocatorMachine proves that the
    field-by-field rollback achieves it. */
module AllocatorState {
  import opened Protocol

  datatype Quota = Quota(offers: nat, executions: nat)

  datatype Config = Config(
    limits: map<string, nat>, offerTTL: int, leaseTTL: int, retention: int,
    replayTTL: int, replayCapacity: nat, maxRecords: nat,
    allowed: Option<set<Identity>>, defaultQuota: Quota, clientQuotas: map<Identity, Quota>)

  predicate ValidConfig(cfg: Config) {
    && (forall c | c in cfg.limits :: c != "" && cfg.limits[c] > 0)
    && cfg.offerTTL > 0 && cfg.leaseTTL > 0 && cfg.retention > 0 && cfg.replayTTL > 0
    && cfg.replayCapacity > 0 && cfg.maxRecords >= 2
  }

  datatype OfferStatus = Outstanding | Assigned | Expired | Released

  datatype Offer = Offer(requestId: string, resourceClass: string, expiresAt: Time, request: Request,
                         client: Identity, status: OfferStatus, execution: string)

  datatype Execution = Execution(
    offerId: string, client: Identity, resourceClass: string, request: Request,
    phase: Phase, detail: string, exitCode: Option<int>, occurredAt: Time, startedAt: Time,
    released: bool, retainUntil: Time, leaseUntil: Time, revision: nat)

  datatype Tombstone = Tombstone(client: Identity, requestId: string, offerId: string, executionId: string,
                                 expiresAt: Time, cleanupPending: bool)

  datatype ReplayEntry = ReplayEntry(seenAt: Time, envelope: Envelope, done: bool, reply: Reply)

  /** Client identities have one fixed length, so the source's joined string key is this pair. */
  type RequestKey = (Identity, string)
  type ReplayKey = (Identity, string)

  datatype State = State(
    offers: map<string, Offer>,
    requests: map<RequestKey, string>,
    executions: map<string, Execution>,
    used: multiset<string>,
    replay: map<ReplayKey, ReplayEntry>,
    tombstones: map<string, Tombstone>,
    highWater: Time)

  const EMPTY := State(map[], map[], map[], multiset{}, map[], map[], UNSET)

  function KeyOf(o: Offer): RequestKey {
    (o.client, o.requestId)
  }

  function ReplayKeyOf(e: Envelope): ReplayKey {
    (e.sender, e.messageId)
  }

  function ViewOf(x: string, r: Execution): View {
    View(x, r.phase, r.detail, r.exitCode, r.occurredAt, r.revision)
  }

  // ---------------------------------------------------------------- capacity

  predicate Holds(o: Offer, executions: map<string, Execution>) {
    || o.status == Outstanding
    || (o.status == Assigned && o.execution in executions && !executions[o.execution].released)
  }

  function HoldingIds(offers: map<string, Offer>, executions: map<string, Execution>): set<string> {
    set id | id in offers && Holds(offers[id], executions)
  }

  function OfClass(offers: map<string, Offer>, ids: set<string>, c: string): set<string> {
    set id | id in ids && id in offers && offers[id].resourceClass == c
  }

  ghost predicate Counts(m: multiset<string>, offers: map<string, Offer>, ids: set<string>) {
    forall c :: m[c] == |OfClass(offers, ids, c)|
  }

  lemma {:induction false} Countable(offers: map<string, Offer>, ids: set<string>)
    requires ids <= offers.Keys
    ensures exists m :: Counts(m, offers, ids)
    decreases |ids|
  {
    if ids == {} {
      assert Counts(multiset{}, offers, ids);
    } else {
      var id :| id in ids;
      var k := offers[id].resourceClass;
      Countable(offers, ids - {id});
      var m :| Counts(m, offers, ids - {id});
      forall c ensures (m + multiset{k})[c] == |OfClass(offers, ids, c)| {
        assert OfClass(offers, ids, c) == OfClass(offers, ids - {id}, c) + (if k == c then {id} else {});
      }
      assert Counts(m + multiset{k}, offers, ids);
    }
  }

  /** How many of the given offers each class has. */
  ghost function Tally(offers: map<string, Offer>, ids: set<string>): (m: multiset<string>)
    requires ids <= offers.Keys
    ensures Counts(m, offers, ids)
  {
    Countable(offers, ids);
    var m :| Counts(m, offers, ids);
    m
  }

  function Limit(cfg: Config, c: string): nat {
    if c in cfg.limits then cfg.limits[c] else 0
  }

  function Available(cfg: Config, used: multiset<string>, c: string): nat {
    if used[c] >= Limit(cfg, c) then 0 else Limit(cfg, c) - used[c]
  }

  // -------------------------------------------------------- clock and expiry

  function Advance(s: State, now: Time): State {
    s.(highWater := Max(s.highWater, now))
  }

  predicate Due(o: Offer, now: Time) {
    o.status == Outstanding && o.expiresAt <= now
  }

  function DueIds(offers: map<string, Offer>, now: Time): set<string> {
    set id | id in offers && Due(offers[id], now)
  }

  function Lapse(o: Offer, now: Time): Offer {
    if Due(o, now) then o.(status := Expired) else o
  }

  ghost function Expire(s: State, now: Time): State {
    s.(offers := map id | id in s.offers :: Lapse(s.offers[id], now),
       used := s.used - Tally(s.offers, DueIds(s.offers, now)))
  }

  // --------------------------------------------------------------- admission

  function QuotaOf(cfg: Config, client: Identity): Quota {
    if client in cfg.clientQuotas then cfg.clientQuotas[client] else cfg.defaultQuota
  }

  function OutstandingOf(offers: map<string, Offer>, client: Identity): set<string> {
    set id | id in offers && offers[id].status == Outstanding && offers[id].client == client
  }

  function LiveOf(executions: map<string, Execution>, client: Identity): set<string> {
    set x | x in executions && !Terminal(executions[x].phase) && executions[x].client == client
  }

  function Admit(cfg: Config, s: State, client: Identity, assigning: bool): Option<Error> {
    var q := QuotaOf(cfg, client);
    if cfg.allowed.Some? && client !in cfg.allowed.value then Some(AdmissionDenied)
    else if assigning && q.executions > 0 && |LiveOf(s.executions, client)| >= q.executions then Some(CapacityExhausted)
    else if !assigning && q.offers > 0 && |OutstandingOf(s.offers, client)| >= q.offers then Some(CapacityExhausted)
    else None
  }

  // --------------------------------------------------------------- freshness

  function NamedExecution(p: Payload): string {
    match p
    case ExecutionAssign(_, _, x) => x
    case ExecutionCancel(x, _) => x
    case ExecutionInspect(x) => x
    case ExecutionLeaseRenew(x, _) => x
    case ExecutionTunnelOpen(x) => x
    case _ => ""
  }

  predicate WithinHorizon(sentAt: Time, now: Time) {
    now - COMMAND_HORIZON <= sentAt <= now + FUTURE_SLACK
  }

  /** The outcome of the freshness check at effective time `s.highWater`. */
  function Freshness(s: State, e: Envelope): Option<Error> {
    var x := NamedExecution(e.payload);
    if !WithinHorizon(e.sentAt, s.highWater) then Some(CommandExpired)
    else if x in s.executions && s.executions[x].client == e.sender
         && Terminal(s.executions[x].phase) && s.executions[x].retainUntil <= s.highWater then Some(ResultExpired)
    else if exists id | id in s.tombstones ::
        s.tombstones[id].executionId != "" && s.tombstones[id].executionId == x && s.tombstones[id].client == e.sender
      then Some(ResultExpired)
    else None
  }

  // ------------------------------------------------------------------ replay

  predicate Stale(cfg: Config, entry: ReplayEntry, now: Time) {
    entry.done && entry.seenAt <= now - cfg.replayTTL
  }

  function Prune(cfg: Config, replay: map<ReplayKey, ReplayEntry>, now: Time): map<ReplayKey, ReplayEntry> {
    map k | k in replay && !Stale(cfg, replay[k], now) :: replay[k]
  }

  /** A legal outcome of evicting down to `limit`: only finished entries, oldest
      first, no more than needed, and none finished left if still above it. */
  ghost predicate Evicts(replay: map<ReplayKey, ReplayEntry>, victims: set<ReplayKey>, limit: int) {
    && victims <= replay.Keys
    && (forall v | v in victims :: replay[v].done)
    && (forall v, k | v in victims && k in replay.Keys - victims && replay[k].done :: replay[v].seenAt <= replay[k].seenAt)
    && (victims != {} ==> |replay| - |victims| >= limit)
    && (|replay| - |victims| > limit ==> forall k | k in replay.Keys - victims :: !replay[k].done)
  }

  datatype Begin = Duplicate(entry: ReplayEntry) | Refused(error: Error) | Fresh

  /** beginReplay: expire, prune, look the command up, make room, insert, save. */
  ghost function BeginReplay(cfg: Config, s: State, e: Envelope, now: Time, victims: set<ReplayKey>, saved: bool)
    : (r: (State, Begin))
  {
    var s1 := Expire(s, now).(replay := Prune(cfg, s.replay, now));
    var key := ReplayKeyOf(e);
    if key in s1.replay then
      if s1.replay[key].envelope == e then (s1, Duplicate(s1.replay[key])) else (s1, Refused(ReplayConflict))
    else
      var s2 := s1.(replay := s1.replay - victims);
      if |s2.replay| >= cfg.replayCapacity then (s2, Refused(ReplayCapacity))
      else if !saved then (s2, Refused(StoreFailure))
      else (s2.(replay := s2.replay[key := ReplayEntry(now, e, false, Reply([], None))]), Fresh)
  }

  function Finished(entry: ReplayEntry, reply: Reply): ReplayEntry {
    entry.(done := true, reply := reply)
  }

  function FinishReplay(s: State, e: Envelope, reply: Reply, victims: set<ReplayKey>): State {
    var key := ReplayKeyOf(e);
    if key in s.replay then s.(replay := s.replay[key := Finished(s.replay[key], reply)] - victims) else s
  }

  // ---------------------------------------------------------------- requests

  predicate Tombstoned(s: State, key: RequestKey) {
    exists id | id in s.tombstones :: s.tombstones[id].client == key.0 && s.tombstones[id].requestId == key.1
  }

  /** What the environment decides about one request: the new ID, whether the
      node still matches the placement, whether it lists the class, the save. */
  datatype RequestEnv = RequestEnv(newId: string, placed: bool, profiled: bool, saved: bool)

  function OfferReply(id: string, o: Offer): Reply {
    Answer(OfferResponse(id, o.requestId, o.resourceClass, o.expiresAt))
  }

  function RequestRefusal(cfg: Config, s: State, client: Identity, q: Request, env: RequestEnv): Option<Error> {
    if Tombstoned(s, (client, q.requestId)) then Some(ResultExpired)
    else if 2 * |s.offers| + |s.tombstones| + 2 > cfg.maxRecords then Some(CapacityExhausted)
    else if Admit(cfg, s, client, false).Some? then Admit(cfg, s, client, false)
    else if Available(cfg, s.used, q.resourceClass) == 0 then Some(CapacityExhausted)
    else if !env.placed then Some(Incompatible)
    else if !env.profiled then Some(AdmissionDenied)
    else if env.newId == "" then Some(InvalidConfig)
    else if env.newId in s.offers then Some(IDCollision)
    else None
  }

  function NewOffer(cfg: Config, client: Identity, q: Request, now: Time): Offer {
    Offer(q.requestId, q.resourceClass, now + cfg.offerTTL, q, client, Outstanding, "")
  }

  function Mint(cfg: Config, s: State, client: Identity, q: Request, now: Time, id: string): State {
    s.(offers := s.offers[id := NewOffer(cfg, client, q, now)],
       requests := s.requests[(client, q.requestId) := id],
       used := s.used + multiset{q.resourceClass})
  }

  ghost function HandleRequest(cfg: Config, s: State, client: Identity, q: Request, now: Time, env: RequestEnv)
    : (r: (State, Reply))
  {
    var s1 := Expire(s, now);
    var key := (client, q.requestId);
    if key in s1.requests && s1.requests[key] in s1.offers then
      var o := s1.offers[s1.requests[key]];
      if o.status == Expired then (s1, Fail(OfferExpired))
      else if o.request != q then (s1, Fail(ExecutionConflict))
      else if o.status == Released then (s1, Fail(OfferReleased))
      else (s1, OfferReply(s1.requests[key], o))
    else
      var refusal := RequestRefusal(cfg, s1, client, q, env);
      if refusal.Some? then (s1, Fail(refusal.value))
      else if !env.saved then (s1, Fail(StoreFailure))
      else (Mint(cfg, s1, client, q, now, env.newId), OfferReply(env.newId, NewOffer(cfg, client, q, now)))
  }

  // -------------------------------------------------------------- assignment

  datatype Assignment = Settled(reply: Reply) | Launch

  function NewExecution(cfg: Config, offerId: string, o: Offer, now: Time): Execution {
    Execution(offerId, o.client, o.resourceClass, o.request, Starting, "", None, now, now,
              false, UNSET, now + cfg.leaseTTL, 1)
  }

  function Bind(cfg: Config, s: State, offerId: string, x: string, now: Time): State
    requires offerId in s.offers
  {
    s.(offers := s.offers[offerId := s.offers[offerId].(status := Assigned, execution := x)],
       executions := s.executions[x := NewExecution(cfg, offerId, s.offers[offerId], now)])
  }

  function AssignRefusal(cfg: Config, s: State, e: Envelope, requestId: string, offerId: string, x: string, placed: bool)
    : Option<Reply>
  {
    if offerId !in s.offers then Some(Fail(OfferNotFound)) else
    var o := s.offers[offerId];
    if o.client != e.sender then Some(Fail(Unauthorized))
    else if o.requestId != requestId then Some(Fail(ExecutionConflict))
    else if o.status == Released then Some(Fail(OfferReleased))
    else if o.status == Expired then Some(Fail(OfferExpired))
    else if o.status == Assigned then
      if o.execution != x then Some(Fail(OfferAlreadyAssigned))
      else if x in s.executions then Some(Answer(StateResponse(ViewOf(x, s.executions[x]))))
      else Some(Fail(ExecutionNotFound))
    else if x in s.executions then
      if s.executions[x].offerId == offerId && s.executions[x].client == e.sender then Some(Reply([], None))
      else Some(Fail(ExecutionConflict))
    else if !placed then Some(Fail(Incompatible))
    else if Admit(cfg, s, e.sender, true).Some? then Some(Fail(Admit(cfg, s, e.sender, true).value))
    else None
  }

  /** handleAssign up to the call of runtime.Start. */
  ghost function AssignBegin(cfg: Config, s: State, e: Envelope, requestId: string, offerId: string, x: string,
                             now: Time, placed: bool, saved: bool)
    : (r: (State, Assignment))
  {
    var s1 := Expire(s, now);
    var refusal := AssignRefusal(cfg, s1, e, requestId, offerId, x, placed);
    if refusal.Some? then (s1, Settled(refusal.value))
    else if !saved then (s1, Settled(Fail(StoreFailure)))
    else (Bind(cfg, s1, offerId, x, now), Launch)
  }

  function SetExecution(s: State, x: string, r: Execution): State {
    s.(executions := s.executions[x := r])
  }

  function Touch(r: Execution, phase: Phase, detail: string, now: Time): Execution {
    r.(phase := phase, detail := detail, occurredAt := now, revision := r.revision + 1)
  }

  function Ended(cfg: Config, r: Execution, phase: Phase, detail: string, exit: Option<int>, now: Time, highWater: Time)
    : Execution
  {
    Touch(r, phase, detail, now).(exitCode := exit, retainUntil := Max(now, highWater) + cfg.retention, released := true)
  }

  /** finishLocked. */
  function Finish(cfg: Config, s: State, x: string, phase: Phase, detail: string, exit: Option<int>, now: Time): State
    requires x in s.executions
  {
    var r := s.executions[x];
    SetExecution(s, x, Ended(cfg, r, phase, detail, exit, now, s.highWater))
      .(used := if r.released then s.used else s.used - multiset{r.resourceClass})
  }

  /** handleAssign after runtime.Start returned. The save that follows is not rolled back. */
  function AssignEnd(cfg: Config, s: State, x: string, startErr: Option<string>, now: Time): State
    requires x in s.executions
  {
    var r := s.executions[x];
    if r.phase != Starting then s
    else if startErr.Some? then Finish(cfg, s, x, Failed, startErr.value, None, now)
    else SetExecution(s, x, Touch(r, Running, r.detail, now))
  }

  // ---------------------------------------------- cancellation and eviction

  datatype Stop = Answered(reply: Reply) | Halt

  /** handleCancel up to the call of runtime.Stop. */
  function CancelBegin(s: State, e: Envelope, x: string, reason: string, now: Time, saved: bool): (r: (State, Stop)) {
    if x !in s.executions then (s, Answered(Fail(ExecutionNotFound))) else
    var r := s.executions[x];
    if r.client != e.sender then (s, Answered(Fail(Unauthorized)))
    else if Terminal(r.phase) || r.phase == Cancelling then (s, Answered(Answer(StateResponse(ViewOf(x, r)))))
    else if !saved then (s, Answered(Fail(StoreFailure)))
    else (SetExecution(s, x, Touch(r, Cancelling, reason, now)), Halt)
  }

  /** A failed stop puts the earlier phase and detail back under a new revision. */
  function Unhalt(s: State, x: string, phase: Phase, detail: string, now: Time): State
    requires x in s.executions
  {
    if s.executions[x].phase == Cancelling then SetExecution(s, x, Touch(s.executions[x], phase, detail, now)) else s
  }

  function Halted(cfg: Config, s: State, x: string, phase: Phase, reason: string, now: Time): State
    requires x in s.executions
  {
    if Terminal(s.executions[x].phase) then s else Finish(cfg, s, x, phase, reason, None, now)
  }

  /** handleCancel after runtime.Stop returned: any stop error restores. */
  function CancelEnd(cfg: Config, s: State, x: string, reason: string, wasPhase: Phase, wasDetail: string,
                     stopped: bool, now: Time): State
    requires x in s.executions
  {
    if stopped then Halted(cfg, s, x, Cancelled, reason, now) else Unhalt(s, x, wasPhase, wasDetail, now)
  }

  predicate LeaseLapsed(r: Execution, now: Time) {
    !Terminal(r.phase) && r.phase != Cancelling && r.leaseUntil != UNSET && r.leaseUntil <= now
  }

  function EvictBegin(s: State, x: string, now: Time, saved: bool): State
    requires x in s.executions
  {
    if saved then SetExecution(s, x, Touch(s.executions[x], Cancelling, LEASE_EXPIRED, now)) else s
  }

  /** completeEviction after runtime.Stop; a workload the runtime no longer knows counts as stopped. */
  function EvictEnd(cfg: Config, s: State, x: string, wasPhase: Phase, wasDetail: string, stopped: bool, now: Time): State {
    if x !in s.executions then s
    else if stopped then Halted(cfg, s, x, Failed, LEASE_EXPIRED, now)
    else Unhalt(s, x, wasPhase, wasDetail, now)
  }

  // ------------------------------------------------- release, renew, inspect

  /** handleOfferRelease; a collected offer answers from its tombstone. */
  function HandleRelease(s: State, e: Envelope, requestId: string, offerId: string, now: Time, saved: bool)
    : (r: (State, Reply))
  {
    if offerId in s.offers then
      var o := s.offers[offerId];
      if o.client != e.sender then (s, Fail(Unauthorized))
      else if o.requestId != requestId then (s, Fail(ExecutionConflict))
      else if o.status == Outstanding then
        if !saved then (s, Fail(StoreFailure))
        else
          var status := if o.expiresAt <= now then Expired else Released;
          (s.(offers := s.offers[offerId := o.(status := status)], used := s.used - multiset{o.resourceClass}),
           Answer(ReleaseAck(requestId, offerId, if status == Expired then OutcomeExpired else OutcomeReleased)))
      else (s, Answer(ReleaseAck(requestId, offerId,
                 match o.status case Expired => OutcomeExpired case Assigned => OutcomeAssigned case _ => OutcomeReleased)))
    else if offerId in s.tombstones then
      var dead := s.tombstones[offerId];
      if dead.client != e.sender then (s, Fail(Unauthorized))
      else if dead.requestId != requestId then (s, Fail(ExecutionConflict))
      else (s, Answer(ReleaseAck(requestId, offerId, OutcomeExpired)))
    else (s, Fail(OfferNotFound))
  }

  function HandleRenew(s: State, e: Envelope, x: string, duration: int, now: Time, saved: bool): (r: (State, Reply)) {
    if x !in s.executions then (s, Fail(ExecutionNotFound)) else
    var r := s.executions[x];
    if r.client != e.sender then (s, Fail(Unauthorized))
    else if Terminal(r.phase) || r.phase == Cancelling then (s, Fail(InvalidTransition))
    else if duration > MAX_LEASE then (s, Fail(LeaseTooLong))
    else if !saved then (s, Fail(StoreFailure))
    else (SetExecution(s, x, r.(leaseUntil := now + duration)), Answer(RenewAck(x, now + duration)))
  }

  function HandleInspect(s: State, e: Envelope, x: string): Reply {
    if x !in s.executions then Fail(ExecutionNotFound)
    else if s.executions[x].client != e.sender then Fail(Unauthorized)
    else Answer(StateResponse(ViewOf(x, s.executions[x])))
  }

  /** handleTunnelOpen, as far as the allocator's own state decides it; `bound` says whether the declaration
      then reached the tunnel registry. */
  function HandleTunnelOpen(s: State, e: Envelope, x: string, bound: bool): Reply {
    if x !in s.executions then Fail(ExecutionNotFound)
    else if s.executions[x].client != e.sender then Fail(Unauthorized)
    else if Terminal(s.executions[x].phase) then Fail(InvalidTransition)
    else if !bound then Fail(InvalidConfig)
    else Answer(TunnelAck(x))
  }

  /** The two commands that only read the allocator's state. */
  function HandleRead(s: State, e: Envelope, bound: bool): Reply {
    var x := NamedExecution(e.payload);
    if e.payload.ExecutionTunnelOpen? then HandleTunnelOpen(s, e, x, bound) else HandleInspect(s, e, x)
  }

  // -------------------------------------------------------------- completion

  datatype Completion = Completion(executionId: string, detail: string, failure: Option<string>, exitCode: Option<int>)

  function CompletionPhase(c: Completion): Phase {
    if c.failure.Some? then Failed else Completed
  }

  function CompletionDetail(c: Completion): string {
    if c.failure.Some? && c.detail == "" then c.failure.value else c.detail
  }

  /** RuntimeCompleted: a failed save leaves the record and the ledger as they were. */
  function RuntimeCompleted(cfg: Config, s: State, c: Completion, now: Time, saved: bool): (r: (State, Option<Error>)) {
    if c.executionId == "" then (s, Some(InvalidTransition))
    else if c.executionId !in s.executions then (s, Some(ExecutionNotFound))
    else if Terminal(s.executions[c.executionId].phase) then
      (s, if s.executions[c.executionId].phase == CompletionPhase(c) then None else Some(InvalidTransition))
    else if !saved then (s, Some(StoreFailure))
    else (Finish(cfg, s, c.executionId, CompletionPhase(c), CompletionDetail(c), c.exitCode, now), None)
  }

  // ---------------------------------------------------------------- recovery

  datatype RuntimeOutcome = Ok | Missing(detail: string) | Conflicting(detail: string) | Broken

  /** What Recover leaves after visiting one live execution, given how the runtime answered. */
  function RecoverVisit(cfg: Config, s: State, x: string, outcome: RuntimeOutcome, checked: Time, now: Time): State
    requires x in s.executions
  {
    var r := s.executions[x];
    if Terminal(r.phase) then s
    else if r.phase == Cancelling then
      if outcome.Ok? || outcome.Missing? then
        Finish(cfg, s, x, if r.detail == LEASE_EXPIRED then Failed else Cancelled, r.detail, None, now)
      else s
    else if LeaseLapsed(r, checked) then
      if outcome.Ok? || outcome.Missing? then Finish(cfg, s, x, Failed, LEASE_EXPIRED, None, now) else s
    else match outcome
      case Ok => if r.phase == Starting then SetExecution(s, x, Touch(r, Running, r.detail, now)) else s
      case Missing(detail) => Finish(cfg, s, x, Failed, detail, None, now)
      case Conflicting(detail) => Finish(cfg, s, x, Failed, detail, None, now)
      case Broken => s
  }

  // ------------------------------------------------------------------- sweep

  /** The request a command that is still being handled may yet touch. */
  function BusyKey(s: State, entry: ReplayEntry): Option<RequestKey> {
    if entry.done then None else
    match entry.envelope.payload
    case ExecutionRequest(q) => Some((entry.envelope.sender, q.requestId))
    case ExecutionAssign(r, _, _) => Some((entry.envelope.sender, r))
    case ExecutionCancel(x, _) =>
      if x in s.executions then Some((s.executions[x].client, s.executions[x].request.requestId)) else None
    case _ => None
  }

  predicate Busy(s: State, key: RequestKey) {
    exists k | k in s.replay :: BusyKey(s, s.replay[k]) == Some(key)
  }

  predicate Collectable(s: State, id: string, now: Time)
    requires id in s.offers
  {
    var o := s.offers[id];
    && !Busy(s, KeyOf(o))
    && (|| o.status == Expired
        || o.status == Released
        || (o.status == Assigned && o.execution in s.executions
            && Terminal(s.executions[o.execution].phase) && s.executions[o.execution].retainUntil <= now))
  }

  function CollectableIds(s: State, now: Time): set<string> {
    set id | id in s.offers && Collectable(s, id, now)
  }

  function Bury(id: string, o: Offer, now: Time): Tombstone {
    Tombstone(o.client, o.requestId, id, o.execution, now + COMMAND_HORIZON, o.execution != "")
  }

  /** Collected offers leave with their index entry and execution, and turn into tombstones. */
  function Collect(s: State, dead: set<string>, now: Time): State
    requires dead <= s.offers.Keys
  {
    s.(offers := map id | id in s.offers && id !in dead :: s.offers[id],
       requests := map k | k in s.requests && !(exists id | id in dead :: KeyOf(s.offers[id]) == k) :: s.requests[k],
       executions := map x | x in s.executions && !(exists id | id in dead :: s.offers[id].execution == x) :: s.executions[x],
       tombstones := s.tombstones + map id | id in dead :: Bury(id, s.offers[id], now))
  }

  predicate Guarding(dead: Tombstone, now: Time) {
    dead.cleanupPending || dead.expiresAt > now
  }

  /** Whether a finished replay entry names retired work. */
  predicate Dropped(s: State, entry: ReplayEntry) {
    && entry.done
    && match entry.envelope.payload
       case ExecutionRequest(q) => Tombstoned(s, (entry.envelope.sender, q.requestId))
       case ExecutionAssign(r, _, _) => Tombstoned(s, (entry.envelope.sender, r))
       case ExecutionOfferRelease(_, _) => false
       case p => NamedExecution(p) !in s.executions
  }

  /** The entries of retired work go first, while every tombstone is still there, then the lapsed tombstones. */
  function Retire(s: State, now: Time): State {
    s.(replay := map k | k in s.replay && !Dropped(s, s.replay[k]) :: s.replay[k],
       tombstones := map id | id in s.tombstones && Guarding(s.tombstones[id], now) :: s.tombstones[id])
  }

  /** Sweep's collection pass before its save: advance the clock, expire, prune, collect, retire. */
  ghost function SweepReady(cfg: Config, s: State, now: Time): State {
    var s1 := Expire(Advance(s, now), Max(s.highWater, now));
    s1.(replay := Prune(cfg, s1.replay, s1.highWater))
  }

  ghost function Sweep(cfg: Config, s: State, now: Time): State {
    var s1 := SweepReady(cfg, s, now);
    Retire(Collect(s1, CollectableIds(s1, s1.highWater), s1.highWater), s1.highWater)
  }

  /** Sweep's deferred cleanup of one collected execution, when its save commits. */
  function CleanedUp(s: State, offerId: string): State {
    if offerId in s.tombstones then
      s.(tombstones := s.tombstones[offerId := s.tombstones[offerId].(cleanupPending := false)])
    else s.(tombstones := s.tombstones[offerId := Tombstone([], "", "", "", UNSET, false)])
  }

  // ------------------------------------------------------------------ reload

  function LoadedExecution(cfg: Config, r: Execution, now: Time): Execution {
    r.(revision := if r.revision == 0 then 1 else r.revision,
       retainUntil := if Terminal(r.phase) && r.retainUntil == UNSET then r.occurredAt + cfg.retention else r.retainUntil,
       leaseUntil := if !Terminal(r.phase) && r.leaseUntil == UNSET then now + cfg.leaseTTL else r.leaseUntil)
  }

  /** The state a restart reads back from a saved state: unfinished replay
      entries are gone, due offers lapse, and the ledger is counted afresh. */
  ghost function Reload(cfg: Config, s: State, now: Time): State {
    var offers := map id | id in s.offers :: Lapse(s.offers[id], now);
    var executions := map x | x in s.executions :: LoadedExecution(cfg, s.executions[x], now);
    State(offers, s.requests, executions, Tally(offers, HoldingIds(offers, executions)),
          map k | k in s.replay && s.replay[k].done :: s.replay[k], s.tombstones, s.highWater)
  }
}
