/** What holds in every reachable world of one allocator: both states keep the
    allocator invariant, every command in flight still finds what it left, and
    both states agree with the run's history. */
module WorldInvariant {
  import opened Protocol
  import opened AllocatorState
  import opened AllocatorInvariant
  import opened AllocatorSteps
  import opened AllocatorQuiet
  import opened AllocatorRuns

  // ----------------------------------------------------------------- threads

  predicate Owned(s: State, env: Envelope) {
    var key := ReplayKeyOf(env);
    key in s.replay && !s.replay[key].done && s.replay[key].envelope == env
  }

  /** The execution a command works on between its two locked sections. */
  predicate Holding(s: State, env: Envelope, x: string) {
    && Owned(s, env) && x in s.executions
    && (env.payload.ExecutionCancel? ==> env.payload.executionId == x)
    && (env.payload.ExecutionAssign? ==>
          (s.executions[x].client, s.executions[x].request.requestId) == (env.sender, env.payload.requestId))
    && (env.payload.ExecutionCancel? || env.payload.ExecutionAssign?)
  }

  predicate Fresh(env: Envelope, at: Time, s: State) {
    ValidEnvelope(env) && WithinHorizon(env.sentAt, at) && at <= s.highWater
  }

  predicate ThreadSound(s: State, th: Thread) {
    match th
    case Checked(env, at) => Fresh(env, at, s)
    case Begun(env, at) => Fresh(env, at, s) && Owned(s, env)
    case Launching(env, x) => Holding(s, env, x)
    case Stopping(env, x, _, wasPhase, _) => Holding(s, env, x) && Live(wasPhase)
    case Evicting(_, wasPhase, _) => Live(wasPhase)
    case Replying(env, _) => Owned(s, env)
  }

  predicate HasEntry(th: Thread) {
    !th.Checked? && !th.Evicting?
  }

  predicate Keyed(threads: map<nat, Thread>) {
    forall t, u | t in threads && u in threads && t != u && HasEntry(threads[t]) && HasEntry(threads[u]) ::
      ReplayKeyOf(threads[t].env) != ReplayKeyOf(threads[u].env)
  }

  predicate ThreadsSound(w: World) {
    Keyed(w.threads) && forall t | t in w.threads :: ThreadSound(w.mem, w.threads[t])
  }

  // ----------------------------------------------------------------- history

  predicate IdsIssued(s: State, issued: set<string>) {
    s.offers.Keys <= issued && s.tombstones.Keys <= issued
  }

  predicate LaunchesKept(s: State, launches: seq<Launched>) {
    forall i | 0 <= i < |launches| ::
      launches[i].offerId in s.offers ==> s.offers[launches[i].offerId].status == Assigned
  }

  predicate TombstoneUntil(s: State, k: RequestKey, until: Time) {
    exists id | id in s.tombstones ::
      s.tombstones[id].client == k.0 && s.tombstones[id].requestId == k.1 && s.tombstones[id].expiresAt >= until
  }

  /** A request collected at `at` is either past every fresh envelope of that time or still tombstoned and unindexed. */
  predicate Guarded(s: State, k: RequestKey, at: Time) {
    s.highWater >= at + COMMAND_HORIZON || (k !in s.requests && TombstoneUntil(s, k, at + COMMAND_HORIZON))
  }

  predicate RetiredKept(s: State, retired: map<RequestKey, Time>) {
    forall k | k in retired :: Guarded(s, k, retired[k])
  }

  predicate Hist(s: State, w: World) {
    IdsIssued(s, w.issued) && LaunchesKept(s, w.launches) && RetiredKept(s, w.retired) && w.buried !! s.offers.Keys
  }

  predicate LaunchedOnce(launches: seq<Launched>) {
    forall i, j | 0 <= i < j < |launches| :: launches[i].offerId != launches[j].offerId
  }

  predicate LogSound(w: World) {
    && LaunchedOnce(w.launches) && w.buried <= w.issued
    && (forall i | 0 <= i < |w.launches| :: w.launches[i].offerId in w.issued)
  }

  ghost predicate Core(cfg: Config, w: World) {
    && Inv(cfg, w.mem) && Inv(cfg, w.disk) && Hist(w.mem, w) && Hist(w.disk, w)
    && LogSound(w) && w.cleaning <= w.mem.tombstones.Keys
  }

  ghost predicate WorldInv(cfg: Config, w: World) {
    Core(cfg, w) && ThreadsSound(w)
  }

  // ---------------------------------------------------------- quiet sections

  lemma QuietGuards(s: State, s': State, k: RequestKey, at: Time)
    requires Quiet(s, s') && Guarded(s, k, at)
    ensures Guarded(s', k, at)
  {
    hide OfferStep, RecordStep;
    if s.highWater < at + COMMAND_HORIZON {
      var id :| id in s.tombstones && s.tombstones[id].client == k.0 && s.tombstones[id].requestId == k.1
             && s.tombstones[id].expiresAt >= at + COMMAND_HORIZON;
      assert SameGuard(s.tombstones[id], s'.tombstones[id]);
    }
  }

  lemma QuietHist(s: State, s': State, w: World)
    requires Quiet(s, s') && Hist(s, w)
    ensures Hist(s', w)
  {
    forall k | k in w.retired ensures Guarded(s', k, w.retired[k]) { QuietGuards(s, s', k, w.retired[k]); }
    hide Guarded, RecordStep, SameGuard;
  }

  /** A section that only changes the live state quietly, and perhaps commits it. */
  ghost predicate Calm(cfg: Config, w: World, w': World) {
    && Inv(cfg, w'.mem) && Quiet(w.mem, w'.mem) && (w'.disk == w.disk || w'.disk == w'.mem)
    && w'.launches == w.launches && w'.issued == w.issued && w'.retired == w.retired && w'.buried == w.buried
    && w'.cleaning <= w.cleaning
  }

  lemma CalmKeeps(cfg: Config, w: World, w': World)
    requires Core(cfg, w) && Calm(cfg, w, w')
    ensures Core(cfg, w')
  {
    hide Inv;
    QuietHist(w.mem, w'.mem, w);
    hide RetiredKept, LaunchesKept, IdsIssued, OfferStep, RecordStep, SameGuard;
  }

  lemma ThreadFrame(s: State, s': State, th: Thread)
    requires ThreadSound(s, th) && Quiet(s, s') && EntriesKept(s.replay, s'.replay)
    ensures ThreadSound(s', th)
  {
  }

  /** Every other thread stays sound; `t` itself may have moved on. */
  lemma ThreadsFrame(w: World, w': World, t: nat)
    requires ThreadsSound(w) && Quiet(w.mem, w'.mem) && EntriesKept(w.mem.replay, w'.mem.replay)
    requires forall u | u in w'.threads && u != t :: u in w.threads && w'.threads[u] == w.threads[u]
    requires t in w'.threads ==> ThreadSound(w'.mem, w'.threads[t])
    requires t in w'.threads && HasEntry(w'.threads[t]) ==> NewKey(w, t, w'.threads[t].env)
    ensures ThreadsSound(w')
  {
    hide Quiet, EntriesKept, ThreadSound;
    forall u | u in w'.threads && u != t ensures ThreadSound(w'.mem, w'.threads[u]) {
      ThreadFrame(w.mem, w'.mem, w.threads[u]);
    }
  }

  predicate NewKey(w: World, t: nat, env: Envelope) {
    forall u | u in w.threads && u != t && HasEntry(w.threads[u]) :: ReplayKeyOf(w.threads[u].env) != ReplayKeyOf(env)
  }

  /** A thread that goes on with the same command, after a quiet section. */
  lemma ThreadMoves(w: World, w': World, t: nat)
    requires ThreadsSound(w) && Quiet(w.mem, w'.mem) && w'.mem.replay == w.mem.replay
    requires t in w.threads && t in w'.threads && w'.threads == w.threads[t := w'.threads[t]]
    requires HasEntry(w.threads[t]) && HasEntry(w'.threads[t]) && w'.threads[t].env == w.threads[t].env
    requires ThreadSound(w'.mem, w'.threads[t])
    ensures ThreadsSound(w')
  {
    hide Quiet, ThreadSound;
    ThreadsFrame(w, w', t);
  }
}
