/** Redelivered commands: while its replay entry is held a command is answered
    from the entry and applied only once, and the answer on record is final. */
module Redelivery {
  import opened Protocol
  import opened AllocatorState
  import opened AllocatorInvariant
  import opened AllocatorRuns
  import opened WorldInvariant
  import opened WorldSteps
  import opened AllocatorTheorems
  import opened RetiredReplies

  predicate Held(cfg: Config, s: State, k: ReplayKey, now: Time) {
    k in s.replay && !Stale(cfg, s.replay[k], now)
  }

  /** All that time alone may change in an allocator. */
  predicate OnlyTimePassed(cfg: Config, w: World, w': World, now: Time) {
    && w'.disk == w.disk && w'.launches == w.launches && w'.issued == w.issued && w'.cleaning == w.cleaning
    && w'.retired == w.retired && w'.buried == w.buried && w.mem.highWater <= w'.mem.highWater
    && w'.mem.executions == w.mem.executions && w'.mem.requests == w.mem.requests && w'.mem.tombstones == w.mem.tombstones
    && w'.mem.offers.Keys == w.mem.offers.Keys
    && (forall id | id in w.mem.offers :: w'.mem.offers[id] == Lapse(w.mem.offers[id], now))
    && (forall k | k in w.mem.replay :: k in w'.mem.replay <==> !Stale(cfg, w.mem.replay[k], now))
    && (forall k | k in w'.mem.replay :: k in w.mem.replay && w'.mem.replay[k] == w.mem.replay[k])
  }

  /** What the lookup of a held key answers: the entry itself to its own envelope, a refusal to any other. */
  function Answers(entry: ReplayEntry, e: Envelope): Begin {
    if entry.envelope == e then Duplicate(entry) else Refused(ReplayConflict)
  }

  /** A command whose key is held, from its arrival to its answer: the entry comes back to its own envelope and
      a refusal to any other, no thread is left behind, and nothing changes but what time alone changes. */
  lemma RedeliveryStutters(cfg: Config, w: World, t: nat, e: Envelope, at: Time, now: Time, victims: set<ReplayKey>, saved: bool)
    requires Enabled(cfg, w, Arrive(t, e, at)) && now > UNSET && Held(cfg, w.mem, ReplayKeyOf(e), now)
    requires Evicts(Prune(cfg, w.mem.replay, now), victims, cfg.replayCapacity - 1)
    ensures var w1 := Apply(cfg, w, Arrive(t, e, at));
      && (t in w1.threads ==>
            && Enabled(cfg, w1, Enter(t, now, victims, saved))
            && BeginReplay(cfg, w1.mem, e, now, victims, saved).1 == Answers(w.mem.replay[ReplayKeyOf(e)], e)
            && Apply(cfg, w1, Enter(t, now, victims, saved)).threads == w.threads
            && OnlyTimePassed(cfg, w, Apply(cfg, w1, Enter(t, now, victims, saved)), now))
      && (t !in w1.threads ==> w1.mem == w.mem.(highWater := w1.mem.highWater) && w1.threads == w.threads && w1.disk == w.disk)
  {
    hide Evicts, Prune, BeginReplay, OnlyTimePassed, Arriving, Entering, Stale;
    ArrivalShape(w, t, e, at);
    var w1 := Arriving(w, t, e, at);
    if t in w1.threads {
      EnterStutters(cfg, w1, t, now, victims, saved);
      TimePassesTwice(cfg, w, w1, Entering(cfg, w1, t, now, victims, saved), now);
      assert w1.threads - {t} == w.threads;
    }
  }

  /** The freshness check moves the clock mark forward and admits the command or not. */
  lemma ArrivalShape(w: World, t: nat, e: Envelope, at: Time)
    requires t !in w.threads
    ensures var w1 := Arriving(w, t, e, at);
      && w1 == w.(mem := w1.mem, threads := w1.threads, views := w1.views) && w1.mem == w.mem.(highWater := w1.mem.highWater)
      && w.mem.highWater <= w1.mem.highWater
      && (t in w1.threads ==> w1.threads == w.threads[t := Checked(e, w1.mem.highWater)]) && (t !in w1.threads ==> w1.threads == w.threads)
  {
    hide Freshness, ViewsOf;
  }

  lemma EnterStutters(cfg: Config, w: World, t: nat, now: Time, victims: set<ReplayKey>, saved: bool)
    requires t in w.threads && w.threads[t].Checked? && Held(cfg, w.mem, ReplayKeyOf(w.threads[t].env), now)
    ensures var e, w' := w.threads[t].env, Entering(cfg, w, t, now, victims, saved);
      && BeginReplay(cfg, w.mem, e, now, victims, saved).1 == Answers(w.mem.replay[ReplayKeyOf(e)], e)
      && w'.threads == w.threads - {t} && OnlyTimePassed(cfg, w, w', now)
  {
    hide ViewsOf, Tally;
  }

  lemma TimePassesTwice(cfg: Config, w: World, w1: World, w2: World, now: Time)
    requires w1 == w.(mem := w1.mem, threads := w1.threads, views := w1.views) && w1.mem == w.mem.(highWater := w1.mem.highWater)
    requires w.mem.highWater <= w1.mem.highWater && OnlyTimePassed(cfg, w1, w2, now)
    ensures OnlyTimePassed(cfg, w, w2, now)
  {
  }

  /** In every reachable state the cache is within its capacity and keyed by its own envelopes. */
  lemma CacheBounded(cfg: Config, w: World)
    requires Reachable(cfg, w)
    ensures |w.mem.replay| <= cfg.replayCapacity
    ensures forall k | k in w.mem.replay :: ReplayKeyOf(w.mem.replay[k].envelope) == k
  {
    hide Reachable;
    ReachableInv(cfg, w);
    hide ThreadsSound, Hist, LogSound, Offered, Indexed, Paired, Shaped, LedgerExact, WithinLimits, Budgeted, QuotasKept;
  }

  // ---------------------------------------------------------- entries over time

  /** What a step may do to one cache entry: nothing; remove it once finished; finish it with the answer its own
      command leaves with; or, once stale, replace it by a new delivery of its own key. */
  predicate EntryStep(cfg: Config, w: World, ev: Event, k: ReplayKey, now: map<ReplayKey, ReplayEntry>)
    requires k in w.mem.replay
  {
    var was := w.mem.replay;
    || (k in now && now[k] == was[k])
    || (k !in now && was[k].done)
    || (&& ev.Leave? && !was[k].done && ev.t in w.threads && w.threads[ev.t].Replying? && k == ReplayKeyOf(w.threads[ev.t].env)
        && (k in now ==> now[k] == Finished(was[k], w.threads[ev.t].reply)))
    || (&& ev.Enter? && Stale(cfg, was[k], ev.now) && ev.t in w.threads && w.threads[ev.t].Checked?
        && k == ReplayKeyOf(w.threads[ev.t].env) && k in now && now[k] == ReplayEntry(ev.now, w.threads[ev.t].env, false, Reply([], None)))
  }

  predicate Kept(was: map<ReplayKey, ReplayEntry>, now: map<ReplayKey, ReplayEntry>, k: ReplayKey)
    requires k in was
  {
    (k in now && now[k] == was[k]) || (k !in now && was[k].done)
  }

  lemma PrunedEntry(cfg: Config, replay: map<ReplayKey, ReplayEntry>, now: Time, victims: set<ReplayKey>, k: ReplayKey)
    requires k in replay && Evicts(Prune(cfg, replay, now), victims, cfg.replayCapacity - 1)
    ensures Kept(replay, Prune(cfg, replay, now), k) && Kept(replay, Prune(cfg, replay, now) - victims, k)
    ensures !Stale(cfg, replay[k], now) ==> k in Prune(cfg, replay, now)
  {
  }

  lemma EnterEntry(cfg: Config, w: World, t: nat, now: Time, victims: set<ReplayKey>, saved: bool, k: ReplayKey)
    requires t in w.threads && w.threads[t].Checked?
    requires k in w.mem.replay && Evicts(Prune(cfg, w.mem.replay, now), victims, cfg.replayCapacity - 1)
    ensures EntryStep(cfg, w, Enter(t, now, victims, saved), k, Entering(cfg, w, t, now, victims, saved).mem.replay)
  {
    hide Evicts, Expire, Prune, ViewsOf, Stale, BeginReplay;
    BeginEntry(cfg, w.mem, w.threads[t].env, now, victims, saved, k);
  }

  lemma BeginEntry(cfg: Config, s: State, e: Envelope, now: Time, victims: set<ReplayKey>, saved: bool, k: ReplayKey)
    requires k in s.replay && Evicts(Prune(cfg, s.replay, now), victims, cfg.replayCapacity - 1)
    ensures var s' := BeginReplay(cfg, s, e, now, victims, saved).0;
      || Kept(s.replay, s'.replay, k)
      || (&& Stale(cfg, s.replay[k], now) && k == ReplayKeyOf(e) && k in s'.replay
          && s'.replay[k] == ReplayEntry(now, e, false, Reply([], None)))
  {
    hide Evicts, Expire, Prune, Stale;
    ExpireFrame(s, now);
    PrunedEntry(cfg, s.replay, now, victims, k);
  }

  lemma ServeEntry(cfg: Config, w: World, t: nat, now: Time, renv: RequestEnv)
    requires WorldInv(cfg, w) && Handling(w, t) && w.threads[t].env.payload.ExecutionRequest?
    ensures var w' := Serving(cfg, w, t, now, renv); w'.mem.replay == w.mem.replay && (w'.disk == w.disk || w'.disk == w'.mem)
  {
    hide HandleRequest, ThreadsSound, Hist, LogSound, Inv;
    RequestOutcome(cfg, w.mem, w.threads[t].env.sender, w.threads[t].env.payload.request, now, renv);
  }

  lemma SweepEntry(cfg: Config, w: World, now: Time, saved: bool, k: ReplayKey)
    requires k in w.mem.replay
    ensures Kept(w.mem.replay, Sweeping(cfg, w, now, saved).mem.replay, k)
  {
    ExpireFrame(Advance(w.mem, now), Max(w.mem.highWater, now));
    hide Expire, CollectableIds, Tombstoned, ViewsOf;
  }

  /** Short of a crash, no section drops or alters an unfinished entry except the
      finish of its own command, and none alters a finished one: it is kept as it
      is, removed, or, once stale, replaced by a new delivery. */
  lemma AnswersAreFinal(cfg: Config, w: World, ev: Event, k: ReplayKey)
    requires Reachable(cfg, w) && Enabled(cfg, w, ev) && !ev.Crash? && k in w.mem.replay
    ensures EntryStep(cfg, w, ev, k, Apply(cfg, w, ev).mem.replay)
  {
    hide Reachable, WorldInv, Stale, Evicts, Prune, Entering, Serving, Leaving, Sweeping, Arriving, Assigning,
         StartReturned, CancelBegins, StopReturned, Replied, EvictingBegins, Cleaning, Restarting, Commit, Apply;
    ReachableInv(cfg, w);
    if Plain(ev) {
      PlainMem(cfg, w, ev);
    } else {
      OwnStep(cfg, w, ev, k);
    }
  }

  lemma OwnStep(cfg: Config, w: World, ev: Event, k: ReplayKey)
    requires WorldInv(cfg, w) && Enabled(cfg, w, ev) && !ev.Crash? && !Plain(ev) && k in w.mem.replay
    ensures EntryStep(cfg, w, ev, k, Apply(cfg, w, ev).mem.replay)
  {
    hide WorldInv, Stale, Evicts, Prune, Entering, Serving, Leaving, Sweeping;
    match ev
    case Enter(t, now, victims, saved) => EnterEntry(cfg, w, t, now, victims, saved, k);
    case Serve(t, now, renv) => ServeEntry(cfg, w, t, now, renv);
    case Leave(t, victims, saved) => LeaveEntry(cfg, w, t, victims, saved, k);
    case SweepUp(now, saved) => SweepEntry(cfg, w, now, saved, k);
  }

  lemma LeaveEntry(cfg: Config, w: World, t: nat, victims: set<ReplayKey>, saved: bool, k: ReplayKey)
    requires WorldInv(cfg, w) && Leavable(cfg, w, t, victims) && k in w.mem.replay
    ensures EntryStep(cfg, w, Leave(t, victims, saved), k, Leaving(w, t, victims, saved).mem.replay)
  {
    hide Inv, Hist, LogSound;
    OwnedStays(w, t, w.mem);
  }

  // -------------------------------------------------------- where an answer comes from

  /** The i-th event is the finish of the entry's own command, which left with the entry's answer. */
  ghost predicate LeftWith(worlds: seq<World>, events: seq<Event>, i: nat, entry: ReplayEntry)
    requires i < |events| < |worlds|
  {
    && events[i].Leave? && events[i].t in worlds[i].threads
    && worlds[i].threads[events[i].t] == Replying(entry.envelope, entry.reply)
  }

  ghost predicate Traced(worlds: seq<World>, events: seq<Event>, n: nat, replay: map<ReplayKey, ReplayEntry>)
    requires n <= |events| < |worlds|
  {
    forall k | k in replay && replay[k].done :: exists i | 0 <= i < n :: LeftWith(worlds, events, i, replay[k])
  }

  /** Where a finished entry may come from in one step. */
  predicate Origin(w: World, ev: Event, k: ReplayKey, entry: ReplayEntry) {
    || (k in w.mem.replay && w.mem.replay[k] == entry)
    || (k in w.disk.replay && w.disk.replay[k] == entry)
    || (ev.Leave? && ev.t in w.threads && w.threads[ev.t] == Replying(entry.envelope, entry.reply))
  }

  predicate Origins(w: World, ev: Event, w': World) {
    && (forall k | k in w'.mem.replay && w'.mem.replay[k].done :: Origin(w, ev, k, w'.mem.replay[k]))
    && (w'.disk == w.disk || w'.disk == w'.mem)
  }

  lemma LeaveOrigins(cfg: Config, w: World, t: nat, victims: set<ReplayKey>, saved: bool)
    requires WorldInv(cfg, w) && Leavable(cfg, w, t, victims)
    ensures Origins(w, Leave(t, victims, saved), Leaving(w, t, victims, saved))
  {
    hide Inv, Hist, LogSound, Evicts, ViewsOf;
    OwnedStays(w, t, w.mem);
  }

  lemma EnterOrigins(cfg: Config, w: World, ev: Event)
    requires Enabled(cfg, w, ev) && ev.Enter?
    ensures Origins(w, ev, Entering(cfg, w, ev.t, ev.now, ev.victims, ev.saved))
  {
    hide BeginReplay, ViewsOf, Evicts, Prune;
    BeginCache(cfg, w.mem, w.threads[ev.t].env, ev.now, ev.victims, ev.saved);
  }

  lemma SweepOrigins(cfg: Config, w: World, now: Time, saved: bool)
    ensures Origins(w, SweepUp(now, saved), Sweeping(cfg, w, now, saved))
  {
    hide SweepReady, CollectableIds, Sweep, ViewsOf;
    SweepCache(cfg, w.mem, now);
  }

  lemma CrashOrigins(cfg: Config, w: World, now: Time)
    ensures Origins(w, Crash(now), Restarting(cfg, w, now))
  {
    hide ViewsOf, HoldingIds, LoadedExecution, Lapse;
  }

  lemma StepOrigins(cfg: Config, w: World, ev: Event)
    requires WorldInv(cfg, w) && Enabled(cfg, w, ev)
    ensures Origins(w, ev, Apply(cfg, w, ev))
  {
    hide WorldInv, Entering, Serving, Leaving, Sweeping, Restarting, Evicts, Prune, Leavable, Origins;
    match ev
    case Enter(_, _, _, _) => EnterOrigins(cfg, w, ev);
    case Serve(t, now, renv) => ServeEntry(cfg, w, t, now, renv); SameOrigins(w, ev, Serving(cfg, w, t, now, renv));
    case Leave(t, victims, saved) => LeaveOrigins(cfg, w, t, victims, saved);
    case SweepUp(now, saved) => SweepOrigins(cfg, w, now, saved);
    case Crash(now) => CrashOrigins(cfg, w, now);
    case _ => PlainOrigins(cfg, w, ev);
  }

  lemma SameOrigins(w: World, ev: Event, w': World)
    requires w'.mem.replay == w.mem.replay && (w'.disk == w.disk || w'.disk == w'.mem)
    ensures Origins(w, ev, w')
  {
  }

  lemma PlainOrigins(cfg: Config, w: World, ev: Event)
    requires Enabled(cfg, w, ev) && Plain(ev)
    ensures Origins(w, ev, Apply(cfg, w, ev))
  {
    hide Enabled, Apply, Plain, Origins;
    PlainMem(cfg, w, ev);
    SameOrigins(w, ev, Apply(cfg, w, ev));
  }

  lemma TracedMore(worlds: seq<World>, events: seq<Event>, n: nat)
    requires n < |events| < |worlds| && Traced(worlds, events, n, worlds[n].mem.replay) && Traced(worlds, events, n, worlds[n].disk.replay)
    requires Origins(worlds[n], events[n], worlds[n + 1])
    ensures Traced(worlds, events, n + 1, worlds[n + 1].mem.replay) && Traced(worlds, events, n + 1, worlds[n + 1].disk.replay)
  {
    var w, w' := worlds[n], worlds[n + 1];
    forall k | k in w'.mem.replay && w'.mem.replay[k].done
      ensures exists i | 0 <= i < n + 1 :: LeftWith(worlds, events, i, w'.mem.replay[k])
    {
      var entry := w'.mem.replay[k];
      assert Origin(w, events[n], k, entry);
      if k in w.mem.replay && w.mem.replay[k] == entry {
        var i :| 0 <= i < n && LeftWith(worlds, events, i, entry);
      } else if k in w.disk.replay && w.disk.replay[k] == entry {
        var i :| 0 <= i < n && LeftWith(worlds, events, i, entry);
      } else {
        assert LeftWith(worlds, events, n, entry);
      }
    }
  }

  lemma {:induction false} RunTraced(cfg: Config, worlds: seq<World>, events: seq<Event>, n: nat)
    requires ValidConfig(cfg) && Run(cfg, worlds, events) && n <= |events|
    ensures Traced(worlds, events, n, worlds[n].mem.replay) && Traced(worlds, events, n, worlds[n].disk.replay)
  {
    hide WorldInv, Apply, Enabled, Origins, Traced;
    if n == 0 {
      NoneTraced(worlds, events);
    } else {
      RunTraced(cfg, worlds, events, n - 1);
      RunInv(cfg, worlds, events, n - 1);
      StepOrigins(cfg, worlds[n - 1], events[n - 1]);
      TracedMore(worlds, events, n - 1);
    }
  }

  lemma NoneTraced(worlds: seq<World>, events: seq<Event>)
    requires |events| < |worlds| && worlds[0] == START
    ensures Traced(worlds, events, 0, worlds[0].mem.replay) && Traced(worlds, events, 0, worlds[0].disk.replay)
  {
  }

  /** Over any run, crashes and restarts included: a redelivery that finds its entry finished gets exactly the
      answer with which an earlier handling of that same envelope left. */
  lemma RedeliveryAnswered(cfg: Config, worlds: seq<World>, events: seq<Event>, n: nat)
    requires ValidConfig(cfg) && Run(cfg, worlds, events) && n < |events| && events[n].Enter?
    requires var ev, w := events[n], worlds[n]; Enabled(cfg, w, ev) && Held(cfg, w.mem, ReplayKeyOf(w.threads[ev.t].env), ev.now)
    ensures var ev, w := events[n], worlds[n];
      var e, entry := w.threads[ev.t].env, w.mem.replay[ReplayKeyOf(w.threads[ev.t].env)];
      var b := BeginReplay(cfg, w.mem, e, ev.now, ev.victims, ev.saved).1;
      && b == Answers(entry, e)
      && (b.Duplicate? && entry.done ==> exists i | 0 <= i < n :: LeftWith(worlds, events, i, ReplayEntry(entry.seenAt, e, true, entry.reply)))
  {
    RunTraced(cfg, worlds, events, n);
    hide Run, Evicts, Prune;
    var ev, w := events[n], worlds[n];
    var e, entry := w.threads[ev.t].env, w.mem.replay[ReplayKeyOf(w.threads[ev.t].env)];
    EnterStutters(cfg, w, ev.t, ev.now, ev.victims, ev.saved);
    hide BeginReplay, Entering;
    if entry.done && entry.envelope == e {
      assert entry == ReplayEntry(entry.seenAt, e, true, entry.reply);
    }
  }
}
