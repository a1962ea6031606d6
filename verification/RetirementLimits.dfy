/** How far "retired stays retired" reaches. Two runs in which an envelope gets a
    second offer for collected work: one was sent before the collection but its
    handler starts one tick past the horizon, the other was sent in the very
    instant of the collection. Both bounds of RetiredStaysRetired are sharp. */
module RetirementLimits {
  import opened Protocol
  import opened AllocatorState
  import opened AllocatorInvariant
  import opened AllocatorRuns
  import opened AllocatorTheorems
  import opened AllocatorLoops

  const CFG := Config(map["c" := 1], 1, 1, 1, 1, 4, 4, None, Quota(0, 0), map[])
  const ASKED := Request("r", "c", "")
  const SENDER: Identity := [7]
  const KEY: RequestKey := (SENDER, "r")
  const AFTER: Time := 2 + COMMAND_HORIZON

  function Ask(messageId: string, sentAt: Time): Envelope {
    Envelope(messageId, SENDER, sentAt, ExecutionRequest(ASKED))
  }

  const FIRST := Ask("m", 1)
  const OFFER := Offer("r", "c", 2, ASKED, SENDER, Outstanding, "")
  const MINTED := OfferReply("o", OFFER)
  const BEGUN := ReplayEntry(1, FIRST, false, Reply([], None))

  const ENTERED := State(map[], map[], map[], multiset{}, map[(SENDER, "m") := BEGUN], map[], 1)
  const OFFERED := ENTERED.(offers := map["o" := OFFER], requests := map[KEY := "o"], used := multiset{"c"})
  const ANSWERED := OFFERED.(replay := map[(SENDER, "m") := Finished(BEGUN, MINTED)])
  const BURIED := State(map[], map[], map[], multiset{}, map[],
                        map["o" := Tombstone(SENDER, "r", "o", "", AFTER, false)], 2)
  const FORGOTTEN := State(map[], map[], map[], multiset{}, map[], map[], AFTER)

  function Before(mem: State, disk: State, threads: map<nat, Thread>, issued: set<string>): World {
    World(mem, disk, threads, {}, [], issued, map[], {}, {})
  }

  function Later(mem: State, threads: map<nat, Thread>): World {
    World(mem, mem, threads, {}, [], {"o"}, map[KEY := 2], {"o"}, {})
  }

  // ------------------------------------------------------------------ the steps

  lemma NoneDue(s: State, now: Time)
    requires DueIds(s.offers, now) == {}
    ensures Expire(s, now) == s
  {
    NothingTallied(s.offers);
    forall id | id in s.offers ensures Lapse(s.offers[id], now) == s.offers[id] {
      assert id !in DueIds(s.offers, now);
    }
    assert (map id | id in s.offers :: Lapse(s.offers[id], now)) == s.offers;
  }

  lemma StepArrive()
    ensures Enabled(CFG, START, Arrive(0, FIRST, 1))
    ensures Apply(CFG, START, Arrive(0, FIRST, 1)) == Before(EMPTY.(highWater := 1), EMPTY, map[0 := Checked(FIRST, 1)], {})
  {
  }

  lemma StepEnter()
    ensures var w := Before(EMPTY.(highWater := 1), EMPTY, map[0 := Checked(FIRST, 1)], {});
      && Enabled(CFG, w, Enter(0, 1, {}, true))
      && Apply(CFG, w, Enter(0, 1, {}, true)) == Before(ENTERED, ENTERED, map[0 := Begun(FIRST, 1)], {})
  {
    NoneDue(EMPTY.(highWater := 1), 1);
    hide Expire;
  }

  lemma Asking()
    ensures HandleRequest(CFG, ENTERED, SENDER, ASKED, 1, RequestEnv("o", true, true, true)) == (OFFERED, MINTED)
  {
    NoneDue(ENTERED, 1);
    hide Expire;
    assert |ENTERED.offers| == 0 && |ENTERED.tombstones| == 0;
    assert RequestRefusal(CFG, ENTERED, SENDER, ASKED, RequestEnv("o", true, true, true)) == None;
    assert NewOffer(CFG, SENDER, ASKED, 1) == OFFER;
    assert Mint(CFG, ENTERED, SENDER, ASKED, 1, "o").used == multiset{"c"};
  }

  lemma StepServe()
    ensures var w, ev := Before(ENTERED, ENTERED, map[0 := Begun(FIRST, 1)], {}), Serve(0, 1, RequestEnv("o", true, true, true));
      && Enabled(CFG, w, ev)
      && Apply(CFG, w, ev) == Before(OFFERED, OFFERED, map[0 := Replying(FIRST, MINTED)], {"o"})
  {
    hide HandleRequest;
    Asking();
  }

  lemma StepLeave()
    ensures var w := Before(OFFERED, OFFERED, map[0 := Replying(FIRST, MINTED)], {"o"});
      && Enabled(CFG, w, Leave(0, {}, true))
      && Apply(CFG, w, Leave(0, {}, true)) == Before(ANSWERED, ANSWERED, map[], {"o"})
  {
  }

  lemma StepStall(e: Envelope)
    requires ValidEnvelope(e) && e.payload.ExecutionRequest? && WithinHorizon(e.sentAt, 1)
    ensures var w := Before(ANSWERED, ANSWERED, map[], {"o"});
      && Enabled(CFG, w, Arrive(1, e, 1))
      && Apply(CFG, w, Arrive(1, e, 1)) == Before(ANSWERED, ANSWERED, map[1 := Checked(e, 1)], {"o"})
  {
  }

  lemma Lapsing()
    ensures SweepReady(CFG, ANSWERED, 2) == LAPSED
  {
    assert DueIds(ANSWERED.offers, 2) == {"o"};
    TallyOne(ANSWERED.offers, "o");
  }

  const LAPSED := State(map["o" := OFFER.(status := Expired)], map[KEY := "o"], map[], multiset{}, map[], map[], 2)

  lemma LapsedCollected()
    ensures CollectableIds(LAPSED, 2) == {"o"} && AllocatorState.Collect(LAPSED, {"o"}, 2) == BURIED
  {
    var s := AllocatorState.Collect(LAPSED, {"o"}, 2);
    assert Collectable(LAPSED, "o", 2);
    assert s.offers == map[] && s.executions == map[] && s.tombstones == BURIED.tombstones;
    assert KeyOf(LAPSED.offers["o"]) == KEY;
    assert s.requests == map[];
  }

  lemma BuriedRetired()
    ensures Retire(BURIED, 2) == BURIED
  {
    assert Retire(BURIED, 2).tombstones == BURIED.tombstones;
  }

  lemma StepCollect(threads: map<nat, Thread>)
    ensures var w := Before(ANSWERED, ANSWERED, threads, {"o"});
      && Enabled(CFG, w, SweepUp(2, true))
      && Apply(CFG, w, SweepUp(2, true)) == Later(BURIED, threads)
  {
    hide SweepReady, CollectableIds, AllocatorState.Collect, Retire;
    Lapsing();
    LapsedCollected();
    BuriedRetired();
  }

  const DRIFTED := BURIED.(highWater := AFTER)

  lemma Forgetting()
    ensures SweepReady(CFG, BURIED, AFTER) == DRIFTED && CollectableIds(DRIFTED, AFTER) == {}
  {
    NoneDue(DRIFTED, AFTER);
    hide Expire;
  }

  lemma DriftedRetired()
    ensures AllocatorState.Collect(DRIFTED, {}, AFTER) == DRIFTED && Retire(DRIFTED, AFTER) == FORGOTTEN
  {
    assert AllocatorState.Collect(DRIFTED, {}, AFTER).tombstones == DRIFTED.tombstones;
  }

  lemma StepForget(threads: map<nat, Thread>)
    ensures var w := Later(BURIED, threads);
      && Enabled(CFG, w, SweepUp(AFTER, true))
      && Apply(CFG, w, SweepUp(AFTER, true)) == Later(FORGOTTEN, threads)
  {
    hide SweepReady, CollectableIds, AllocatorState.Collect, Retire;
    Forgetting();
    DriftedRetired();
  }

  lemma StepLate(e: Envelope)
    requires ValidEnvelope(e) && e.payload.ExecutionRequest? && WithinHorizon(e.sentAt, AFTER)
    ensures Enabled(CFG, Later(FORGOTTEN, map[]), Arrive(1, e, AFTER))
    ensures Apply(CFG, Later(FORGOTTEN, map[]), Arrive(1, e, AFTER)) == Later(FORGOTTEN, map[1 := Checked(e, AFTER)])
  {
  }

  function Reentered(e: Envelope): State {
    FORGOTTEN.(replay := map[ReplayKeyOf(e) := ReplayEntry(AFTER, e, false, Reply([], None))])
  }

  lemma StepReenter(e: Envelope, at: Time)
    ensures var w := Later(FORGOTTEN, map[1 := Checked(e, at)]);
      && Enabled(CFG, w, Enter(1, AFTER, {}, true))
      && Apply(CFG, w, Enter(1, AFTER, {}, true)) == Later(Reentered(e), map[1 := Begun(e, at)])
  {
    NoneDue(FORGOTTEN, AFTER);
    hide Expire;
  }

  const AGAIN := RequestEnv("p", true, true, true)

  lemma StepRemint(e: Envelope, at: Time)
    requires e.payload == ExecutionRequest(ASKED) && e.sender == SENDER
    ensures var w, ev := Later(Reentered(e), map[1 := Begun(e, at)]), Serve(1, AFTER, AGAIN);
      && Enabled(CFG, w, ev)
      && Apply(CFG, w, ev).threads[1] == Replying(e, OfferReply("p", NewOffer(CFG, SENDER, ASKED, AFTER)))
  {
    NoneDue(Reentered(e), AFTER);
    hide Expire;
    assert |Reentered(e).offers| == 0 && |Reentered(e).tombstones| == 0;
  }

  // ------------------------------------------------------------------- the runs

  /** Some run without a crash ends in `w`. */
  ghost predicate Reached(w: World) {
    exists worlds, events :: Run(CFG, worlds, events) && worlds[|events|] == w && NoCrash(events)
  }

  predicate NoCrash(events: seq<Event>) {
    forall i | 0 <= i < |events| :: !events[i].Crash?
  }

  lemma Starts()
    ensures Reached(START)
  {
    assert Run(CFG, [START], []) && [START][0] == START && NoCrash([]);
  }

  lemma Reaches(w: World, ev: Event)
    requires Reached(w) && Enabled(CFG, w, ev) && !ev.Crash?
    ensures Reached(Apply(CFG, w, ev))
  {
    hide Enabled, Apply;
    var worlds, events :| Run(CFG, worlds, events) && worlds[|events|] == w && NoCrash(events);
    var more, done := worlds + [Apply(CFG, w, ev)], events + [ev];
    assert Run(CFG, more, done) && more[|done|] == Apply(CFG, w, ev) && NoCrash(done);
  }

  lemma ReachedReachable(w: World)
    requires Reached(w)
    ensures Reachable(CFG, w)
  {
    hide Enabled, Apply;
    var worlds, events :| Run(CFG, worlds, events) && worlds[|events|] == w && NoCrash(events);
  }

  lemma AnsweredReached()
    ensures Reached(Before(ANSWERED, ANSWERED, map[], {"o"}))
  {
    hide Reached, Enabled, Apply;
    Starts();
    StepArrive();
    Reaches(START, Arrive(0, FIRST, 1));
    StepEnter();
    Reaches(Before(EMPTY.(highWater := 1), EMPTY, map[0 := Checked(FIRST, 1)], {}), Enter(0, 1, {}, true));
    StepServe();
    Reaches(Before(ENTERED, ENTERED, map[0 := Begun(FIRST, 1)], {}), Serve(0, 1, RequestEnv("o", true, true, true)));
    StepLeave();
    Reaches(Before(OFFERED, OFFERED, map[0 := Replying(FIRST, MINTED)], {"o"}), Leave(0, {}, true));
  }

  lemma ForgottenReachable(threads: map<nat, Thread>)
    requires Reachable(CFG, Before(ANSWERED, ANSWERED, threads, {"o"}))
    ensures Reachable(CFG, Later(FORGOTTEN, threads))
  {
    hide Reachable, Enabled, Apply;
    StepCollect(threads);
    Extends(CFG, Before(ANSWERED, ANSWERED, threads, {"o"}), SweepUp(2, true));
    StepForget(threads);
    Extends(CFG, Later(BURIED, threads), SweepUp(AFTER, true));
  }

  lemma ServedAgain(e: Envelope, at: Time)
    requires Reachable(CFG, Later(FORGOTTEN, map[1 := Checked(e, at)]))
    requires e.payload == ExecutionRequest(ASKED) && e.sender == SENDER
    ensures Reachable(CFG, Later(Reentered(e), map[1 := Begun(e, at)]))
    ensures SecondOffer(Later(Reentered(e), map[1 := Begun(e, at)]), 1, AFTER, AGAIN)
  {
    hide Reachable, Enabled, Apply;
    StepReenter(e, at);
    Extends(CFG, Later(FORGOTTEN, map[1 := Checked(e, at)]), Enter(1, AFTER, {}, true));
    StepRemint(e, at);
  }

  /** Serving the request command of `t`, whose request is retired, mints a new offer for it. */
  ghost predicate SecondOffer(w: World, t: nat, now: Time, renv: RequestEnv) {
    && Enabled(CFG, w, Serve(t, now, renv))
    && w.threads[t].env.payload == ExecutionRequest(ASKED) && w.threads[t].env.sender == SENDER && KEY in w.retired
    && Apply(CFG, w, Serve(t, now, renv)).threads[t]
         == Replying(w.threads[t].env, OfferReply(renv.newId, NewOffer(CFG, SENDER, ASKED, now)))
  }

  /** Sent before the collection, but one tick past the horizon when the handler starts. */
  lemma StalledCommandRevives()
    ensures exists w: World, t: nat, now, renv ::
      && Reachable(CFG, w) && SecondOffer(w, t, now, renv)
      && w.threads[t].env.sentAt < w.retired[KEY] && w.mem.highWater == w.threads[t].env.sentAt + COMMAND_HORIZON + 1
  {
    hide Reachable, Reached, SecondOffer, Apply, Enabled;
    var e := Ask("n", 1);
    AnsweredReached();
    ReachedReachable(Before(ANSWERED, ANSWERED, map[], {"o"}));
    StepStall(e);
    Extends(CFG, Before(ANSWERED, ANSWERED, map[], {"o"}), Arrive(1, e, 1));
    ForgottenReachable(map[1 := Checked(e, 1)]);
    ServedAgain(e, 1);
    assert SecondOffer(Later(Reentered(e), map[1 := Begun(e, 1)]), 1, AFTER, AGAIN);
  }

  /** Within the horizon when the handler starts, but sent in the instant of the collection itself. */
  lemma SimultaneousCommandRevives()
    ensures exists w: World, t: nat, now, renv ::
      && Reachable(CFG, w) && SecondOffer(w, t, now, renv)
      && w.threads[t].env.sentAt == w.retired[KEY] && w.mem.highWater <= w.threads[t].env.sentAt + COMMAND_HORIZON
  {
    hide Reachable, Reached, SecondOffer, Apply, Enabled;
    var e := Ask("n", 2);
    AnsweredReached();
    ReachedReachable(Before(ANSWERED, ANSWERED, map[], {"o"}));
    ForgottenReachable(map[]);
    StepLate(e);
    Extends(CFG, Later(FORGOTTEN, map[]), Arrive(1, e, AFTER));
    ServedAgain(e, AFTER);
    assert SecondOffer(Later(Reentered(e), map[1 := Begun(e, AFTER)]), 1, AFTER, AGAIN);
  }
}
