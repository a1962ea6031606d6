/** A run that leaves the disk behind what clients have been shown: an
    assignment commits, the runtime's start returns, and the save that follows
    fails although its answer goes out. A crash then shows two states under one
    revision. */
module ViewLimits {
  import opened Protocol
  import opened AllocatorState
  import opened AllocatorRuns
  import opened ExecutionViews
  import opened RetirementLimits

  const ASSIGN := Envelope("a", SENDER, 1, ExecutionAssign("r", "o", "x"))
  const PENDING := ReplayEntry(1, ASSIGN, false, Reply([], None))
  const ADMITTED := ANSWERED.(replay := ANSWERED.replay[(SENDER, "a") := PENDING])
  const RECORD := Execution("o", SENDER, "c", ASKED, Starting, "", None, 1, 1, false, UNSET, 2, 1)
  const BOUND := ADMITTED.(offers := map["o" := OFFER.(status := Assigned, execution := "x")], executions := map["x" := RECORD])
  const STARTED := BOUND.(executions := map["x" := Touch(RECORD, Running, "", 1)])
  const SHOWN: set<(string, View)> := {("o", View("x", Starting, "", None, 1, 1))}

  function AfterAssign(mem: State, thread: Thread, views: set<(string, View)>): World {
    World(mem, BOUND, map[1 := thread], {}, [Launched("o", "x", SENDER, "r")], {"o"}, map[], {}, views)
  }

  lemma StepAsk()
    ensures var w := Before(ANSWERED, ANSWERED, map[], {"o"});
      && Enabled(CFG, w, Arrive(1, ASSIGN, 1))
      && Apply(CFG, w, Arrive(1, ASSIGN, 1)) == Before(ANSWERED, ANSWERED, map[1 := Checked(ASSIGN, 1)], {"o"})
  {
  }

  lemma StepAdmit()
    ensures var w := Before(ANSWERED, ANSWERED, map[1 := Checked(ASSIGN, 1)], {"o"});
      && Enabled(CFG, w, Enter(1, 1, {}, true))
      && Apply(CFG, w, Enter(1, 1, {}, true)) == Before(ADMITTED, ADMITTED, map[1 := Begun(ASSIGN, 1)], {"o"})
  {
    hide BeginReplay, Evicts;
    Admits();
  }

  lemma Admits()
    ensures BeginReplay(CFG, ANSWERED, ASSIGN, 1, {}, true) == (ADMITTED, Fresh)
    ensures Evicts(Prune(CFG, ANSWERED.replay, 1), {}, CFG.replayCapacity - 1)
  {
    NoneDue(ANSWERED, 1);
    hide Expire;
    NothingStale();
    hide Prune;
    assert ANSWERED.replay - {} == ANSWERED.replay;
  }

  lemma NothingStale()
    ensures Prune(CFG, ANSWERED.replay, 1) == ANSWERED.replay && |ANSWERED.replay| == 1
  {
  }

  lemma Binds()
    ensures AssignBegin(CFG, ADMITTED, ASSIGN, "r", "o", "x", 1, true, true) == (BOUND, Launch)
  {
    NoneDue(ADMITTED, 1);
    hide Expire;
    assert AssignRefusal(CFG, ADMITTED, ASSIGN, "r", "o", "x", true) == None;
    assert Bind(CFG, ADMITTED, "o", "x", 1) == BOUND;
  }

  lemma OneShown(r: Execution, s: State)
    requires s.executions == map["x" := r]
    ensures ViewsOf(s) == {(r.offerId, ViewOf("x", r))}
  {
    assert "x" in s.executions && forall x | x in s.executions :: x == "x";
  }

  lemma StepBind()
    ensures var w := Before(ADMITTED, ADMITTED, map[1 := Begun(ASSIGN, 1)], {"o"});
      && Enabled(CFG, w, Assign(1, 1, true, true)) && Apply(CFG, w, Assign(1, 1, true, true)) == AfterAssign(BOUND, Launching(ASSIGN, "x"), SHOWN)
  {
    hide AssignBegin, ViewsOf;
    Binds();
    OneShown(RECORD, BOUND);
  }

  function Lagging(): World {
    AfterAssign(STARTED, Replying(ASSIGN, Reply([StateResponse(ViewOf("x", STARTED.executions["x"]))], Some(StoreFailure))),
             SHOWN + {("o", ViewOf("x", STARTED.executions["x"]))})
  }

  lemma StepStart()
    ensures var w := AfterAssign(BOUND, Launching(ASSIGN, "x"), SHOWN);
      && Enabled(CFG, w, Started(1, None, 1, false)) && Apply(CFG, w, Started(1, None, 1, false)) == Lagging()
  {
    hide ViewsOf;
    assert AssignEnd(CFG, BOUND, "x", None, 1) == STARTED;
    OneShown(STARTED.executions["x"], STARTED);
  }

  lemma LaunchReached()
    ensures Reached(AfterAssign(BOUND, Launching(ASSIGN, "x"), SHOWN))
  {
    hide Reached, Enabled, Apply;
    AnsweredReached();
    StepAsk();
    Reaches(Before(ANSWERED, ANSWERED, map[], {"o"}), Arrive(1, ASSIGN, 1));
    StepAdmit();
    Reaches(Before(ANSWERED, ANSWERED, map[1 := Checked(ASSIGN, 1)], {"o"}), Enter(1, 1, {}, true));
    StepBind();
    Reaches(Before(ADMITTED, ADMITTED, map[1 := Begun(ASSIGN, 1)], {"o"}), Assign(1, 1, true, true));
  }

  lemma LaggingReached()
    ensures Reached(Lagging()) && !Synced(Lagging())
  {
    assert "x" in Lagging().mem.executions && ViewOf("x", Lagging().disk.executions["x"]) != ViewOf("x", Lagging().mem.executions["x"]);
    hide Reached, Enabled, Apply, Synced;
    LaunchReached();
    StepStart();
    Reaches(AfterAssign(BOUND, Launching(ASSIGN, "x"), SHOWN), Started(1, None, 1, false));
  }

  /** A whole run whose clients see two states under one revision. */
  lemma ConflictingRun()
    ensures exists worlds: seq<World>, events, n: nat :: Run(CFG, worlds, events) && n < |worlds| && !Coherent(worlds[n].views)
  {
    hide Enabled, Apply, Synced, Coherent, Restarting, Completing;
    LaggingReached();
    var worlds, events :| Run(CFG, worlds, events) && worlds[|events|] == Lagging() && NoCrash(events);
    CrashSafeExactly(CFG, worlds, events, 1);
    var c :| !Coherent(Continued(CFG, worlds, 1, c)[|events| + 2].views);
    assert Run(CFG, Continued(CFG, worlds, 1, c), events + [Crash(1), Complete(c, 1, true)]);
  }
}
