/** The states an allocator shows of one execution. Within a process, and
    across every restart that finds on disk what memory last showed, a revision
    always shows the same state and a terminal state is the last. */
module ExecutionViews {
  import opened Protocol
  import opened AllocatorState
  import opened AllocatorInvariant
  import opened AllocatorQuiet
  import opened AllocatorRuns
  import opened WorldInvariant
  import opened WorldSteps

  /** Views are kept with the offer their execution was assigned from. */
  predicate Coherent(views: set<(string, View)>) {
    && (forall a, b | a in views && b in views && a.0 == b.0 && a.1.revision == b.1.revision :: a == b)
    && (forall a, b | a in views && b in views && a.0 == b.0 && Terminal(a.1.phase) :: b.1.revision <= a.1.revision)
  }

  predicate Shown(s: State, views: set<(string, View)>) {
    forall x | x in s.executions :: (s.executions[x].offerId, ViewOf(x, s.executions[x])) in views
  }

  /** The record on file is the newest view of its offer, and the only terminal one if there is any. */
  predicate Newest(s: State, views: set<(string, View)>) {
    forall x, a | x in s.executions && a in views && a.0 == s.executions[x].offerId ::
      a.1.revision <= s.executions[x].revision && (Terminal(a.1.phase) ==> a.1 == ViewOf(x, s.executions[x]))
  }

  predicate Gapless(s: State, views: set<(string, View)>) {
    forall x, n | x in s.executions && 1 <= n <= s.executions[x].revision :: Has(views, s.executions[x].offerId, n)
  }

  predicate Has(views: set<(string, View)>, offerId: string, n: nat) {
    exists a | a in views :: a.0 == offerId && a.1.revision == n
  }

  predicate WasLaunched(launches: seq<Launched>, offerId: string) {
    exists i | 0 <= i < |launches| :: launches[i].offerId == offerId
  }

  predicate ViewsLaunched(w: World) {
    forall a | a in w.views :: WasLaunched(w.launches, a.0)
  }

  /** Memory and disk know the same executions, and the disk is never ahead. */
  predicate DiskBehind(w: World) {
    && w.disk.executions.Keys == w.mem.executions.Keys && Shown(w.disk, w.views)
    && forall x | x in w.mem.executions ::
         SameWork(w.mem.executions[x], w.disk.executions[x]) && w.disk.executions[x].revision <= w.mem.executions[x].revision
  }

  predicate ViewInv(w: World) {
    && Coherent(w.views) && Shown(w.mem, w.views) && Newest(w.mem, w.views) && Gapless(w.mem, w.views)
    && ViewsLaunched(w) && DiskBehind(w)
  }

  /** The disk shows what memory shows. */
  predicate Synced(w: World) {
    forall x | x in w.mem.executions :: x in w.disk.executions && ViewOf(x, w.disk.executions[x]) == ViewOf(x, w.mem.executions[x])
  }

  // ------------------------------------------------------ sections without binding

  lemma RecordsEvolve(cfg: Config, w: World, ev: Event)
    requires WorldInv(cfg, w) && Enabled(cfg, w, ev)
    requires !ev.Assign? && !ev.SweepUp? && !ev.Crash?
    ensures RecordsKept(w.mem, Apply(cfg, w, ev).mem)
  {
    hide Inv, Expire, HandleRequest, BeginReplay, CancelBegin, CancelEnd, EvictEnd, AssignEnd, RuntimeCompleted, RecoverVisit,
         HandleRelease, HandleRenew, EvictBegin, RecordStep, OffersKept, TombstonesKept, Evicts, Hist, LogSound, ThreadsSound;
    SelfQuiet(w.mem);
    match ev
    case Arrive(t, env, now) =>
    case Enter(t, now, victims, saved) => BeginQuiet(cfg, w.mem, w.threads[t].env, now, victims, saved);
    case Serve(t, now, renv) =>
      var e := w.threads[t].env;
      RequestOutcome(cfg, w.mem, e.sender, e.payload.request, now, renv);
    case Started(t, startErr, now, saved) =>
      if w.threads[t].x in w.mem.executions { AssignEndQuiet(cfg, w.mem, w.threads[t].x, startErr, now); }
    case Cancel(t, now, saved) =>
      CancelQuiet(w.mem, w.threads[t].env, w.threads[t].env.payload.executionId, w.threads[t].env.payload.reason, now, saved);
    case Stopped(t, stopped, now, saved) =>
      var th := w.threads[t];
      StopQuiet(cfg, w.mem, th.x, if th.Stopping? then th.reason else "", th.wasPhase, th.wasDetail, stopped, now);
    case Release(t, now, saved) =>
      var e := w.threads[t].env;
      ReleaseQuiet(w.mem, e, e.payload.requestId, e.payload.offerId, now, saved);
    case Renew(t, now, saved) =>
      var e := w.threads[t].env;
      RenewQuiet(w.mem, e, e.payload.executionId, e.payload.duration, now, saved);
    case Read(t, bound) =>
    case Leave(t, victims, saved) =>
    case Evict(t, x, now, saved) => EvictQuiet(w.mem, x, now, saved);
    case Complete(c, now, saved) => CompletedQuiet(cfg, w.mem, c, now, saved);
    case Tick(now, saved) => ExpireQuiet(w.mem, now);
    case Clean(id, saved) => CleanedUpQuiet(w.mem, id);
    case Swept =>
    case Recover(x, outcome, checked, now, saved) => RecoverQuiet(cfg, w.mem, x, outcome, checked, now);
  }

  /** What a section without binding does to the history and to the disk. */
  predicate Evolved(w: World, w': World) {
    && w'.launches == w.launches && (w'.disk == w.disk || w'.disk == w'.mem)
    && (w'.views == w.views + ViewsOf(w'.mem) || (w'.views == w.views && w'.mem == w.mem))
  }

  lemma ViewsEvolve(cfg: Config, w: World, ev: Event)
    requires Enabled(cfg, w, ev)
    requires !ev.Assign? && !ev.SweepUp? && !ev.Crash?
    ensures Evolved(w, Apply(cfg, w, ev))
  {
    if ev.Arrive? || ev.Enter? || ev.Serve? || ev.Started? || ev.Cancel? || ev.Stopped? {
      CommandEvolves(cfg, w, ev);
    } else {
      hide Expire, RuntimeCompleted, RecoverVisit, HandleRelease, HandleRenew, EvictBegin, Leavable, ViewsOf, CleanedUp,
           FinishReplay, HandleRead, Entering, Serving, StartReturned, CancelBegins, StopReturned, Arriving;
    }
  }

  lemma CommandEvolves(cfg: Config, w: World, ev: Event)
    requires Enabled(cfg, w, ev)
    requires ev.Arrive? || ev.Enter? || ev.Serve? || ev.Started? || ev.Cancel? || ev.Stopped?
    ensures Evolved(w, Apply(cfg, w, ev))
  {
    hide HandleRequest, BeginReplay, CancelBegin, CancelEnd, EvictEnd, AssignEnd, Freshness, Evicts, ViewsOf;
  }

  predicate OnePerOffer(s: State) {
    forall x, y | x in s.executions && y in s.executions && s.executions[x].offerId == s.executions[y].offerId :: x == y
  }

  /** `a` is the view of `x` that this section brought in. */
  predicate Brought(s: State, s': State, x: string, a: (string, View)) {
    && x in s.executions && x in s'.executions && a == (s'.executions[x].offerId, ViewOf(x, s'.executions[x]))
    && s'.executions[x].offerId == s.executions[x].offerId
    && s'.executions[x].revision == s.executions[x].revision + 1 && !Terminal(s.executions[x].phase)
  }

  lemma NewView(s: State, s': State, views: set<(string, View)>, a: (string, View)) returns (x: string)
    requires Shown(s, views) && RecordsKept(s, s') && a in ViewsOf(s') && a !in views
    ensures Brought(s, s', x, a)
  {
    x :| x in s'.executions && a == (s'.executions[x].offerId, ViewOf(x, s'.executions[x]));
    assert RecordStep(s.executions[x], s'.executions[x]);
    assert (s.executions[x].offerId, ViewOf(x, s.executions[x])) in views;
  }

  lemma GrownPair(s: State, s': State, views: set<(string, View)>, a: (string, View), b: (string, View))
    requires Coherent(views) && Shown(s, views) && Newest(s, views) && RecordsKept(s, s') && OnePerOffer(s)
    requires a in views + ViewsOf(s') && b in views + ViewsOf(s') && a.0 == b.0
    ensures a.1.revision == b.1.revision ==> a == b
    ensures Terminal(a.1.phase) ==> b.1.revision <= a.1.revision
  {
    hide RecordsKept, ViewsOf, Shown;
    if a !in views {
      var x := NewView(s, s', views, a);
      if b !in views { var y := NewView(s, s', views, b); }
    } else if b !in views {
      var y := NewView(s, s', views, b);
    }
  }

  lemma GrownCoherent(s: State, s': State, views: set<(string, View)>)
    requires Coherent(views) && Shown(s, views) && Newest(s, views) && RecordsKept(s, s') && OnePerOffer(s)
    ensures Coherent(views + ViewsOf(s'))
  {
    var all := views + ViewsOf(s');
    forall a, b | a in all && b in all && a.0 == b.0
      ensures a.1.revision == b.1.revision ==> a == b
      ensures Terminal(a.1.phase) ==> b.1.revision <= a.1.revision
    {
      GrownPair(s, s', views, a, b);
    }
  }

  lemma GrownNewest(s: State, s': State, views: set<(string, View)>)
    requires Shown(s, views) && Newest(s, views) && RecordsKept(s, s') && OnePerOffer(s)
    ensures Newest(s', views + ViewsOf(s'))
  {
    forall x, a | x in s'.executions && a in views + ViewsOf(s') && a.0 == s'.executions[x].offerId
      ensures a.1.revision <= s'.executions[x].revision && (Terminal(a.1.phase) ==> a.1 == ViewOf(x, s'.executions[x]))
    {
      assert RecordStep(s.executions[x], s'.executions[x]);
      if a !in views { var y := NewView(s, s', views, a); }
    }
  }

  lemma GrownGapless(s: State, s': State, views: set<(string, View)>)
    requires Gapless(s, views) && RecordsKept(s, s')
    ensures Gapless(s', views + ViewsOf(s'))
  {
    forall x, n | x in s'.executions && 1 <= n <= s'.executions[x].revision
      ensures Has(views + ViewsOf(s'), s'.executions[x].offerId, n)
    {
      assert RecordStep(s.executions[x], s'.executions[x]);
      if n <= s.executions[x].revision {
        assert Has(views, s.executions[x].offerId, n);
      } else {
        var a := (s'.executions[x].offerId, ViewOf(x, s'.executions[x]));
        assert a in ViewsOf(s');
      }
    }
  }

  lemma ShownViews(s: State, views: set<(string, View)>)
    ensures Shown(s, views + ViewsOf(s))
  {
  }

  lemma PairsUnique(cfg: Config, s: State)
    requires Inv(cfg, s)
    ensures OnePerOffer(s)
  {
    hide Inv;
    forall x, y | x in s.executions && y in s.executions && s.executions[x].offerId == s.executions[y].offerId ensures x == y {
      PairOf(cfg, s, x);
      PairOf(cfg, s, y);
    }
  }

  lemma LaunchedViews(cfg: Config, w: World, s': State)
    requires ViewsLaunched(w) && Shown(w.mem, w.views) && RecordsKept(w.mem, s')
    ensures forall a | a in w.views + ViewsOf(s') :: WasLaunched(w.launches, a.0)
  {
    forall a | a in ViewsOf(s') ensures WasLaunched(w.launches, a.0) {
      var x :| x in s'.executions && a == (s'.executions[x].offerId, ViewOf(x, s'.executions[x]));
      assert RecordStep(w.mem.executions[x], s'.executions[x]);
      assert (w.mem.executions[x].offerId, ViewOf(x, w.mem.executions[x])) in w.views;
    }
  }

  lemma DiskStays(w: World, w': World)
    requires DiskBehind(w) && RecordsKept(w.mem, w'.mem) && (w'.disk == w.disk || w'.disk == w'.mem)
    requires w.views <= w'.views && Shown(w'.mem, w'.views)
    ensures DiskBehind(w')
  {
    forall x | x in w'.mem.executions ensures RecordStep(w.mem.executions[x], w'.mem.executions[x]) {}
  }

  lemma KeptStep(cfg: Config, w: World, ev: Event)
    requires WorldInv(cfg, w) && ViewInv(w) && Enabled(cfg, w, ev) && !ev.Assign? && !ev.SweepUp? && !ev.Crash?
    ensures ViewInv(Apply(cfg, w, ev))
  {
    hide Apply, Enabled, Inv, Hist, LogSound, ThreadsSound, Coherent, Shown, Newest, Gapless, RecordsKept, ViewsOf, DiskBehind;
    var w' := Apply(cfg, w, ev);
    RecordsEvolve(cfg, w, ev);
    ViewsEvolve(cfg, w, ev);
    PairsUnique(cfg, w.mem);
    GrownCoherent(w.mem, w'.mem, w.views);
    GrownNewest(w.mem, w'.mem, w.views);
    GrownGapless(w.mem, w'.mem, w.views);
    ShownViews(w'.mem, w.views);
    LaunchedViews(cfg, w, w'.mem);
    DiskStays(w, w');
  }

  // ---------------------------------------------------------------- binding

  predicate Added(s: State, s': State, x: string, o: string) {
    && x !in s.executions && x in s'.executions && s'.executions == s.executions[x := s'.executions[x]]
    && s'.executions[x].offerId == o && s'.executions[x].revision == 1 && !Terminal(s'.executions[x].phase)
  }

  lemma AddedViews(s: State, s': State, views: set<(string, View)>, x: string, o: string)
    requires Shown(s, views) && Added(s, s', x, o)
    ensures views + ViewsOf(s') == views + {(o, ViewOf(x, s'.executions[x]))}
  {
    forall a | a in ViewsOf(s') ensures a in views + {(o, ViewOf(x, s'.executions[x]))} {
      var y :| y in s'.executions && a == (s'.executions[y].offerId, ViewOf(y, s'.executions[y]));
      if y != x { assert (s.executions[y].offerId, ViewOf(y, s.executions[y])) in views; }
    }
    assert (o, ViewOf(x, s'.executions[x])) in ViewsOf(s');
  }

  lemma AddedCoherent(views: set<(string, View)>, v: (string, View))
    requires Coherent(views) && (forall a | a in views :: a.0 != v.0)
    ensures Coherent(views + {v})
  {
  }

  lemma AddedGapless(s: State, s': State, views: set<(string, View)>, x: string, o: string)
    requires Gapless(s, views) && Added(s, s', x, o)
    ensures Gapless(s', views + {(o, ViewOf(x, s'.executions[x]))})
  {
    var v := (o, ViewOf(x, s'.executions[x]));
    forall y, n | y in s'.executions && 1 <= n <= s'.executions[y].revision ensures Has(views + {v}, s'.executions[y].offerId, n) {
      if y == x { assert v in views + {v}; } else { assert Has(views, s.executions[y].offerId, n); }
    }
  }

  lemma AddedNewest(s: State, s': State, views: set<(string, View)>, x: string, o: string)
    requires Newest(s, views) && Added(s, s', x, o)
    requires (forall a | a in views :: a.0 != o) && (forall y | y in s.executions :: s.executions[y].offerId != o)
    ensures Newest(s', views + {(o, ViewOf(x, s'.executions[x]))})
  {
  }

  lemma AddedKeeps(s: State, s': State, views: set<(string, View)>, x: string, o: string)
    requires Coherent(views) && Shown(s, views) && Newest(s, views) && Gapless(s, views) && Added(s, s', x, o)
    requires (forall a | a in views :: a.0 != o) && (forall y | y in s.executions :: s.executions[y].offerId != o)
    ensures var all := views + ViewsOf(s'); Coherent(all) && Shown(s', all) && Newest(s', all) && Gapless(s', all)
  {
    hide ViewsOf, Coherent, Shown, Newest, Gapless;
    AddedViews(s, s', views, x, o);
    AddedCoherent(views, (o, ViewOf(x, s'.executions[x])));
    AddedGapless(s, s', views, x, o);
    AddedNewest(s, s', views, x, o);
    ShownViews(s', views);
  }

  lemma BindsAnew(cfg: Config, w: World, t: nat, now: Time, placed: bool, saved: bool)
    requires WorldInv(cfg, w) && ViewInv(w) && Handling(w, t) && w.threads[t].env.payload.ExecutionAssign?
    requires Assigning(cfg, w, t, now, placed, saved).launches != w.launches
    ensures var p, w' := w.threads[t].env.payload, Assigning(cfg, w, t, now, placed, saved);
      && Added(w.mem, w'.mem, p.executionId, p.offerId) && w'.disk == w'.mem && w'.views == w.views + ViewsOf(w'.mem)
      && (forall a | a in w.views :: a.0 != p.offerId) && WasLaunched(w'.launches, p.offerId)
      && (forall y | y in w.mem.executions :: w.mem.executions[y].offerId != p.offerId)
      && w'.launches == w.launches + [w'.launches[|w.launches|]]
  {
    hide Inv, Expire, AssignBegin, ViewsOf, Coherent, Shown, Newest, Gapless, DiskBehind, RetiredKept, IdsIssued, ThreadsSound;
    var e, p, w' := w.threads[t].env, w.threads[t].env.payload, Assigning(cfg, w, t, now, placed, saved);
    AssignOutcome(cfg, w.mem, e, p.requestId, p.offerId, p.executionId, now, placed, saved);
    ExpireFrame(w.mem, now);
    var (s, a) := AssignBegin(cfg, w.mem, e, p.requestId, p.offerId, p.executionId, now, placed, saved);
    assert a.Launch?;
    OutstandingBefore(w.mem, now, p.offerId);
    assert w'.launches[|w.launches|].offerId == p.offerId;
    assert LaunchesKept(w.mem, w.launches) && p.offerId in w.mem.offers && w.mem.offers[p.offerId].status == Outstanding;
    assert !WasLaunched(w.launches, p.offerId);
    forall y | y in w.mem.executions ensures w.mem.executions[y].offerId != p.offerId { PairOf(cfg, w.mem, y); }
  }

  lemma OutstandingBefore(s: State, now: Time, o: string)
    ensures o in Expire(s, now).offers && Expire(s, now).offers[o].status == Outstanding ==> o in s.offers && s.offers[o].status == Outstanding
  {
  }

  lemma AssignViews(cfg: Config, w: World, t: nat, now: Time, placed: bool, saved: bool)
    requires WorldInv(cfg, w) && ViewInv(w) && Handling(w, t) && w.threads[t].env.payload.ExecutionAssign?
    ensures ViewInv(Assigning(cfg, w, t, now, placed, saved))
  {
    hide WorldInv, Coherent, Shown, Newest, Gapless, ViewsOf, Assigning, DiskBehind, RecordsKept;
    var p, w' := w.threads[t].env.payload, Assigning(cfg, w, t, now, placed, saved);
    if w'.launches != w.launches {
      BindsAnew(cfg, w, t, now, placed, saved);
      AddedKeeps(w.mem, w'.mem, w.views, p.executionId, p.offerId);
      AddedLaunched(w, w', p.executionId, p.offerId);
      DiskIsMem(w');
    } else {
      AssignSettled(cfg, w, t, now, placed, saved);
      InvOf(cfg, w);
      PairsUnique(cfg, w.mem);
      GrownCoherent(w.mem, w'.mem, w.views);
      GrownNewest(w.mem, w'.mem, w.views);
      GrownGapless(w.mem, w'.mem, w.views);
      ShownViews(w'.mem, w.views);
      LaunchedViews(cfg, w, w'.mem);
      DiskStays(w, w');
    }
  }

  lemma DiskIsMem(w: World)
    requires w.disk == w.mem && Shown(w.mem, w.views)
    ensures DiskBehind(w)
  {
  }

  lemma AddedLaunched(w: World, w': World, x: string, o: string)
    requires ViewsLaunched(w) && Shown(w.mem, w.views) && Added(w.mem, w'.mem, x, o) && w'.views == w.views + ViewsOf(w'.mem)
    requires WasLaunched(w'.launches, o) && |w'.launches| == |w.launches| + 1 && w.launches == w'.launches[..|w.launches|]
    ensures ViewsLaunched(w')
  {
    AddedViews(w.mem, w'.mem, w.views, x, o);
    hide ViewsOf, Added;
    forall a | a in w'.views ensures WasLaunched(w'.launches, a.0) {
      if a in w.views {
        var i :| 0 <= i < |w.launches| && w.launches[i].offerId == a.0;
        assert w'.launches[i].offerId == a.0;
      }
    }
  }

  lemma AssignSettled(cfg: Config, w: World, t: nat, now: Time, placed: bool, saved: bool)
    requires Handling(w, t) && w.threads[t].env.payload.ExecutionAssign?
    requires Assigning(cfg, w, t, now, placed, saved).launches == w.launches
    ensures var w' := Assigning(cfg, w, t, now, placed, saved);
      && RecordsKept(w.mem, w'.mem) && (w'.disk == w.disk || w'.disk == w'.mem) && w'.views == w.views + ViewsOf(w'.mem)
  {
    hide Expire, AssignBegin, ViewsOf, RecordStep;
    var e, p := w.threads[t].env, w.threads[t].env.payload;
    AssignOutcome(cfg, w.mem, e, p.requestId, p.offerId, p.executionId, now, placed, saved);
    ExpireQuiet(w.mem, now);
    assert |w.launches + [Launched(p.offerId, p.executionId, e.sender, p.requestId)]| != |w.launches|;
  }

  // ------------------------------------------------------------ sweep and crash

  lemma FewerViews(s: State, s': State, views: set<(string, View)>)
    requires Shown(s, views) && Newest(s, views) && Gapless(s, views)
    requires forall x | x in s'.executions :: x in s.executions && s'.executions[x] == s.executions[x]
    ensures views + ViewsOf(s') == views && Shown(s', views) && Newest(s', views) && Gapless(s', views)
  {
    forall a | a in ViewsOf(s') ensures a in views {
      var y :| y in s'.executions && a == (s'.executions[y].offerId, ViewOf(y, s'.executions[y]));
      assert (s.executions[y].offerId, ViewOf(y, s.executions[y])) in views;
    }
  }

  lemma SweepViews(cfg: Config, w: World, now: Time, saved: bool)
    requires ViewInv(w)
    ensures ViewInv(Sweeping(cfg, w, now, saved))
  {
    hide Shown, Newest, Gapless, Coherent, SweepReady, Sweep, ViewsOf, DiskBehind, CollectableIds;
    if saved {
      var w' := Sweeping(cfg, w, now, true);
      SweepRecords(cfg, w.mem, now);
      FewerViews(w.mem, w'.mem, w.views);
      DiskIsMem(w');
    }
  }

  lemma SweepRecords(cfg: Config, s: State, now: Time)
    ensures var s' := Sweep(cfg, s, now);
      forall x | x in s'.executions :: x in s.executions && s'.executions[x] == s.executions[x]
  {
    SweepFrame(cfg, s, now);
    ExpireFrame(Advance(s, now), Max(s.highWater, now));
    hide Sweep, Expire, CollectableIds;
  }

  /** A crash that finds on disk what memory showed keeps every view where it was. */
  lemma CrashViews(cfg: Config, w: World, now: Time)
    requires WorldInv(cfg, w) && ViewInv(w) && Synced(w)
    ensures ViewInv(Restarting(cfg, w, now))
  {
    hide Inv, Hist, LogSound, ThreadsSound, Reload, Shown, Newest, Gapless, Coherent, ViewsOf;
    var w' := Restarting(cfg, w, now);
    ShapesOf(cfg, w.disk);
    ReloadKeepsExecutions(cfg, w.disk, now);
    SyncedViews(w.mem, w'.mem, w.views);
  }

  lemma SyncedViews(s: State, s': State, views: set<(string, View)>)
    requires Shown(s, views) && Newest(s, views) && Gapless(s, views)
    requires s'.executions.Keys == s.executions.Keys
    requires forall x | x in s.executions ::
      s'.executions[x].offerId == s.executions[x].offerId && ViewOf(x, s'.executions[x]) == ViewOf(x, s.executions[x])
    ensures views + ViewsOf(s') == views && Shown(s', views) && Newest(s', views) && Gapless(s', views)
  {
    forall x | x in s.executions ensures s'.executions[x].revision == s.executions[x].revision {
      assert ViewOf(x, s'.executions[x]).revision == ViewOf(x, s.executions[x]).revision;
    }
    forall a | a in ViewsOf(s') ensures a in views {
      var y :| y in s'.executions && a == (s'.executions[y].offerId, ViewOf(y, s'.executions[y]));
      assert (s.executions[y].offerId, ViewOf(y, s.executions[y])) in views;
    }
  }

  // ---------------------------------------------------------------- theorems

  lemma ViewStep(cfg: Config, w: World, ev: Event)
    requires WorldInv(cfg, w) && ViewInv(w) && Enabled(cfg, w, ev) && (ev.Crash? ==> Synced(w))
    ensures ViewInv(Apply(cfg, w, ev))
  {
    hide WorldInv, ViewInv, Synced, Assigning, Sweeping, Restarting;
    match ev
    case Assign(t, now, placed, saved) => AssignViews(cfg, w, t, now, placed, saved);
    case SweepUp(now, saved) => SweepViews(cfg, w, now, saved);
    case Crash(now) => CrashViews(cfg, w, now);
    case _ => KeptStep(cfg, w, ev);
  }

  /** Every crash of the run finds the disk showing what memory shows. */
  ghost predicate CrashesSynced(worlds: seq<World>, events: seq<Event>) {
    |worlds| == |events| + 1 && forall i | 0 <= i < |events| && events[i].Crash? :: Synced(worlds[i])
  }

  lemma StartViews()
    ensures ViewInv(START)
  {
  }

  lemma {:induction false} RunViews(cfg: Config, worlds: seq<World>, events: seq<Event>, n: nat)
    requires ValidConfig(cfg) && Run(cfg, worlds, events) && CrashesSynced(worlds, events) && n < |worlds|
    ensures ViewInv(worlds[n])
  {
    hide ViewInv, WorldInv, Apply, Enabled, Synced;
    if n == 0 {
      StartViews();
    } else {
      RunViews(cfg, worlds, events, n - 1);
      RunInv(cfg, worlds, events, n - 1);
      ViewStep(cfg, worlds[n - 1], events[n - 1]);
    }
  }

  /** For every run whose crashes find disk and memory in step: one state per revision, and nothing after a
      terminal state. */
  lemma ViewsCohere(cfg: Config, worlds: seq<World>, events: seq<Event>, n: nat)
    requires ValidConfig(cfg) && Run(cfg, worlds, events) && CrashesSynced(worlds, events) && n < |worlds|
    ensures Coherent(worlds[n].views) && Shown(worlds[n].mem, worlds[n].views)
  {
    hide Run, CrashesSynced;
    RunViews(cfg, worlds, events, n);
  }

  predicate Saved(ev: Event) {
    match ev
    case Serve(_, _, renv) => renv.saved
    case Arrive(_, _, _) => true
    case Read(_, _) => true
    case Swept => true
    case Crash(_) => true
    case _ => ev.saved
  }

  predicate InStep(w: World, w': World) {
    w'.disk == w'.mem || (w'.disk == w.disk && w'.mem.executions == w.mem.executions)
  }

  lemma SavedOrSame(cfg: Config, w: World, ev: Event)
    requires Enabled(cfg, w, ev) && Saved(ev) && !ev.Crash?
    ensures InStep(w, Apply(cfg, w, ev))
  {
    if ev.Arrive? || ev.Enter? || ev.Serve? || ev.Assign? || ev.Started? || ev.Cancel? || ev.Stopped? {
      CommandSaved(cfg, w, ev);
    } else {
      hide Expire, RuntimeCompleted, RecoverVisit, HandleRelease, HandleRenew, EvictBegin, Leavable, ViewsOf, FinishReplay,
           HandleRead, Sweep, SweepReady, Entering, Serving, StartReturned, CancelBegins, StopReturned, Arriving, Assigning;
    }
  }

  lemma CommandSaved(cfg: Config, w: World, ev: Event)
    requires Enabled(cfg, w, ev) && Saved(ev)
    requires ev.Arrive? || ev.Enter? || ev.Serve? || ev.Assign? || ev.Started? || ev.Cancel? || ev.Stopped?
    ensures InStep(w, Apply(cfg, w, ev))
  {
    hide HandleRequest, BeginReplay, CancelBegin, CancelEnd, EvictEnd, AssignEnd, AssignBegin, Freshness, Evicts, ViewsOf;
    if ev.Enter? { BeginRecords(cfg, w.mem, w.threads[ev.t].env, ev.now, ev.victims, ev.saved); }
  }

  lemma BeginRecords(cfg: Config, s: State, e: Envelope, now: Time, victims: set<ReplayKey>, saved: bool)
    ensures BeginReplay(cfg, s, e, now, victims, saved).0.executions == s.executions
  {
    hide Expire, Prune;
    ExpireFrame(s, now);
  }

  /** As long as no save fails, disk and memory stay in step, crashes included. */
  lemma SavesKeepSync(cfg: Config, w: World, ev: Event)
    requires WorldInv(cfg, w) && Synced(w) && Enabled(cfg, w, ev) && Saved(ev)
    ensures Synced(Apply(cfg, w, ev))
  {
    hide WorldInv, Enabled, Saved, Restarting;
    if ev.Crash? {
      RestartShows(cfg, w, ev.now);
    } else {
      hide Apply;
      SavedOrSame(cfg, w, ev);
    }
  }

  lemma RestartShows(cfg: Config, w: World, now: Time)
    requires WorldInv(cfg, w)
    ensures var w' := Restarting(cfg, w, now);
      w'.mem.executions == w.disk.executions && w'.disk == w.disk && w.views <= w'.views && Shaped(w.disk.executions)
  {
    hide Inv, Hist, LogSound, ThreadsSound, Reload, Shaped;
    ShapesOf(cfg, w.disk);
    ReloadKeepsExecutions(cfg, w.disk, now);
  }

  lemma StartSynced()
    ensures Synced(START)
  {
  }

  lemma {:induction false} AllSavedSynced(cfg: Config, worlds: seq<World>, events: seq<Event>, n: nat)
    requires ValidConfig(cfg) && Run(cfg, worlds, events) && n < |worlds| && forall i | 0 <= i < |events| :: Saved(events[i])
    ensures Synced(worlds[n])
  {
    hide WorldInv, Apply, Enabled, Saved, Synced;
    if n == 0 {
      StartSynced();
    } else {
      AllSavedSynced(cfg, worlds, events, n - 1);
      RunInv(cfg, worlds, events, n - 1);
      SavesKeepSync(cfg, worlds[n - 1], events[n - 1]);
    }
  }

  /** A run in which every save succeeds shows coherent views across any number of restarts. */
  lemma SavedRunsCohere(cfg: Config, worlds: seq<World>, events: seq<Event>, n: nat)
    requires ValidConfig(cfg) && Run(cfg, worlds, events) && n < |worlds| && forall i | 0 <= i < |events| :: Saved(events[i])
    ensures Coherent(worlds[n].views)
  {
    hide Apply, Enabled, Saved, Synced, Coherent;
    forall i | 0 <= i < |events| && events[i].Crash? ensures Synced(worlds[i]) { AllSavedSynced(cfg, worlds, events, i); }
    ViewsCohere(cfg, worlds, events, n);
  }

  /** The world after `Complete(c, now, true)`. */
  function Completing(cfg: Config, w: World, c: Completion, now: Time): World {
    Commit(w, RuntimeCompleted(cfg, w.mem, c, now, true).0, true)
  }

  /** From any state whose disk shows an older view, a crash and one completion show two different states under
      one revision. */
  lemma OutOfSyncConflicts(cfg: Config, w: World, now: Time)
    requires ValidConfig(cfg) && WorldInv(cfg, w) && ViewInv(w) && !Synced(w) && now > UNSET
    ensures exists c :: !Coherent(Completing(cfg, Restarting(cfg, w, now), c, now).views)
  {
    hide WorldInv, ViewInv, Restarting, Completing, Coherent, Shaped;
    SameKeys(w);
    var x :| x in w.mem.executions && ViewOf(x, w.disk.executions[x]) != ViewOf(x, w.mem.executions[x]);
    BehindIsLive(w, x);
    var r, o := w.disk.executions[x], w.mem.executions[x].offerId;
    var v :| v in w.views && v.0 == o && v.1.revision == r.revision + 1;
    RestartShows(cfg, w, now);
    ShapeOf(w.disk.executions, x);
    var c := Completion(x, v.1.detail + "!", None, None);
    var w1 := Restarting(cfg, w, now);
    var w2 := Completing(cfg, w1, c, now);
    CompletedView(cfg, w1, c, now, r);
    assert v in w2.views;
    Clash(w2.views, v, o, x, r.revision + 1, c.detail);
  }

  /** The run continued by a crash and one completion. */
  ghost function Continued(cfg: Config, worlds: seq<World>, now: Time, c: Completion): seq<World>
    requires worlds != []
  {
    var w1 := Restarting(cfg, worlds[|worlds| - 1], now);
    worlds + [w1, Completing(cfg, w1, c, now)]
  }

  lemma ContinuedRun(cfg: Config, worlds: seq<World>, events: seq<Event>, now: Time, c: Completion)
    requires Run(cfg, worlds, events) && now > UNSET
    ensures Run(cfg, Continued(cfg, worlds, now, c), events + [Crash(now), Complete(c, now, true)])
  {
    hide Enabled, Apply, Restarting, Completing;
    var n, more := |events|, events + [Crash(now), Complete(c, now, true)];
    var all := Continued(cfg, worlds, now, c);
    ContinuedSteps(cfg, worlds[n], now, c);
    forall i | 0 <= i < |more| ensures Enabled(cfg, all[i], more[i]) && all[i + 1] == Apply(cfg, all[i], more[i]) {
      if i < n { assert all[i] == worlds[i] && all[i + 1] == worlds[i + 1] && more[i] == events[i]; }
    }
  }

  lemma ContinuedSteps(cfg: Config, w: World, now: Time, c: Completion)
    requires now > UNSET
    ensures Enabled(cfg, w, Crash(now)) && Restarting(cfg, w, now) == Apply(cfg, w, Crash(now))
    ensures var w1 := Restarting(cfg, w, now);
      Enabled(cfg, w1, Complete(c, now, true)) && Completing(cfg, w1, c, now) == Apply(cfg, w1, Complete(c, now, true))
  {
    hide Restarting, RuntimeCompleted, Commit;
  }

  /** Over every run so far coherent: a crash now is harmless to what clients see, whatever completion follows,
      exactly when the disk shows what memory shows; if not, some longer run shows two states under one revision. */
  lemma CrashSafeExactly(cfg: Config, worlds: seq<World>, events: seq<Event>, now: Time)
    requires ValidConfig(cfg) && Run(cfg, worlds, events) && CrashesSynced(worlds, events) && now > UNSET
    ensures Synced(worlds[|events|]) <==> forall c :: Coherent(Continued(cfg, worlds, now, c)[|events| + 2].views)
    ensures forall c :: Run(cfg, Continued(cfg, worlds, now, c), events + [Crash(now), Complete(c, now, true)])
  {
    hide ViewInv, WorldInv, Run, Synced, Coherent, Restarting, Completing;
    var n := |events|;
    forall c ensures Run(cfg, Continued(cfg, worlds, now, c), events + [Crash(now), Complete(c, now, true)]) {
      ContinuedRun(cfg, worlds, events, now, c);
    }
    if Synced(worlds[n]) {
      forall c ensures Coherent(Continued(cfg, worlds, now, c)[n + 2].views) {
        SyncedStays(cfg, worlds, events, now, c);
        ViewsCohere(cfg, Continued(cfg, worlds, now, c), events + [Crash(now), Complete(c, now, true)], n + 2);
      }
    } else {
      RunViews(cfg, worlds, events, n);
      RunInv(cfg, worlds, events, n);
      OutOfSyncConflicts(cfg, worlds[n], now);
      var c :| !Coherent(Completing(cfg, Restarting(cfg, worlds[n], now), c, now).views);
      assert !Coherent(Continued(cfg, worlds, now, c)[n + 2].views);
    }
  }

  lemma SyncedStays(cfg: Config, worlds: seq<World>, events: seq<Event>, now: Time, c: Completion)
    requires |worlds| == |events| + 1 && CrashesSynced(worlds, events) && Synced(worlds[|events|])
    ensures CrashesSynced(Continued(cfg, worlds, now, c), events + [Crash(now), Complete(c, now, true)])
  {
    hide Synced, Restarting, Completing;
    var n, more, all := |events|, events + [Crash(now), Complete(c, now, true)], Continued(cfg, worlds, now, c);
    forall i | 0 <= i < |more| && more[i].Crash? ensures Synced(all[i]) {
      if i < n { assert all[i] == worlds[i] && more[i] == events[i]; } else { assert i == n && all[n] == worlds[n]; }
    }
  }

  lemma Clash(views: set<(string, View)>, v: (string, View), o: string, x: string, n: nat, detail: string)
    requires v in views && v.0 == o && v.1.revision == n && v.1.detail != detail
    requires exists a | a in views :: a.0 == o && a.1.revision == n && a.1.detail == detail
    ensures !Coherent(views)
  {
  }

  lemma CompletedView(cfg: Config, w: World, c: Completion, now: Time, r: Execution)
    requires c.executionId != "" && c.executionId in w.mem.executions && w.mem.executions[c.executionId] == r
    requires !Terminal(r.phase) && c.failure.None? && now > UNSET
    ensures var w' := Completing(cfg, w, c, now);
      && w.views <= w'.views
      && exists a | a in w'.views :: a.0 == r.offerId && a.1.revision == r.revision + 1 && a.1.detail == c.detail
  {
    var w' := Completing(cfg, w, c, now);
    var r' := w'.mem.executions[c.executionId];
    assert (r'.offerId, ViewOf(c.executionId, r')) in ViewsOf(w'.mem);
  }

  lemma SameKeys(w: World)
    requires ViewInv(w)
    ensures w.disk.executions.Keys == w.mem.executions.Keys
    ensures forall x | x in w.mem.executions :: w.disk.executions[x].offerId == w.mem.executions[x].offerId
  {
    hide Coherent, Shown, Newest, Gapless;
  }

  lemma BehindIsLive(w: World, x: string)
    requires ViewInv(w) && x in w.mem.executions && ViewOf(x, w.disk.executions[x]) != ViewOf(x, w.mem.executions[x])
    ensures !Terminal(w.disk.executions[x].phase)
    ensures Has(w.views, w.mem.executions[x].offerId, w.disk.executions[x].revision + 1)
  {
    var r, m := w.disk.executions[x], w.mem.executions[x];
    var a, b := (r.offerId, ViewOf(x, r)), (m.offerId, ViewOf(x, m));
    assert a in w.views && b in w.views && SameWork(m, r);
  }
}
