/** Whose command may change what, over every run; and what a launch promises
    the client that asked for it. */
module OwnerLaws {
  import opened Protocol
  import opened AllocatorState
  import opened AllocatorInvariant
  import opened AllocatorRuns
  import opened WorldInvariant
  import opened WorldSteps
  import opened CommandLaws
  import LifeLaws
  import RecordFates
  import ToldViews

  // ------------------------------------------------------------------- work under way

  /** Work a command started or is stopping is its own sender's. */
  predicate OwnInv(w: World) {
    forall t | t in w.threads :: ToldViews.OwnWork(w.mem, w.threads[t])
  }

  lemma BeginsOwn(cfg: Config, w: World, ev: Event)
    requires WorldInv(cfg, w) && Enabled(cfg, w, ev) && (ev.Assign? || ev.Cancel?)
    ensures var w' := Apply(cfg, w, ev); ev.t in w'.threads && ToldViews.OwnWork(w'.mem, w'.threads[ev.t])
  {
    hide WorldInv, Apply, OnlyTime, AgedBut;
    if ev.Assign? {
      AssignLaw(cfg, w, ev);
    } else {
      CancelLaw(cfg, w, ev);
    }
  }

  /** A thread that answers has no work under way. */
  lemma AnswersNothing(cfg: Config, w: World, ev: Event)
    requires WorldInv(cfg, w) && Enabled(cfg, w, ev) && ToldViews.Acts(ev) && !ev.Assign? && !ev.Cancel?
    ensures var w' := Apply(cfg, w, ev); ev.t in w'.threads ==> w'.threads[ev.t].Replying?
  {
    hide WorldInv, Apply, RequestRule, OnlyRecord;
    match ev
    case Serve(_, _, _) => RequestLaw(cfg, w, ev);
    case Started(_, _, _, _) => StartedLaw(cfg, w, ev);
    case Stopped(_, _, _, _) => StoppedLaw(cfg, w, ev);
    case Release(_, _, _) => ReleaseLaw(cfg, w, ev);
    case Renew(_, _, _) => RenewLaw(cfg, w, ev);
    case Read(_, _) => ReadLaw(cfg, w, ev);
  }

  lemma KeepsOwn(cfg: Config, w: World, w': World, t: nat, added: bool)
    requires t in w.threads && t in w'.threads && w'.threads[t] == w.threads[t] && WorldInv(cfg, w')
    requires ToldViews.WorkStays(w.mem, w'.mem, added) && ToldViews.OwnWork(w.mem, w.threads[t])
    ensures ToldViews.OwnWork(w'.mem, w'.threads[t])
  {
    hide WorldInv;
    ThreadAt(cfg, w', t);
  }

  lemma OwnStep(cfg: Config, w: World, ev: Event)
    requires ValidConfig(cfg) && WorldInv(cfg, w) && OwnInv(w) && Enabled(cfg, w, ev)
    ensures OwnInv(Apply(cfg, w, ev))
  {
    hide WorldInv, Enabled, ToldViews.WorkStays, ToldViews.OnlyThread, ToldViews.Silent, Restarting;
    var w' := Apply(cfg, w, ev);
    if !ev.Crash? {
      hide Apply;
      Step(cfg, w, ev);
      ToldViews.WorkKept(cfg, w, ev);
      if ToldViews.Acts(ev) {
        ToldViews.ActsAlone(cfg, w, ev);
        if ev.Assign? || ev.Cancel? { BeginsOwn(cfg, w, ev); } else { AnswersNothing(cfg, w, ev); }
      } else {
        ToldViews.OthersSilent(cfg, w, ev);
      }
      forall t | t in w'.threads ensures ToldViews.OwnWork(w'.mem, w'.threads[t]) { ThreadOwn(cfg, w, w', ev, t); }
    } else {
      Restarts(cfg, w, ev);
    }
  }

  lemma Restarts(cfg: Config, w: World, ev: Event)
    requires Enabled(cfg, w, ev) && ev.Crash?
    ensures Apply(cfg, w, ev).threads == map[]
  {
    hide Reload, ViewsOf;
  }

  lemma ThreadOwn(cfg: Config, w: World, w': World, ev: Event, t: nat)
    requires OwnInv(w) && WorldInv(cfg, w') && t in w'.threads && ToldViews.WorkStays(w.mem, w'.mem, ev.Assign?)
    requires if ToldViews.Acts(ev) then ToldViews.OnlyThread(w, w', ev.t) && (ev.t in w'.threads ==> ToldViews.OwnWork(w'.mem, w'.threads[ev.t]))
             else ToldViews.Silent(w, w')
    ensures ToldViews.OwnWork(w'.mem, w'.threads[t])
  {
    hide WorldInv, ToldViews.WorkStays;
    if t in w.threads && w'.threads[t] == w.threads[t] {
      assert ToldViews.OwnWork(w.mem, w.threads[t]);
      KeepsOwn(cfg, w, w', t, ev.Assign?);
    }
  }

  lemma {:induction false} RunOwn(cfg: Config, worlds: seq<World>, events: seq<Event>, n: nat)
    requires ValidConfig(cfg) && Run(cfg, worlds, events) && n < |worlds|
    ensures OwnInv(worlds[n])
  {
    hide WorldInv, Enabled, Apply, OwnInv;
    if n == 0 {
      StartsOwn();
    } else {
      RunOwn(cfg, worlds, events, n - 1);
      RunInv(cfg, worlds, events, n - 1);
      OwnStep(cfg, worlds[n - 1], events[n - 1]);
      assert worlds[n - 1 + 1] == Apply(cfg, worlds[n - 1], events[n - 1]);
    }
  }

  lemma StartsOwn()
    ensures OwnInv(START)
  {
  }

  // ---------------------------------------------------------------------- owners only

  /** A section of a client's command. */
  predicate Commanding(w: World, ev: Event) {
    ToldViews.Acts(ev) && ev.t in w.threads && !w.threads[ev.t].Evicting?
  }

  /** What belongs to somebody else stays, but that an offer may expire. */
  predicate OthersKept(s: State, t: State, sender: Identity) {
    && (forall id | id in s.offers && s.offers[id].client != sender ::
          id in t.offers && (t.offers[id] == s.offers[id] || t.offers[id] == s.offers[id].(status := OfferStatus.Expired)))
    && (forall x | x in s.executions && s.executions[x].client != sender :: x in t.executions && t.executions[x] == s.executions[x])
    && (forall k | k in s.requests && k.0 != sender :: k in t.requests && t.requests[k] == s.requests[k])
    && t.tombstones == s.tombstones && t.replay == s.replay && t.highWater == s.highWater
  }

  lemma AgedKept(s: State, t: State, now: Time, sender: Identity, touched: set<string>)
    requires AgedBut(s.offers, t.offers, now, touched) && forall id | id in touched && id in s.offers :: s.offers[id].client == sender
    ensures forall id | id in s.offers && s.offers[id].client != sender ::
      id in t.offers && (t.offers[id] == s.offers[id] || t.offers[id] == s.offers[id].(status := OfferStatus.Expired))
  {
  }

  lemma TimeKeeps(s: State, t: State, now: Time, sender: Identity)
    requires OnlyTime(s, t, now)
    ensures OthersKept(s, t, sender)
  {
    AgedKept(s, t, now, sender, {});
  }

  lemma RequestKeepsOthers(cfg: Config, s: State, t: State, reply: Reply, client: Identity, q: Request, now: Time, renv: RequestEnv)
    requires RequestRule(cfg, s, t, reply, client, q, now, renv)
    ensures OthersKept(s, t, client)
  {
    hide AgedBut, Standing, HasSlot, Buried, OpenOffers;
    if OnlyTime(s, t, now) {
      TimeKeeps(s, t, now, client);
    } else {
      AgedKept(s, t, now, client, {renv.newId});
    }
  }

  lemma LaunchKeepsOthers(s: State, t: State, o: string, x: string, now: Time, leaseUntil: Time)
    requires Launches(s, t, o, x, now, leaseUntil)
    ensures OthersKept(s, t, s.offers[o].client)
  {
    AgedKept(s, t, now, s.offers[o].client, {o});
  }

  lemma RecordKeepsOthers(s: State, t: State, x: string, sender: Identity)
    requires OnlyRecord(s, t, x) && x in s.executions && s.executions[x].client == sender
    ensures OthersKept(s, t, sender)
  {
  }

  lemma SameKeepsOthers(s: State, sender: Identity)
    ensures OthersKept(s, s, sender)
  {
  }

  lemma OpensKeepOthers(cfg: Config, w: World, ev: Event)
    requires WorldInv(cfg, w) && Enabled(cfg, w, ev) && (ev.Serve? || ev.Assign?)
    ensures OthersKept(w.mem, Apply(cfg, w, ev).mem, w.threads[ev.t].env.sender)
  {
    hide WorldInv, Apply, OthersKept, OnlyTime, RequestRule, Launches, HasSlot;
    var e, t := w.threads[ev.t].env, Apply(cfg, w, ev).mem;
    if ev.Serve? {
      RequestLaw(cfg, w, ev);
      RequestKeepsOthers(cfg, w.mem, t, Apply(cfg, w, ev).threads[ev.t].reply, e.sender, e.payload.request, ev.now, ev.renv);
    } else {
      AssignLaw(cfg, w, ev);
      if WhyNoLaunch(cfg, w.mem, e, e.payload, ev.now, ev.placed, ev.saved).Some? {
        TimeKeeps(w.mem, t, ev.now, e.sender);
      } else {
        LaunchKeepsOthers(w.mem, t, e.payload.offerId, e.payload.executionId, ev.now, ev.now + cfg.leaseTTL);
      }
    }
  }

  lemma ReturnsKeepOthers(cfg: Config, w: World, ev: Event)
    requires WorldInv(cfg, w) && OwnInv(w) && Enabled(cfg, w, ev) && (ev.Started? || ev.Stopped?) && !w.threads[ev.t].Evicting?
    ensures OthersKept(w.mem, Apply(cfg, w, ev).mem, w.threads[ev.t].env.sender)
  {
    hide WorldInv, Apply, OthersKept, OnlyRecord, AfterStart, AfterHalt;
    var th := w.threads[ev.t];
    assert ToldViews.OwnWork(w.mem, th);
    if ev.Started? { StartedLaw(cfg, w, ev); } else { StoppedLaw(cfg, w, ev); }
    RecordKeepsOthers(w.mem, Apply(cfg, w, ev).mem, th.x, th.env.sender);
  }

  lemma RestKeepOthers(cfg: Config, w: World, ev: Event)
    requires Enabled(cfg, w, ev) && (ev.Cancel? || ev.Release? || ev.Renew? || ev.Read?)
    ensures OthersKept(w.mem, Apply(cfg, w, ev).mem, w.threads[ev.t].env.sender)
  {
    hide Apply, OnlyRecord, Changed, ReleaseAnswer;
    var e, t := w.threads[ev.t].env, Apply(cfg, w, ev).mem;
    SameKeepsOthers(w.mem, e.sender);
    match ev
    case Cancel(_, _, _) =>
      CancelLaw(cfg, w, ev);
      if t != w.mem { RecordKeepsOthers(w.mem, t, e.payload.executionId, e.sender); }
    case Release(_, _, _) => ReleaseLaw(cfg, w, ev);
    case Renew(_, _, _) => RenewLaw(cfg, w, ev);
    case Read(_, _) => ReadLaw(cfg, w, ev);
  }

  /** Over every run: whatever command a client sends, in each of its sections it changes offers, executions and index
      entries of its own only; of anybody else's the most that happens is that an offer expires. */
  lemma OwnersOnly(cfg: Config, worlds: seq<World>, events: seq<Event>, n: nat)
    requires ValidConfig(cfg) && Run(cfg, worlds, events) && n < |events| && Commanding(worlds[n], events[n])
    ensures OthersKept(worlds[n].mem, worlds[n + 1].mem, worlds[n].threads[events[n].t].env.sender)
  {
    hide WorldInv, Enabled, Apply, OthersKept, OwnInv;
    var w, ev := worlds[n], events[n];
    assert Enabled(cfg, w, ev) && worlds[n + 1] == Apply(cfg, w, ev);
    RunInv(cfg, worlds, events, n);
    RunOwn(cfg, worlds, events, n);
    hide Run;
    if ev.Serve? || ev.Assign? {
      OpensKeepOthers(cfg, w, ev);
    } else if ev.Started? || ev.Stopped? {
      ReturnsKeepOthers(cfg, w, ev);
    } else {
      RestKeepOthers(cfg, w, ev);
    }
  }

  // ---------------------------------------------------------------------- the first lease

  /** The record a launch leaves: the offer's own work, starting, under its first lease. */
  predicate FirstRecord(w: World, ev: Event, w': World, x: string, leaseUntil: Time)
    requires ev.Assign?
  {
    && ev.t in w.threads && w.threads[ev.t].Begun? && w.threads[ev.t].env.payload.ExecutionAssign?
    && var p := w.threads[ev.t].env.payload;
    && p.executionId == x && p.offerId in w.mem.offers && x in w'.mem.executions && x in w'.disk.executions
    && var o, r := w.mem.offers[p.offerId], w'.mem.executions[x];
    && w'.disk.executions[x] == r && r.offerId == p.offerId && r.client == o.client == w.threads[ev.t].env.sender
    && r.resourceClass == o.resourceClass && r.request == o.request && r.request.requestId == p.requestId
    && r.phase == Phase.Starting && r.revision == 1 && r.detail == "" && r.exitCode == None
    && r.occurredAt == ev.now && r.startedAt == ev.now && !r.released && r.leaseUntil == leaseUntil
  }

  lemma LaunchedAs(cfg: Config, w: World, ev: Event)
    requires WorldInv(cfg, w) && Enabled(cfg, w, ev) && ev.Assign? && Apply(cfg, w, ev).launches != w.launches
    ensures FirstRecord(w, ev, Apply(cfg, w, ev), w.threads[ev.t].env.payload.executionId, ev.now + cfg.leaseTTL)
  {
    hide WorldInv, Apply, Inv, OnlyTime;
    InvOf(cfg, w);
    AssignLaw(cfg, w, ev);
    SavedLaunch(cfg, w, ev);
    RequestOf(cfg, w.mem, w.threads[ev.t].env.payload.offerId);
  }

  lemma SavedLaunch(cfg: Config, w: World, ev: Event)
    requires ev.Assign? && Enabled(cfg, w, ev) && WhyNoLaunch(cfg, w.mem, w.threads[ev.t].env, w.threads[ev.t].env.payload, ev.now, ev.placed, ev.saved).None?
    ensures ev.saved
  {
    hide LiveWork;
  }

  lemma RequestOf(cfg: Config, s: State, o: string)
    requires Inv(cfg, s)
    ensures o in s.offers ==> s.offers[o].request.requestId == s.offers[o].requestId
  {
    hide Indexed, Paired, Shaped, LedgerExact, WithinLimits, Budgeted, QuotasKept, ReplaySound;
  }

  /** `x` is live under a lease until `until`, in memory and on disk. */
  predicate Leased(w: World, x: string, until: Time) {
    LeasedIn(w.mem, x, until) && LeasedIn(w.disk, x, until)
  }

  predicate LeasedIn(s: State, x: string, until: Time) {
    x in s.executions && !Over(s.executions[x].phase) && s.executions[x].leaseUntil == until
  }

  /** The disk is what it was or what memory is now. */
  lemma DiskFollows(cfg: Config, w: World, ev: Event)
    requires Enabled(cfg, w, ev)
    ensures Apply(cfg, w, ev).disk == w.disk || Apply(cfg, w, ev).disk == Apply(cfg, w, ev).mem
  {
    hide ViewsOf, HandleRequest, HandleRelease, HandleRenew, HandleRead, RuntimeCompleted, Expire, RecoverVisit, Reload;
  }

  lemma LeasedStep(cfg: Config, w: World, ev: Event, x: string, until: Time)
    requires WorldInv(cfg, w) && Enabled(cfg, w, ev) && Leased(w, x, until) && until > UNSET
    requires !RecordFates.Renews(w, ev, x) && RecordFates.Ending(w, ev) != Some(x)
    ensures Leased(Apply(cfg, w, ev), x, until)
  {
    hide WorldInv, Enabled, Apply, RecordFates.Renews, RecordFates.Ending;
    DiskFollows(cfg, w, ev);
    if ev.Crash? {
      LifeLaws.CrashLaw(cfg, w, ev);
    } else {
      RecordFates.RecordFate(cfg, w, ev, x);
    }
  }

  lemma {:induction false} StaysLeased(cfg: Config, worlds: seq<World>, events: seq<Event>, i: nat, j: nat, x: string, until: Time)
    requires ValidConfig(cfg) && Run(cfg, worlds, events) && i <= j < |worlds| && Leased(worlds[i], x, until) && until > UNSET
    requires forall k | i <= k < j :: !RecordFates.Renews(worlds[k], events[k], x) && RecordFates.Ending(worlds[k], events[k]) != Some(x)
    ensures Leased(worlds[j], x, until)
    decreases j
  {
    hide WorldInv, Enabled, Apply, Leased, RecordFates.Renews, RecordFates.Ending;
    if i < j {
      StaysLeased(cfg, worlds, events, i, j - 1, x, until);
      RunInv(cfg, worlds, events, j - 1);
      LeasedStep(cfg, worlds[j - 1], events[j - 1], x, until);
      assert worlds[j - 1 + 1] == Apply(cfg, worlds[j - 1], events[j - 1]);
    }
  }

  /** A launch leaves, in memory and on disk, its offer's work under a lease of exactly the configured time from then on;
      and over the run, restarts included, no eviction of it begins before that time, unless it is renewed or ends. */
  lemma LeaseFromLaunch(cfg: Config, worlds: seq<World>, events: seq<Event>, i: nat, j: nat, x: string)
    requires ValidConfig(cfg) && Run(cfg, worlds, events) && i < j < |events|
    requires events[i].Assign? && worlds[i + 1].launches != worlds[i].launches
    requires events[i].t in worlds[i].threads && worlds[i].threads[events[i].t].Begun? && worlds[i].threads[events[i].t].env.payload.ExecutionAssign?
    requires x == worlds[i].threads[events[i].t].env.payload.executionId
    requires forall k | i < k < j :: !RecordFates.Renews(worlds[k], events[k], x) && RecordFates.Ending(worlds[k], events[k]) != Some(x)
    ensures FirstRecord(worlds[i], events[i], worlds[i + 1], x, events[i].now + cfg.leaseTTL)
    ensures Leased(worlds[j], x, events[i].now + cfg.leaseTTL)
    ensures events[j].Evict? && events[j].x == x ==> Later(worlds[j].mem.highWater, events[j].now) >= events[i].now + cfg.leaseTTL
  {
    hide WorldInv, Apply, RecordFates.Renews, RecordFates.Ending;
    assert Enabled(cfg, worlds[i], events[i]) && worlds[i + 1] == Apply(cfg, worlds[i], events[i]);
    RunInv(cfg, worlds, events, i);
    LaunchedAs(cfg, worlds[i], events[i]);
    StaysLeased(cfg, worlds, events, i + 1, j, x, events[i].now + cfg.leaseTTL);
    assert Enabled(cfg, worlds[j], events[j]);
    RecordFates.EvictsLapsed(cfg, worlds[j], events[j]);
  }
}
