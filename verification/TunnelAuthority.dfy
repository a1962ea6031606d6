/** Who may hold a tunnel session, over every interleaving of declaring a
    tunnel, accepting a session, dialing, releasing, and the execution ending.
    The allocator checks the execution, lets its lock go, acts on the registry
    and checks again; each of those is a step of its own. */
module TunnelAuthority {
  import opened Protocol
  import opened TunnelRegistry

  datatype Task =
    | Declaring(x: string)
    | Accepting(x: string, peerKey: seq<byte>)
    | Accepted(x: string, session: nat)
    | Dialing(session: nat)

  datatype Auth = Auth(phases: map<string, Phase>, reg: Reg<nat>, tasks: map<nat, Task>, next: nat, handed: set<nat>)

  const START := Auth(map[], Reg(map[], {}, map[]), map[], 0, {})

  datatype Event =
    | Launch(x: string)
    | Shift(x: string, phase: Phase)
    | End(x: string, phase: Phase)
    | Flinch(x: string)
    | Forget(x: string)
    | DeclareCheck(t: nat, x: string)
    | Declare(t: nat, peerKey: seq<byte>, targets: seq<Port>)
    | AcceptCheck(t: nat, x: string, peerKey: seq<byte>)
    | AcceptOpen(t: nat)
    | AcceptRecheck(t: nat)
    | DialCheck(t: nat, session: nat)
    | DialDone(t: nat)
    | Release(session: nat)
    | Crash(phases: map<string, Phase>)

  predicate Live(a: Auth, x: string) {
    x in a.phases && !Terminal(a.phases[x])
  }

  predicate Active(a: Auth, s: nat) {
    s in a.reg.owner && SessionOf(a.reg, a.reg.owner[s]) == Some(s)
  }

  predicate Enabled(a: Auth, ev: Event) {
    match ev
    case Launch(x) => x !in a.phases
    case Shift(x, phase) => Live(a, x) && !Terminal(phase)
    case End(x, phase) => Live(a, x) && Terminal(phase)
    case Flinch(x) => Live(a, x)
    case Forget(x) => x in a.phases && Terminal(a.phases[x])
    case DeclareCheck(t, x) => t !in a.tasks && Live(a, x)
    case Declare(t, peerKey, targets) => t in a.tasks && a.tasks[t].Declaring?
    case AcceptCheck(t, x, peerKey) => t !in a.tasks && Live(a, x)
    case AcceptOpen(t) => t in a.tasks && a.tasks[t].Accepting?
    case AcceptRecheck(t) => t in a.tasks && a.tasks[t].Accepted?
    case DialCheck(t, s) =>
      t !in a.tasks && s in a.handed && Active(a, s) && Live(a, a.reg.owner[s]) && a.phases[a.reg.owner[s]] != Cancelling
    case DialDone(t) => t in a.tasks && a.tasks[t].Dialing?
    case Release(s) => s in a.handed && s in a.reg.owner
    case Crash(_) => true
  }

  function Went(a: Auth, t: nat): Auth {
    a.(tasks := a.tasks - {t})
  }

  /** An ending execution loses its registry record in the same locked section; `Flinch` is a completion whose
      save fails: the record is lost all the same and the execution lives on. */
  function Apply(a: Auth, ev: Event): Auth
    requires Enabled(a, ev)
  {
    match ev
    case Launch(x) => a.(phases := a.phases[x := Starting])
    case Shift(x, phase) => a.(phases := a.phases[x := phase])
    case End(x, phase) => a.(phases := a.phases[x := phase], reg := Invalidated(a.reg, x))
    case Flinch(x) => a.(reg := Invalidated(a.reg, x))
    case Forget(x) => a.(phases := a.phases - {x})
    case DeclareCheck(t, x) => a.(tasks := a.tasks[t := Declaring(x)])
    case Declare(t, peerKey, targets) =>
      var x := a.tasks[t].x;
      Went(if Bindable(x, peerKey, targets) then a.(reg := Bound(a.reg, x, peerKey, targets)) else a, t)
    case AcceptCheck(t, x, peerKey) => a.(tasks := a.tasks[t := Accepting(x, peerKey)])
    case AcceptOpen(t) =>
      var x := a.tasks[t].x;
      if OpenRefusal(a.reg, x, a.tasks[t].peerKey).Some? then Went(a, t)
      else a.(reg := Opened(a.reg, x, a.next), next := a.next + 1, tasks := a.tasks[t := Accepted(x, a.next)])
    case AcceptRecheck(t) =>
      var x := a.tasks[t].x;
      Went(if Live(a, x) then a.(handed := a.handed + {a.tasks[t].session}) else a.(reg := SessionClosed(a.reg, x)), t)
    case DialCheck(t, s) => a.(tasks := a.tasks[t := Dialing(s)])
    case DialDone(t) => Went(a, t)
    case Release(s) => a.(reg := Released(a.reg, s))
    case Crash(phases) => START.(phases := phases)
  }

  /** The dial under way returns its connection only if its session is still the registered one. */
  predicate DialReturns(a: Auth, t: nat)
    requires t in a.tasks && a.tasks[t].Dialing?
  {
    Active(a, a.tasks[t].session)
  }

  // --------------------------------------------------------------------- invariant

  ghost predicate AuthInv(a: Auth) {
    && RegInv(a.reg) && a.handed <= a.reg.owner.Keys
    && (forall s | s in a.reg.owner :: s < a.next)
    && (forall s | s in a.handed && s !in a.reg.done :: Live(a, a.reg.owner[s]))
    && (forall t | t in a.tasks && a.tasks[t].Accepted? ::
          a.tasks[t].session in a.reg.owner && a.reg.owner[a.tasks[t].session] == a.tasks[t].x)
    && (forall t | t in a.tasks && a.tasks[t].Dialing? :: a.tasks[t].session in a.handed)
  }

  lemma EndKeeps(a: Auth, x: string, phases: map<string, Phase>)
    requires AuthInv(a) && forall y | y != x && y in a.phases :: y in phases && phases[y] == a.phases[y]
    ensures AuthInv(a.(phases := phases, reg := Invalidated(a.reg, x)))
    ensures forall s | s in a.reg.owner && a.reg.owner[s] == x :: s in Invalidated(a.reg, x).done
  {
    InvalidatedKeeps(a.reg, x);
  }

  lemma OpenKeeps(a: Auth, t: nat)
    requires AuthInv(a) && Enabled(a, AcceptOpen(t))
    ensures AuthInv(Apply(a, AcceptOpen(t)))
  {
    var task := a.tasks[t];
    if OpenRefusal(a.reg, task.x, task.peerKey).None? {
      OpenedKeeps(a.reg, task.x, task.peerKey, a.next);
      hide RegInv;
    }
  }

  lemma RecheckKeeps(a: Auth, t: nat)
    requires AuthInv(a) && Enabled(a, AcceptRecheck(t))
    ensures AuthInv(Apply(a, AcceptRecheck(t)))
  {
    ClosedKeeps(a.reg, a.tasks[t].x);
    hide RegInv;
  }

  lemma DeclareKeeps(a: Auth, ev: Event)
    requires AuthInv(a) && Enabled(a, ev) && ev.Declare?
    ensures AuthInv(Apply(a, ev))
  {
    BoundKeeps(a.reg, a.tasks[ev.t].x, ev.peerKey, ev.targets);
  }

  lemma ReleaseKeeps(a: Auth, s: nat)
    requires AuthInv(a) && s in a.reg.owner
    ensures AuthInv(a.(reg := Released(a.reg, s)))
  {
    ReleasedKeeps(a.reg, s);
  }

  lemma StepKeeps(a: Auth, ev: Event)
    requires AuthInv(a) && Enabled(a, ev)
    ensures AuthInv(Apply(a, ev))
  {
    match ev
    case End(x, phase) => EndKeeps(a, x, a.phases[x := phase]);
    case Flinch(x) => EndKeeps(a, x, a.phases);
    case Declare(_, _, _) => DeclareKeeps(a, ev);
    case AcceptOpen(t) => OpenKeeps(a, t);
    case AcceptRecheck(t) => RecheckKeeps(a, t);
    case Release(s) => ReleaseKeeps(a, s);
    case Crash(_) => EmptyInv();
    case _ => QuietKeeps(a, ev);
  }

  /** Steps that leave the registry alone and end nothing. */
  lemma QuietKeeps(a: Auth, ev: Event)
    requires AuthInv(a) && Enabled(a, ev)
    requires ev.Launch? || ev.Shift? || ev.Forget? || ev.DeclareCheck? || ev.AcceptCheck? || ev.DialCheck? || ev.DialDone?
    ensures AuthInv(Apply(a, ev))
  {
    hide RegInv;
  }

  lemma EmptyInv()
    ensures RegInv(START.reg)
  {
  }

  // -------------------------------------------------------------------------- runs

  predicate Run(auths: seq<Auth>, events: seq<Event>) {
    && |auths| == |events| + 1 && auths[0] == START
    && forall i | 0 <= i < |events| :: Enabled(auths[i], events[i]) && auths[i + 1] == Apply(auths[i], events[i])
  }

  lemma {:induction false} RunInv(auths: seq<Auth>, events: seq<Event>, n: nat)
    requires Run(auths, events) && n < |auths|
    ensures AuthInv(auths[n])
  {
    if n > 0 {
      hide AuthInv, Enabled, Apply;
      RunInv(auths, events, n - 1);
      StepKeeps(auths[n - 1], events[n - 1]);
    }
  }

  /** In every reachable state: a session is open exactly while registered, an execution has at most one open
      session, and an open session the edge holds belongs to a live execution. */
  lemma AuthorityHolds(auths: seq<Auth>, events: seq<Event>, n: nat, s: nat, s': nat)
    requires Run(auths, events) && n < |auths|
    requires s in auths[n].reg.owner && s' in auths[n].reg.owner
    ensures var a := auths[n];
      && (s !in a.reg.done <==> Active(a, s))
      && (s !in a.reg.done && s' !in a.reg.done && a.reg.owner[s] == a.reg.owner[s'] ==> s == s')
      && (s in a.handed && s !in a.reg.done ==> Live(a, a.reg.owner[s]))
  {
    hide Run;
    RunInv(auths, events, n);
  }

  /** The step that ends an execution revokes whatever session of it the edge holds. */
  lemma EndRevokes(auths: seq<Auth>, events: seq<Event>, n: nat, s: nat)
    requires Run(auths, events) && n < |events| && events[n].End?
    requires s in auths[n].handed && s in auths[n].reg.owner && auths[n].reg.owner[s] == events[n].x
    ensures s in auths[n + 1].reg.done && !Active(auths[n + 1], s)
  {
    RunInv(auths, events, n);
    RunInv(auths, events, n + 1);
    InvalidatedKeeps(auths[n].reg, events[n].x);
    assert Enabled(auths[n], events[n]) && auths[n + 1] == Apply(auths[n], events[n]);
  }

  /** A dial that outlasts the end of its execution returns no connection. */
  lemma DialMeansLive(auths: seq<Auth>, events: seq<Event>, n: nat, t: nat)
    requires Run(auths, events) && n < |auths| && t in auths[n].tasks && auths[n].tasks[t].Dialing? && DialReturns(auths[n], t)
    ensures Live(auths[n], auths[n].reg.owner[auths[n].tasks[t].session])
  {
    hide Run;
    RunInv(auths, events, n);
  }

  /** Each step that acts for an execution starts from a look at it: a declaration or an acceptance from one that is
      live, a dial from a session in the edge's hands, registered, of work neither over nor being stopped; and an accepted
      session reaches the edge only if its execution is still live, and is closed again if not. */
  lemma ChecksMade(a: Auth, ev: Event)
    requires Enabled(a, ev)
    ensures ev.DeclareCheck? || ev.AcceptCheck? ==> ev.x in a.phases && a.phases[ev.x] !in {Phase.Cancelled, Phase.Completed, Phase.Failed}
    ensures ev.DialCheck? ==>
      && ev.session in a.handed && ev.session in a.reg.owner && a.reg.owner[ev.session] in a.reg.records
      && a.reg.records[a.reg.owner[ev.session]].session == Some(ev.session) && a.reg.owner[ev.session] in a.phases
      && a.phases[a.reg.owner[ev.session]] in {Phase.Unspecified, Phase.Starting, Phase.Running}
    ensures ev.AcceptRecheck? ==> ev.t in a.tasks && a.tasks[ev.t].Accepted?
    ensures ev.AcceptRecheck? ==>
      var x, k := a.tasks[ev.t].x, Apply(a, ev);
      if x in a.phases && a.phases[x] !in {Phase.Cancelled, Phase.Completed, Phase.Failed}
      then k.handed == a.handed + {a.tasks[ev.t].session} && k.reg == a.reg
      else k.handed == a.handed && (x in k.reg.records ==> k.reg.records[x].session.None?)
  {
  }

  /** What becomes of each registry record, in its own fields: one is written by a declaration that names everything, given
      the next session by an acceptance under its own key while it has none, and dropped when its execution ends. */
  lemma RecordsMade(a: Auth, ev: Event, y: string)
    requires Enabled(a, ev)
    ensures ev.Declare? ==> var k, x := Apply(a, ev), a.tasks[ev.t].x;
      && k == a.(tasks := a.tasks - {ev.t}, reg := k.reg) && k.reg.owner == a.reg.owner && k.reg.done == a.reg.done
      && if y == x != "" && ev.peerKey != [] && ev.targets != []
         then y in k.reg.records && k.reg.records[y] == Binding(ev.peerKey, ev.targets, if y in a.reg.records then a.reg.records[y].session else None)
         else SameRecord(a, k, y)
    ensures ev.AcceptOpen? ==> var k, x := Apply(a, ev), a.tasks[ev.t].x;
      if x != "" && x in a.reg.records && a.reg.records[x].peerKey == a.tasks[ev.t].peerKey && a.reg.records[x].session == None
      then
        && k.tasks == a.tasks[ev.t := Accepted(x, a.next)] && k.next == a.next + 1 && k.handed == a.handed
        && k.reg.owner == a.reg.owner[a.next := x] && k.reg.done == a.reg.done
        && if y == x then y in k.reg.records && k.reg.records[y] == Binding(a.tasks[ev.t].peerKey, a.reg.records[x].targets, Some(a.next))
           else SameRecord(a, k, y)
      else k == a.(tasks := a.tasks - {ev.t})
    ensures ev.Release? ==> var k := Apply(a, ev);
      && k == a.(reg := k.reg) && k.reg.owner == a.reg.owner
      && if y == a.reg.owner[ev.session] && y in a.reg.records && a.reg.records[y].session == Some(ev.session)
         then y in k.reg.records && k.reg.records[y] == Binding(a.reg.records[y].peerKey, a.reg.records[y].targets, None) && ev.session in k.reg.done
         else SameRecord(a, k, y)
    ensures ev.End? || ev.Flinch? ==> var k := Apply(a, ev);
      && k == a.(reg := k.reg, phases := k.phases) && k.reg.owner == a.reg.owner
      && if y == ev.x then y !in k.reg.records && (y in a.reg.records && a.reg.records[y].session.Some? ==> a.reg.records[y].session.value in k.reg.done)
         else SameRecord(a, k, y)
  {
  }

  predicate SameRecord(a: Auth, k: Auth, y: string) {
    (y in k.reg.records <==> y in a.reg.records) && (y in a.reg.records ==> k.reg.records[y] == a.reg.records[y])
  }

  // --------------------------------------------------------- what may outlive its execution

  /** A binding whose execution is not live. */
  predicate Stray(a: Auth, x: string) {
    x in a.reg.records && !Live(a, x)
  }

  /** A declaration for `x` that writes its record when `x` is no longer live. */
  predicate Belated(a: Auth, ev: Event, x: string) {
    && ev.Declare? && ev.t in a.tasks && a.tasks[ev.t] == Declaring(x)
    && Bindable(x, ev.peerKey, ev.targets) && !Live(a, x)
  }

  /** A binding goes stray exactly in a step in which a belated declaration writes it. */
  lemma StrayStep(a: Auth, ev: Event, x: string)
    requires Enabled(a, ev) && !Stray(a, x)
    ensures Stray(Apply(a, ev), x) <==> Belated(a, ev, x)
  {
  }

  /** Over any run: no binding is ever stray exactly when no declaration is belated. */
  lemma {:induction false} NeverStrayExactly(auths: seq<Auth>, events: seq<Event>, n: nat, x: string)
    requires Run(auths, events) && n <= |events|
    ensures (forall i | 0 <= i <= n :: !Stray(auths[i], x)) <==> (forall i | 0 <= i < n :: !Belated(auths[i], events[i], x))
  {
    hide Apply, Enabled, Stray, Belated;
    if n == 0 {
      StartsClean(x);
    } else {
      NeverStrayExactly(auths, events, n - 1, x);
      if forall i | 0 <= i <= n - 1 :: !Stray(auths[i], x) {
        StrayStep(auths[n - 1], events[n - 1], x);
        assert auths[n - 1 + 1] == Apply(auths[n - 1], events[n - 1]);
        assert Stray(auths[n], x) <==> Belated(auths[n - 1], events[n - 1], x);
      } else {
        var i :| 0 <= i <= n - 1 && Stray(auths[i], x);
        var j :| 0 <= j < n - 1 && Belated(auths[j], events[j], x);
      }
    }
  }

  lemma StartsClean(x: string)
    ensures !Stray(START, x)
  {
  }

  /** The first belated declaration for an execution leaves a binding behind, and no session the edge may use. */
  lemma FirstBelatedLeavesOne(auths: seq<Auth>, events: seq<Event>, n: nat, x: string, s: nat)
    requires Run(auths, events) && n < |events| && (forall i | 0 <= i < n :: !Belated(auths[i], events[i], x))
    requires Belated(auths[n], events[n], x) && s in auths[n + 1].reg.owner && auths[n + 1].reg.owner[s] == x
    ensures Stray(auths[n + 1], x) && (s in auths[n + 1].handed ==> s in auths[n + 1].reg.done)
  {
    NeverStrayExactly(auths, events, n, x);
    StrayStep(auths[n], events[n], x);
    RunInv(auths, events, n + 1);
  }

  /** Such a run: a declaration that passed its check before the end writes its record after it. */
  lemma BindingOutlives(x: string, peerKey: seq<byte>, targets: seq<Port>)
    requires Bindable(x, peerKey, targets)
    ensures var a := Left(x, peerKey, targets); AuthInv(a) && x in a.reg.records && !Live(a, x)
    ensures exists auths, events :: Run(auths, events) && auths[|events|] == Left(x, peerKey, targets)
  {
    var events := [Launch(x), DeclareCheck(0, x), End(x, Completed), Declare(0, peerKey, targets)];
    var a1 := START.(phases := map[x := Starting]);
    var a2 := a1.(tasks := map[0 := Declaring(x)]);
    var a3 := a2.(phases := map[x := Completed]);
    var auths := [START, a1, a2, a3, Left(x, peerKey, targets)];
    OutlivingSteps(x, peerKey, targets);
    hide Apply, Enabled;
    assert Run(auths, events);
    RunInv(auths, events, 4);
  }

  lemma OutlivingSteps(x: string, peerKey: seq<byte>, targets: seq<Port>)
    requires Bindable(x, peerKey, targets)
    ensures var a1 := START.(phases := map[x := Starting]);
      var a2 := a1.(tasks := map[0 := Declaring(x)]);
      var a3 := a2.(phases := map[x := Completed]);
      && Enabled(START, Launch(x)) && Apply(START, Launch(x)) == a1
      && Enabled(a1, DeclareCheck(0, x)) && Apply(a1, DeclareCheck(0, x)) == a2
      && Enabled(a2, End(x, Completed)) && Apply(a2, End(x, Completed)) == a3
      && Enabled(a3, Declare(0, peerKey, targets)) && Apply(a3, Declare(0, peerKey, targets)) == Left(x, peerKey, targets)
  {
  }

  function Left(x: string, peerKey: seq<byte>, targets: seq<Port>): Auth {
    Auth(map[x := Completed], Reg(map[x := Binding(peerKey, targets, None)], {}, map[]), map[], 0, {})
  }
}
