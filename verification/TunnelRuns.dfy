/** The tunnel registry beside the allocator it serves: the phases that decide
    who may hold a session are those of the allocator's own records, and a record
    ends in the registry in the section in which finishLocked ends it. */
module TunnelRuns {
  import opened Protocol
  import opened TunnelRegistry
  import opened TunnelAuthority
  import opened RecordFates
  import A = AllocatorRuns
  import opened WorldInvariant
  import WorldSteps
  import AllocatorState

  datatype Joint = Joint(w: A.World, auth: Auth)

  datatype Move = Works(ev: A.Event) | Tunnels(tun: Event)

  function PhasesOf(w: A.World): map<string, Phase> {
    map x | x in w.mem.executions :: w.mem.executions[x].phase
  }

  /** The steps the tunnel side takes by itself; what becomes of executions is the allocator's. */
  predicate OfTunnels(ev: Event) {
    !ev.Launch? && !ev.Shift? && !ev.End? && !ev.Flinch? && !ev.Forget? && !ev.Crash?
  }

  ghost predicate CanMove(cfg: AllocatorState.Config, j: Joint, m: Move) {
    match m
    case Works(ev) => A.Enabled(cfg, j.w, ev)
    case Tunnels(ev) => OfTunnels(ev) && Enabled(j.auth, ev)
  }

  /** A new process starts with an empty registry. */
  function Follows(a: Auth, phases: map<string, Phase>, ended: Option<string>, crashed: bool): Auth {
    if crashed then START.(phases := phases)
    else a.(phases := phases, reg := if ended.Some? then Invalidated(a.reg, ended.value) else a.reg)
  }

  ghost function Moved(cfg: AllocatorState.Config, j: Joint, m: Move): Joint
    requires CanMove(cfg, j, m)
  {
    match m
    case Works(ev) =>
      var w := A.Apply(cfg, j.w, ev);
      Joint(w, Follows(j.auth, PhasesOf(w), Ending(j.w, ev), ev.Crash?))
    case Tunnels(ev) => Joint(j.w, Apply(j.auth, ev))
  }

  ghost predicate JointRun(cfg: AllocatorState.Config, joints: seq<Joint>, moves: seq<Move>) {
    && |joints| == |moves| + 1 && joints[0] == Joint(A.START, START)
    && forall i | 0 <= i < |moves| :: CanMove(cfg, joints[i], moves[i]) && joints[i + 1] == Moved(cfg, joints[i], moves[i])
  }

  // --------------------------------------------------------------------- invariant

  ghost predicate JointInv(cfg: AllocatorState.Config, j: Joint) {
    WorldInv(cfg, j.w) && AuthInv(j.auth) && j.auth.phases == PhasesOf(j.w)
  }

  /** What is live stays live unless it is the one that ends. */
  predicate Lives(phases: map<string, Phase>, phases': map<string, Phase>, ended: Option<string>) {
    forall y | y in phases && !Terminal(phases[y]) && ended != Some(y) :: y in phases' && !Terminal(phases'[y])
  }

  lemma LivesOn(cfg: AllocatorState.Config, w: A.World, ev: A.Event)
    requires WorldInv(cfg, w) && A.Enabled(cfg, w, ev) && !ev.Crash?
    ensures Lives(PhasesOf(w), PhasesOf(A.Apply(cfg, w, ev)), Ending(w, ev))
  {
    hide WorldInv, A.Enabled, A.Apply, Ending, Renews;
    forall y | y in PhasesOf(w) && !Terminal(PhasesOf(w)[y]) && Ending(w, ev) != Some(y)
      ensures y in PhasesOf(A.Apply(cfg, w, ev)) && !Terminal(PhasesOf(A.Apply(cfg, w, ev))[y])
    {
      RecordFate(cfg, w, ev, y);
    }
  }

  lemma FollowsKeeps(a: Auth, phases: map<string, Phase>, ended: Option<string>)
    requires AuthInv(a) && Lives(a.phases, phases, ended)
    ensures AuthInv(Follows(a, phases, ended, false))
  {
    hide RegInv;
    if ended.Some? { InvalidatedKeeps(a.reg, ended.value); }
  }

  lemma TunnelsKeepPhases(a: Auth, ev: Event)
    requires Enabled(a, ev) && OfTunnels(ev)
    ensures Apply(a, ev).phases == a.phases
  {
    hide Bound, Opened, SessionClosed, Released, OpenRefusal, Bindable;
  }

  lemma FreshFollows(a: Auth, phases: map<string, Phase>, ended: Option<string>)
    ensures AuthInv(Follows(a, phases, ended, true))
  {
    EmptyInv();
  }

  lemma JointStep(cfg: AllocatorState.Config, j: Joint, m: Move)
    requires AllocatorState.ValidConfig(cfg) && JointInv(cfg, j) && CanMove(cfg, j, m)
    ensures JointInv(cfg, Moved(cfg, j, m))
  {
    hide WorldInv, AuthInv, A.Enabled, A.Apply, Enabled, Apply, Ending, Lives, Follows;
    match m
    case Works(ev) =>
      WorldSteps.Step(cfg, j.w, ev);
      PhasesFollow(j.auth, PhasesOf(A.Apply(cfg, j.w, ev)), Ending(j.w, ev), ev.Crash?);
      if ev.Crash? {
        FreshFollows(j.auth, PhasesOf(A.Apply(cfg, j.w, ev)), Ending(j.w, ev));
      } else {
        LivesOn(cfg, j.w, ev);
        FollowsKeeps(j.auth, PhasesOf(A.Apply(cfg, j.w, ev)), Ending(j.w, ev));
      }
    case Tunnels(ev) =>
      StepKeeps(j.auth, ev);
      TunnelsKeepPhases(j.auth, ev);
  }

  lemma PhasesFollow(a: Auth, phases: map<string, Phase>, ended: Option<string>, crashed: bool)
    ensures Follows(a, phases, ended, crashed).phases == phases
  {
  }

  lemma {:induction false} JointRunInv(cfg: AllocatorState.Config, joints: seq<Joint>, moves: seq<Move>, n: nat)
    requires AllocatorState.ValidConfig(cfg) && JointRun(cfg, joints, moves) && n < |joints|
    ensures JointInv(cfg, joints[n])
  {
    hide JointInv, CanMove, Moved;
    if n == 0 {
      JointStart(cfg);
    } else {
      JointRunInv(cfg, joints, moves, n - 1);
      JointStep(cfg, joints[n - 1], moves[n - 1]);
      assert joints[n - 1 + 1] == Moved(cfg, joints[n - 1], moves[n - 1]);
    }
  }

  lemma JointStart(cfg: AllocatorState.Config)
    requires AllocatorState.ValidConfig(cfg)
    ensures JointInv(cfg, Joint(A.START, START))
  {
    WorldSteps.StartInv(cfg);
    EmptyInv();
    hide WorldInv;
  }

  // ----------------------------------------------------------------------- theorems

  predicate LiveIn(w: A.World, x: string) {
    x in w.mem.executions && !Terminal(w.mem.executions[x].phase)
  }

  /** In every reachable state of allocator and tunnels together: an open session the edge holds is the one registered
      for an execution that the allocator's own record says is live. */
  lemma SessionsOfLiveWork(cfg: AllocatorState.Config, joints: seq<Joint>, moves: seq<Move>, n: nat, s: nat)
    requires AllocatorState.ValidConfig(cfg) && JointRun(cfg, joints, moves) && n < |joints|
    requires s in joints[n].auth.handed
    ensures s in joints[n].auth.reg.owner
    ensures s !in joints[n].auth.reg.done <==> Active(joints[n].auth, s)
    ensures Active(joints[n].auth, s) ==> LiveIn(joints[n].w, joints[n].auth.reg.owner[s])
  {
    hide JointRun, WorldInv;
    JointRunInv(cfg, joints, moves, n);
  }

  /** A dial that returns its connection does so for an execution that the allocator's own record says is live. */
  lemma DialOfLiveWork(cfg: AllocatorState.Config, joints: seq<Joint>, moves: seq<Move>, n: nat, t: nat)
    requires AllocatorState.ValidConfig(cfg) && JointRun(cfg, joints, moves) && n < |joints|
    requires t in joints[n].auth.tasks && joints[n].auth.tasks[t].Dialing? && DialReturns(joints[n].auth, t)
    ensures LiveIn(joints[n].w, joints[n].auth.reg.owner[joints[n].auth.tasks[t].session])
  {
    hide JointRun, WorldInv;
    JointRunInv(cfg, joints, moves, n);
  }

  /** Whichever event ends an execution, or loses its record in a restart, leaves no session of it open in the edge's hands. */
  lemma EndedWorkRevoked(cfg: AllocatorState.Config, joints: seq<Joint>, moves: seq<Move>, n: nat, s: nat, x: string)
    requires AllocatorState.ValidConfig(cfg) && JointRun(cfg, joints, moves) && n < |moves|
    requires LiveIn(joints[n].w, x) && !LiveIn(joints[n + 1].w, x)
    requires s in joints[n].auth.handed && s in joints[n].auth.reg.owner && joints[n].auth.reg.owner[s] == x
    ensures !Active(joints[n + 1].auth, s)
  {
    hide WorldInv, CanMove, Moved, LiveIn;
    JointRunInv(cfg, joints, moves, n);
    JointRunInv(cfg, joints, moves, n + 1);
    assert joints[n + 1] == Moved(cfg, joints[n], moves[n]) && CanMove(cfg, joints[n], moves[n]);
    OwnersStay(cfg, joints[n], moves[n], s);
    hide JointRun;
    NotActive(cfg, joints[n + 1], s, x);
  }

  lemma NotActive(cfg: AllocatorState.Config, j: Joint, s: nat, x: string)
    requires JointInv(cfg, j) && !LiveIn(j.w, x)
    requires s in j.auth.reg.owner ==> s in j.auth.handed && j.auth.reg.owner[s] == x
    ensures !Active(j.auth, s)
  {
    hide WorldInv;
  }

  lemma OwnerKept(a: Auth, ev: Event, s: nat)
    requires AuthInv(a) && Enabled(a, ev) && OfTunnels(ev) && s in a.handed && s in a.reg.owner
    ensures var a' := Apply(a, ev); s in a'.handed && s in a'.reg.owner && a'.reg.owner[s] == a.reg.owner[s]
  {
    hide RegInv, OpenRefusal, Bindable;
  }

  /** A session keeps its execution and stays handed out until the process ends. */
  lemma OwnersStay(cfg: AllocatorState.Config, j: Joint, m: Move, s: nat)
    requires JointInv(cfg, j) && CanMove(cfg, j, m) && s in j.auth.handed && s in j.auth.reg.owner
    ensures var a := Moved(cfg, j, m).auth; s in a.reg.owner ==> s in a.handed && a.reg.owner[s] == j.auth.reg.owner[s]
  {
    hide WorldInv, AuthInv, A.Enabled, A.Apply, Enabled, Apply, Ending, PhasesOf;
    if m.Tunnels? { OwnerKept(j.auth, m.tun, s); }
  }

  // ------------------------------------------------------------------- stray bindings

  ghost predicate BelatedMove(j: Joint, m: Move, x: string) {
    m.Tunnels? && Belated(j.auth, m.tun, x)
  }

  lemma StrayMove(cfg: AllocatorState.Config, j: Joint, m: Move, x: string)
    requires JointInv(cfg, j) && CanMove(cfg, j, m) && !Stray(j.auth, x)
    ensures Stray(Moved(cfg, j, m).auth, x) <==> BelatedMove(j, m, x)
  {
    hide WorldInv, AuthInv, A.Enabled, A.Apply, Enabled, Apply, Ending, Lives, Stray, Belated;
    match m
    case Works(ev) =>
      if !ev.Crash? { LivesOn(cfg, j.w, ev); }
      WorksClean(j.auth, PhasesOf(A.Apply(cfg, j.w, ev)), Ending(j.w, ev), ev.Crash?, x);
    case Tunnels(ev) => StrayStep(j.auth, ev, x);
  }

  lemma WorksClean(a: Auth, phases: map<string, Phase>, ended: Option<string>, crashed: bool, x: string)
    requires !Stray(a, x) && (!crashed ==> Lives(a.phases, phases, ended))
    ensures !Stray(Follows(a, phases, ended, crashed), x)
  {
  }

  /** Nothing the allocator does leaves a binding without live work behind it: over every run of the two together,
      no binding is ever stray exactly when no declaration writes its record after its execution has ended. */
  lemma {:induction false} NoStrayExactly(cfg: AllocatorState.Config, joints: seq<Joint>, moves: seq<Move>, n: nat, x: string)
    requires AllocatorState.ValidConfig(cfg) && JointRun(cfg, joints, moves) && n <= |moves|
    ensures (forall i | 0 <= i <= n :: !Stray(joints[i].auth, x)) <==> (forall i | 0 <= i < n :: !BelatedMove(joints[i], moves[i], x))
  {
    hide JointInv, CanMove, Moved, Stray, BelatedMove;
    if n == 0 {
      StartsClean(x);
    } else {
      NoStrayExactly(cfg, joints, moves, n - 1, x);
      if forall i | 0 <= i <= n - 1 :: !Stray(joints[i].auth, x) {
        JointRunInv(cfg, joints, moves, n - 1);
        StrayMove(cfg, joints[n - 1], moves[n - 1], x);
        assert joints[n - 1 + 1] == Moved(cfg, joints[n - 1], moves[n - 1]);
        assert Stray(joints[n].auth, x) <==> BelatedMove(joints[n - 1], moves[n - 1], x);
      } else {
        var i :| 0 <= i <= n - 1 && Stray(joints[i].auth, x);
        var k :| 0 <= k < n - 1 && BelatedMove(joints[k], moves[k], x);
      }
    }
  }
}
