/** The tunnel registry: one binding per execution, at most one live session on
    it. The abstract registry is generic in what identifies a session, so that
    the object below and the authority protocol share one specification. */
module TunnelRegistry {
  import opened Protocol

  type Port = n: nat | n < 0x1_0000

  datatype Binding<S> = Binding(peerKey: seq<byte>, targets: seq<Port>, session: Option<S>)

  /** `done` holds the sessions whose channel is closed, `owner` the execution each issued session belongs to. */
  datatype Reg<!S(==)> = Reg(records: map<string, Binding<S>>, done: set<S>, owner: map<S, string>)

  function EmptyReg<S(==)>(): Reg<S> {
    Reg(map[], {}, map[])
  }

  datatype OpenError = MissingId | NotBound | KeyMismatch | Busy

  // -------------------------------------------------------------------- operations

  predicate Bindable(x: string, peerKey: seq<byte>, targets: seq<Port>) {
    x != "" && peerKey != [] && targets != []
  }

  /** Bind replaces key and targets and leaves a live session alone. */
  function Bound<S(==)>(r: Reg<S>, x: string, peerKey: seq<byte>, targets: seq<Port>): Reg<S> {
    r.(records := r.records[x := Binding(peerKey, targets, if x in r.records then r.records[x].session else None)])
  }

  function OpenRefusal<S(==)>(r: Reg<S>, x: string, peerKey: seq<byte>): Option<OpenError> {
    if x == "" then Some(MissingId)
    else if x !in r.records then Some(NotBound)
    else if r.records[x].peerKey != peerKey then Some(KeyMismatch)
    else if r.records[x].session.Some? then Some(Busy)
    else None
  }

  function Opened<S(==)>(r: Reg<S>, x: string, s: S): Reg<S>
    requires x in r.records
  {
    r.(records := r.records[x := r.records[x].(session := Some(s))], owner := r.owner[s := x])
  }

  function SessionOf<S(==)>(r: Reg<S>, x: string): Option<S> {
    if x in r.records then r.records[x].session else None
  }

  function SessionClosed<S(==)>(r: Reg<S>, x: string): Reg<S> {
    if SessionOf(r, x).None? then r
    else r.(records := r.records[x := r.records[x].(session := None)], done := r.done + {r.records[x].session.value})
  }

  function Invalidated<S(==)>(r: Reg<S>, x: string): Reg<S> {
    r.(records := r.records - {x}, done := if SessionOf(r, x).Some? then r.done + {SessionOf(r, x).value} else r.done)
  }

  /** Release ends this session only. */
  function Released<S(==)>(r: Reg<S>, s: S): Reg<S>
    requires s in r.owner
  {
    if SessionOf(r, r.owner[s]) == Some(s) then SessionClosed(r, r.owner[s]) else r
  }

  // --------------------------------------------------------------------- invariant

  /** A session is open exactly while it is the registered one of its execution. */
  ghost predicate RegInv<S(!new)>(r: Reg<S>) {
    && (forall x | x in r.records && r.records[x].session.Some? ::
          r.records[x].session.value in r.owner && r.owner[r.records[x].session.value] == x)
    && r.done <= r.owner.Keys
    && (forall s | s in r.owner :: s !in r.done <==> SessionOf(r, r.owner[s]) == Some(s))
  }

  lemma BoundKeeps<S(!new)>(r: Reg<S>, x: string, peerKey: seq<byte>, targets: seq<Port>)
    requires RegInv(r)
    ensures RegInv(Bound(r, x, peerKey, targets))
  {
    assert forall y :: SessionOf(Bound(r, x, peerKey, targets), y) == SessionOf(r, y);
  }

  lemma OpenedKeeps<S(!new)>(r: Reg<S>, x: string, peerKey: seq<byte>, s: S)
    requires RegInv(r) && OpenRefusal(r, x, peerKey).None? && s !in r.owner
    ensures RegInv(Opened(r, x, s))
  {
    assert forall y :: SessionOf(Opened(r, x, s), y) == if y == x then Some(s) else SessionOf(r, y);
  }

  lemma ClosedKeeps<S(!new)>(r: Reg<S>, x: string)
    requires RegInv(r)
    ensures RegInv(SessionClosed(r, x))
    ensures SessionOf(r, x).Some? ==> SessionOf(r, x).value !in r.done
  {
    assert forall y :: SessionOf(SessionClosed(r, x), y) == if y == x then None else SessionOf(r, y);
  }

  lemma InvalidatedKeeps<S(!new)>(r: Reg<S>, x: string)
    requires RegInv(r)
    ensures RegInv(Invalidated(r, x))
    ensures forall s | s in r.owner && r.owner[s] == x :: s in Invalidated(r, x).done
  {
    assert forall y :: SessionOf(Invalidated(r, x), y) == if y == x then None else SessionOf(r, y);
  }

  lemma ReleasedKeeps<S(!new)>(r: Reg<S>, s: S)
    requires RegInv(r) && s in r.owner
    ensures RegInv(Released(r, s)) && s in Released(r, s).done
  {
    ClosedKeeps(r, r.owner[s]);
  }

  /** At most one session of an execution is open. */
  lemma AtMostOneOpen<S(!new)>(r: Reg<S>, a: S, b: S)
    requires RegInv(r) && a in r.owner && b in r.owner && a !in r.done && b !in r.done && r.owner[a] == r.owner[b]
    ensures a == b
  {
  }

  /** Releasing an old session touches nothing: not the binding, not the session that replaced it. */
  lemma ReleaseSparesReplacement<S(!new)>(r: Reg<S>, old_: S, new_: S)
    requires RegInv(r) && old_ in r.owner && new_ in r.owner && old_ != new_
    ensures (new_ in Released(r, old_).done <==> new_ in r.done)
    ensures old_ in r.done ==> Released(r, old_) == r
  {
  }

  // -------------------------------------------------------------------- the object

  class Session {
    const executionId: string
    const peerKey: seq<byte>
    const targets: seq<Port>
    /** Whether the done channel is closed. */
    var done: bool

    constructor (executionId: string, peerKey: seq<byte>, targets: seq<Port>)
      ensures this.executionId == executionId && this.peerKey == peerKey && this.targets == targets && !done
    {
      this.executionId, this.peerKey, this.targets, done := executionId, peerKey, targets, false;
    }

    /** Closing a closed channel is a fault, so every caller must show it is open. */
    method Close()
      requires !done
      modifies this
      ensures done
    {
      done := true;
    }

    /** A revoked session resolves no port; an open one resolves exactly its own. */
    method ResolveTarget(port: Port) returns (found: bool)
      ensures found <==> !done && port in targets
    {
      if done { return false; }
      for i := 0 to |targets|
        invariant port !in targets[..i]
      {
        if targets[i] == port { return true; }
      }
      return false;
    }
  }

  class Registry {
    var records: map<string, Binding<Session>>
    ghost var issued: set<Session>

    ghost function Owners(): map<Session, string>
      reads this
    {
      map s | s in issued :: s.executionId
    }

    ghost function Model(): Reg<Session>
      reads this, issued
    {
      Reg(records, (set s | s in issued && s.done), Owners())
    }

    ghost predicate Valid()
      reads this, issued
    {
      && (forall x | x in records && records[x].session.Some? ::
            records[x].session.value in issued && records[x].session.value.executionId == x)
      && (forall s | s in issued :: !s.done <==> SessionOf(Model(), s.executionId) == Some(s))
    }

    constructor ()
      ensures Valid() && Model() == EmptyReg()
    {
      records, issued := map[], {};
    }

    method Bind(x: string, peerKey: seq<byte>, targets: seq<Port>) returns (ok: bool)
      requires Valid()
      modifies this`records
      ensures Valid() && (ok <==> Bindable(x, peerKey, targets))
      ensures Model() == if ok then Bound(old(Model()), x, peerKey, targets) else old(Model())
      ensures ok <==> x != "" && peerKey != [] && targets != []
      ensures ok ==> records == old(records)[x := Binding(peerKey, targets, if x in old(records) then old(records)[x].session else None)]
      ensures !ok ==> records == old(records)
    {
      if x == "" || |peerKey| == 0 || |targets| == 0 { return false; }
      var session := if x in records then records[x].session else None;
      records := records[x := Binding(peerKey, targets, session)];
      assert forall y :: SessionOf(Model(), y) == old(SessionOf(Model(), y));
      ok := true;
    }

    method Open(x: string, peerKey: seq<byte>) returns (r: Option<Session>, err: Option<OpenError>)
      requires Valid()
      modifies this
      ensures Valid() && err == OpenRefusal(old(Model()), x, peerKey) && (r.Some? <==> err.None?)
      ensures r.Some? <==> x != "" && x in old(records) && old(records)[x].peerKey == peerKey && old(records)[x].session.None?
      ensures err.Some? ==> Model() == old(Model()) && issued == old(issued)
      ensures err == Some(MissingId) <==> x == ""
      ensures err == Some(NotBound) <==> x != "" && x !in old(records)
      ensures err == Some(KeyMismatch) <==> x != "" && x in old(records) && old(records)[x].peerKey != peerKey
      ensures r.Some? ==> records == old(records)[x := old(records)[x].(session := r)] && r.value.executionId == x && !r.value.done
      ensures r.Some? ==> fresh(r.value) && issued == old(issued) + {r.value} && Model() == Opened(old(Model()), x, r.value)
      ensures r.Some? ==> r.value.peerKey == peerKey && r.value.targets == old(records)[x].targets
    {
      if x == "" { return None, Some(MissingId); }
      if x !in records { return None, Some(NotBound); }
      var rec := records[x];
      if rec.peerKey != peerKey { return None, Some(KeyMismatch); }
      if rec.session.Some? { return None, Some(Busy); }
      var session := new Session(x, peerKey, rec.targets);
      records := records[x := rec.(session := Some(session))];
      issued := issued + {session};
      assert forall y :: SessionOf(Model(), y) == if y == x then Some(session) else old(SessionOf(Model(), y));
      return Some(session), None;
    }

    /** CloseSession keeps the binding. */
    method CloseSession(x: string)
      requires Valid()
      modifies this`records, issued
      ensures Valid() && Model() == SessionClosed(old(Model()), x)
      ensures x in old(records) ==> records == old(records)[x := old(records)[x].(session := None)]
      ensures x !in old(records) ==> records == old(records)
      ensures forall s | s in issued :: s.done <==> old(s.done) || (x in old(records) && old(records)[x].session == Some(s))
    {
      if x in records && records[x].session.Some? {
        var session := records[x].session.value;
        session.Close();
        records := records[x := records[x].(session := None)];
        assert forall y :: SessionOf(Model(), y) == if y == x then None else old(SessionOf(Model(), y));
      }
    }

    /** Invalidate drops the binding too. */
    method Invalidate(x: string)
      requires Valid()
      modifies this`records, issued
      ensures Valid() && Model() == Invalidated(old(Model()), x) && records == old(records) - {x}
      ensures forall s | s in issued :: s.done <==> old(s.done) || (x in old(records) && old(records)[x].session == Some(s))
    {
      if x in records && records[x].session.Some? {
        records[x].session.value.Close();
      }
      records := records - {x};
      assert forall y :: SessionOf(Model(), y) == if y == x then None else old(SessionOf(Model(), y));
    }

    method Release(session: Session)
      requires Valid() && session in issued
      modifies this`records, issued
      ensures Valid() && Model() == Released(old(Model()), session)
      ensures forall s | s in issued :: s.done <==> old(s.done) || s == session
      ensures records.Keys == old(records).Keys
      ensures forall x | x in records :: records[x] == if old(records)[x].session == Some(session) then old(records)[x].(session := None) else old(records)[x]
    {
      var x := session.executionId;
      if x in records && records[x].session == Some(session) {
        session.Close();
        records := records[x := records[x].(session := None)];
        assert forall y :: SessionOf(Model(), y) == if y == x then None else old(SessionOf(Model(), y));
      }
    }

    method Active(session: Session) returns (active: bool)
      requires Valid() && session in issued
      ensures active <==> !session.done
    {
      var x := session.executionId;
      active := x in records && records[x].session == Some(session);
    }
  }
}
