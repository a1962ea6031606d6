/** One direction of a stream: a writer, a FIFO wire, a reader, and the credit
    that flows back. Every point where the source releases its lock between a
    decision and the packet it leads to is a state of its own. */
module WindowProtocol {
  import opened Protocol

  /** The receive window, the update threshold and the largest segment. */
  datatype Tuning = Tuning(window: nat, threshold: nat, segment: nat)

  predicate ValidTuning(t: Tuning) {
    t.threshold >= 1 && t.segment >= 1
  }

  datatype Packet = Payload(bytes: seq<byte>) | End

  /** Writer: `todo` is what the current Write has left, `staged` a segment whose credit is spent but whose
      packet is not out yet. Reader: `granted` is an update computed but not out yet. `written`, `read` and
      `lost` record history. */
  datatype Half = Half(
    todo: seq<byte>, staged: seq<byte>, closing: bool, endStaged: bool, window: int,
    wire: seq<Packet>,
    inbox: seq<byte>, eof: bool, deaf: bool, avail: int, pending: nat, granted: nat, violated: bool,
    grants: seq<nat>,
    written: seq<byte>, read: seq<byte>, lost: seq<byte>)

  function Fresh(t: Tuning): Half {
    Half([], [], false, false, t.window, [], [], false, false, t.window, 0, 0, false, [], [], [], [])
  }

  datatype Step =
    | Start(p: seq<byte>) | Debit | Emit | Finish | EmitEnd
    | Deliver | Take(room: nat) | EmitGrant | Credit | Hush

  function NextSegment(t: Tuning, todo: seq<byte>): seq<byte> {
    if |todo| <= t.segment then todo else todo[..t.segment]
  }

  predicate CanTake(t: Tuning, h: Half, step: Step) {
    match step
    case Start(p) => h.todo == [] && h.staged == [] && !h.closing
    case Debit => h.todo != [] && h.staged == [] && !h.closing && h.window >= |NextSegment(t, h.todo)|
    case Emit => h.staged != []
    case Finish => !h.closing
    case EmitEnd => h.endStaged
    case Deliver => h.wire != []
    case Take(room) => h.inbox != [] && !h.deaf && h.granted == 0 && room > 0
    case EmitGrant => h.granted > 0
    case Credit => h.grants != []
    case Hush => true
  }

  function Least(a: nat, b: nat): nat {
    if a < b then a else b
  }

  function Taken(t: Tuning, h: Half, room: nat): Half {
    var n := Least(room, |h.inbox|);
    var due := h.pending + n;
    h.(inbox := h.inbox[n..], read := h.read + h.inbox[..n], avail := h.avail + n,
       pending := if due >= t.threshold then 0 else due, granted := if due >= t.threshold then due else h.granted)
  }

  function Delivered(h: Half): Half
    requires h.wire != []
  {
    var rest := h.(wire := h.wire[1..]);
    match h.wire[0]
    case End => rest.(eof := true)
    case Payload(bytes) =>
      if |bytes| > h.avail then rest.(violated := true) else rest.(avail := h.avail - |bytes|, inbox := h.inbox + bytes)
  }

  function Next(t: Tuning, h: Half, step: Step): Half
    requires CanTake(t, h, step)
  {
    match step
    case Start(p) => h.(todo := p)
    case Debit =>
      var seg := NextSegment(t, h.todo);
      h.(todo := h.todo[|seg|..], staged := seg, window := h.window - |seg|, written := h.written + seg)
    case Emit => h.(wire := h.wire + [Payload(h.staged)], staged := [])
    case Finish => h.(closing := true, endStaged := true)
    case EmitEnd => h.(wire := h.wire + [End], endStaged := false)
    case Deliver => Delivered(h)
    case Take(room) => Taken(t, h, room)
    case EmitGrant => h.(grants := h.grants + [h.granted], granted := 0)
    case Credit => h.(window := h.window + h.grants[0], grants := h.grants[1..])
    case Hush => h.(deaf := true, lost := h.lost + h.inbox, inbox := [])
  }

  // ----------------------------------------------------------- sums over the queues

  function Bytes(wire: seq<Packet>): seq<byte> {
    if wire == [] then [] else (if wire[0].Payload? then wire[0].bytes else []) + Bytes(wire[1..])
  }

  function Sum(grants: seq<nat>): nat {
    if grants == [] then 0 else grants[0] + Sum(grants[1..])
  }

  lemma {:induction false} BytesAppend(wire: seq<Packet>, p: Packet)
    ensures Bytes(wire + [p]) == Bytes(wire) + (if p.Payload? then p.bytes else [])
  {
    if wire == [] {
      assert wire + [p] == [p] && [p][1..] == [];
    } else {
      BytesAppend(wire[1..], p);
      assert (wire + [p])[1..] == wire[1..] + [p];
    }
  }

  lemma {:induction false} SumAppend(grants: seq<nat>, n: nat)
    ensures Sum(grants + [n]) == Sum(grants) + n
  {
    if grants == [] {
      assert grants + [n] == [n] && [n][1..] == [];
    } else {
      SumAppend(grants[1..], n);
      assert (grants + [n])[1..] == grants[1..] + [n];
    }
  }

  // ------------------------------------------------------------------- invariants

  /** Every byte of the window is somewhere: free at the writer, on its way, unread, lost, or on its way back. */
  predicate Conserved(t: Tuning, h: Half) {
    h.window + |h.staged| + |Bytes(h.wire)| + |h.inbox| + |h.lost| + h.pending + h.granted + Sum(h.grants) == t.window
  }

  /** What the reader has and will get is what was written, in order. */
  predicate Faithful(h: Half) {
    h.written == h.read + h.lost + h.inbox + Bytes(h.wire) + h.staged
  }

  predicate Sound(t: Tuning, h: Half) {
    && Conserved(t, h) && Faithful(h) && !h.violated
    && h.window >= 0 && h.avail + |h.inbox| + |h.lost| == t.window && h.pending < t.threshold
    && (h.lost != [] ==> h.deaf)
    && (forall i | 0 <= i < |h.wire| && h.wire[i].Payload? :: h.wire[i].bytes != [])
  }

  lemma FreshSound(t: Tuning)
    requires ValidTuning(t)
    ensures Sound(t, Fresh(t))
  {
  }

  lemma DebitSound(t: Tuning, h: Half)
    requires Sound(t, h) && CanTake(t, h, Debit)
    ensures Sound(t, Next(t, h, Debit))
  {
  }

  lemma EmitSound(t: Tuning, h: Half, step: Step)
    requires Sound(t, h) && CanTake(t, h, step) && (step == Emit || step == EmitEnd)
    ensures Sound(t, Next(t, h, step))
  {
    var p := if step == Emit then Payload(h.staged) else End;
    BytesAppend(h.wire, p);
  }

  lemma Arrives(a: seq<byte>, i: seq<byte>, p: seq<byte>, rest: seq<byte>, z: seq<byte>)
    ensures a + i + (p + rest) + z == a + (i + p) + rest + z
  {
  }

  lemma Leaves(r: seq<byte>, i: seq<byte>, n: nat, z: seq<byte>)
    requires n <= |i|
    ensures r + [] + i + z == (r + i[..n]) + [] + i[n..] + z
  {
    assert i == i[..n] + i[n..];
  }

  /** The packet in front fits: what is free at the reader covers all that is on its way. */
  lemma FrontFits(t: Tuning, h: Half)
    requires Sound(t, h) && h.wire != [] && h.wire[0].Payload?
    ensures |h.wire[0].bytes| <= h.avail
    ensures Bytes(h.wire) == h.wire[0].bytes + Bytes(h.wire[1..])
  {
  }

  lemma DeliverSound(t: Tuning, h: Half)
    requires Sound(t, h) && h.wire != []
    ensures Sound(t, Delivered(h))
  {
    if h.wire[0].Payload? {
      FrontFits(t, h);
      Arrives(h.read + h.lost, h.inbox, h.wire[0].bytes, Bytes(h.wire[1..]), h.staged);
      hide Bytes, Sum;
    } else {
      assert Bytes(h.wire) == [] + Bytes(h.wire[1..]) == Bytes(h.wire[1..]);
      hide Bytes, Sum;
    }
  }

  lemma TakeSound(t: Tuning, h: Half, room: nat)
    requires Sound(t, h) && CanTake(t, h, Take(room))
    ensures Sound(t, Taken(t, h, room))
  {
    hide Bytes, Sum;
    var n := Least(room, |h.inbox|);
    assert h.lost == [];
    Leaves(h.read, h.inbox, n, Bytes(h.wire) + h.staged);
    assert h.read + h.lost + h.inbox + Bytes(h.wire) + h.staged == h.read + [] + h.inbox + (Bytes(h.wire) + h.staged);
    var k := Taken(t, h, room);
    assert k.read + k.lost + k.inbox + Bytes(k.wire) + k.staged == k.read + [] + k.inbox + (Bytes(h.wire) + h.staged);
  }

  lemma GrantSound(t: Tuning, h: Half)
    requires Sound(t, h) && CanTake(t, h, EmitGrant)
    ensures Sound(t, Next(t, h, EmitGrant))
  {
    SumAppend(h.grants, h.granted);
  }

  lemma HushSound(t: Tuning, h: Half)
    requires Sound(t, h)
    ensures Sound(t, Next(t, h, Hush))
  {
    assert h.read + h.lost + h.inbox == h.read + (h.lost + h.inbox) + [];
  }

  /** Every step keeps credit and bytes, so an honest writer never trips the reader's violation branch. */
  lemma StepSound(t: Tuning, h: Half, step: Step)
    requires ValidTuning(t) && Sound(t, h) && CanTake(t, h, step)
    ensures Sound(t, Next(t, h, step))
  {
    match step
    case Debit => DebitSound(t, h);
    case Emit => EmitSound(t, h, step);
    case EmitEnd => EmitSound(t, h, step);
    case Deliver => DeliverSound(t, h);
    case Take(room) => TakeSound(t, h, room);
    case EmitGrant => GrantSound(t, h);
    case Hush => HushSound(t, h);
    case _ =>
  }

  // ------------------------------------------------------------------------- runs

  ghost predicate Run(t: Tuning, halves: seq<Half>, steps: seq<Step>) {
    && |halves| == |steps| + 1
    && forall i | 0 <= i < |steps| :: CanTake(t, halves[i], steps[i]) && halves[i + 1] == Next(t, halves[i], steps[i])
  }

  ghost predicate Reachable(t: Tuning, h: Half) {
    exists halves, steps :: Run(t, halves, steps) && halves[0] == Fresh(t) && halves[|steps|] == h
  }

  lemma {:induction false} RunSound(t: Tuning, halves: seq<Half>, steps: seq<Step>, n: nat)
    requires ValidTuning(t) && Run(t, halves, steps) && Sound(t, halves[0]) && n <= |steps|
    ensures Sound(t, halves[n])
  {
    if n > 0 {
      hide Sound, CanTake, Next;
      RunSound(t, halves, steps, n - 1);
      StepSound(t, halves[n - 1], steps[n - 1]);
    }
  }

  lemma ReachableSound(t: Tuning, h: Half)
    requires ValidTuning(t) && Reachable(t, h)
    ensures Sound(t, h)
  {
    hide Sound, CanTake, Next;
    var halves, steps :| Run(t, halves, steps) && halves[0] == Fresh(t) && halves[|steps|] == h;
    FreshSound(t);
    RunSound(t, halves, steps, |steps|);
  }

  /** Credit is conserved, nothing is reordered, dropped or made up, the inbox stays within the window and
      the violation branch is never taken. */
  lemma CreditAndFidelity(t: Tuning, h: Half)
    requires ValidTuning(t) && Reachable(t, h)
    ensures Conserved(t, h) && Faithful(h) && !h.violated && |h.inbox| <= t.window
    ensures h.wire != [] && h.wire[0].Payload? ==> |h.wire[0].bytes| <= h.avail
  {
    ReachableSound(t, h);
    hide Reachable;
    if h.wire != [] && h.wire[0].Payload? { assert |Bytes(h.wire)| >= |h.wire[0].bytes|; }
  }
}
