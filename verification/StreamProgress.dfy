/** Whole runs of one stream direction: every transfer completes, end of stream
    is honest, and exactly under which conditions. */
module StreamProgress {
  import opened Protocol
  import opened WindowProtocol

  // ------------------------------------------------------------------- composition

  /** A run leads from `h` to `k`. */
  ghost predicate Leads(t: Tuning, h: Half, k: Half) {
    exists halves, steps :: Run(t, halves, steps) && halves[0] == h && halves[|steps|] == k
  }

  lemma Stays(t: Tuning, h: Half)
    ensures Leads(t, h, h)
  {
    assert Run(t, [h], []) && [h][0] == h;
  }

  lemma Then(t: Tuning, h: Half, k: Half, step: Step)
    requires Leads(t, h, k) && CanTake(t, k, step)
    ensures Leads(t, h, Next(t, k, step))
  {
    hide CanTake, Next;
    var halves: seq<Half>, steps: seq<Step> :| Run(t, halves, steps) && halves[0] == h && halves[|steps|] == k;
    var longer, more := halves + [Next(t, k, step)], steps + [step];
    assert Run(t, longer, more) && longer[0] == h && longer[|more|] == Next(t, k, step);
  }

  // ------------------------------------------------------------------ total transfer

  /** The steps the two endpoints take of their own accord while the reader keeps reading. */
  predicate Working(step: Step) {
    step.Debit? || step.Emit? || step.EmitEnd? || step.Deliver? || step.Take? || step.EmitGrant? || step.Credit?
  }

  ghost predicate Resting(t: Tuning, h: Half) {
    forall step | Working(step) :: !CanTake(t, h, step)
  }

  predicate Unfinished(h: Half) {
    !h.deaf && !h.closing && (h.todo != [] || h.read != h.written)
  }

  ghost predicate Stuck(t: Tuning, h: Half) {
    Unfinished(h) && Resting(t, h)
  }

  predicate Roomy(t: Tuning) {
    t.window - (t.threshold - 1) >= t.segment
  }

  /** With everything delivered and credited, what batching withholds still leaves room for a segment. */
  lemma MovesOn(t: Tuning, h: Half) returns (step: Step)
    requires ValidTuning(t) && Roomy(t) && Sound(t, h) && Unfinished(h)
    ensures Working(step) && CanTake(t, h, step)
  {
    if h.staged != [] {
      step := Emit;
    } else if h.wire != [] {
      step := Deliver;
    } else if h.granted > 0 {
      step := EmitGrant;
    } else if h.inbox != [] {
      step := Take(1);
    } else if h.grants != [] {
      step := Credit;
    } else {
      assert h.lost == [] && h.read + [] + [] + [] + [] == h.read;
      step := Debit;
    }
  }

  lemma NotStuck(t: Tuning, h: Half)
    requires ValidTuning(t) && Roomy(t) && Sound(t, h)
    ensures !Stuck(t, h)
  {
    hide Sound, CanTake, Working, Unfinished;
    if Unfinished(h) {
      var step := MovesOn(t, h);
    }
  }

  function Weight(h: Half): nat {
    9 * |h.todo| + 8 * |h.staged| + (if h.endStaged then 2 else 0) + 6 * |Bytes(h.wire)| + |h.wire| + 5 * |h.inbox|
    + (if h.granted > 0 then 2 else 0) + |h.grants|
  }

  /** Every working step makes the outstanding work strictly smaller. */
  lemma WeightDrops(t: Tuning, h: Half, step: Step)
    requires ValidTuning(t) && Sound(t, h) && CanTake(t, h, step) && Working(step)
    ensures Weight(Next(t, h, step)) < Weight(h)
  {
    match step
    case Emit => BytesAppend(h.wire, Payload(h.staged));
    case EmitEnd => BytesAppend(h.wire, End);
    case Deliver => if h.wire[0].Payload? { FrontFits(t, h); }
    case Take(room) => hide Bytes;
    case _ =>
  }

  /** What a Write still owes and what it has handed over stay, together, the same bytes. */
  predicate SamePromise(h: Half, k: Half) {
    k.written + k.todo == h.written + h.todo && k.deaf == h.deaf && k.closing == h.closing
  }

  lemma PromiseKept(t: Tuning, h: Half, step: Step)
    requires CanTake(t, h, step) && Working(step)
    ensures SamePromise(h, Next(t, h, step))
  {
    hide Bytes, Taken;
    if step.Debit? {
      var seg := NextSegment(t, h.todo);
      assert h.todo == seg + h.todo[|seg|..];
      assert h.written + seg + h.todo[|seg|..] == h.written + (seg + h.todo[|seg|..]);
    } else if step.Take? {
      TakeKeeps(t, h, step.room);
    }
  }

  lemma TakeKeeps(t: Tuning, h: Half, room: nat)
    ensures SamePromise(h, Taken(t, h, room))
  {
  }

  lemma {:induction false} TransferBounded(t: Tuning, halves: seq<Half>, steps: seq<Step>, n: nat)
    requires ValidTuning(t) && Run(t, halves, steps) && Sound(t, halves[0]) && n <= |steps|
    requires forall i | 0 <= i < |steps| :: Working(steps[i])
    ensures n + Weight(halves[n]) <= Weight(halves[0]) && SamePromise(halves[0], halves[n])
  {
    hide Sound, CanTake, Next, Working, Weight;
    if n > 0 {
      TransferBounded(t, halves, steps, n - 1);
      RunSound(t, halves, steps, n - 1);
      WeightDrops(t, halves[n - 1], steps[n - 1]);
      PromiseKept(t, halves[n - 1], steps[n - 1]);
    }
  }

  /** For any Write, any segmentation and any schedule in which the reader keeps reading: the run is no longer
      than the outstanding work, and once nothing can move every byte has been read, in order. */
  lemma TransferCompletes(t: Tuning, halves: seq<Half>, steps: seq<Step>)
    requires ValidTuning(t) && Roomy(t) && Run(t, halves, steps) && Reachable(t, halves[0])
    requires !halves[0].deaf && !halves[0].closing && forall i | 0 <= i < |steps| :: Working(steps[i])
    ensures |steps| <= Weight(halves[0])
    ensures Resting(t, halves[|steps|]) ==>
      halves[|steps|].todo == [] && halves[|steps|].read == halves[0].written + halves[0].todo
  {
    ReachableSound(t, halves[0]);
    TransferBounded(t, halves, steps, |steps|);
    RunSound(t, halves, steps, |steps|);
    hide Sound, CanTake, Reachable, Working, Resting;
    NotStuck(t, halves[|steps|]);
    assert halves[|steps|].todo == [] ==> halves[|steps|].written + halves[|steps|].todo == halves[|steps|].written;
  }

  // ------------------------------------------------- the condition is the exact one

  function Times(k: nat): seq<byte> {
    seq(k, _ => 0)
  }

  /** After `k` single bytes, all read, none granted back. */
  function Idle(t: Tuning, k: nat): Half {
    Half([], [], false, false, t.window - k, [], [], false, false, t.window, k, 0, false, [], Times(k), Times(k), [])
  }

  lemma OneByte(t: Tuning, k: nat)
    requires ValidTuning(t) && k + 1 < t.threshold && k + 1 <= t.window && Reachable(t, Idle(t, k))
    ensures Reachable(t, Idle(t, k + 1))
  {
    hide Reachable;
    var h := Idle(t, k);
    Follow(t, h, Start([0]));
    var h1 := Next(t, h, Start([0]));
    Follow(t, h1, Debit);
    var h2 := Next(t, h1, Debit);
    Follow(t, h2, Emit);
    var h3 := Next(t, h2, Emit);
    Follow(t, h3, Deliver);
    var h4 := Next(t, h3, Deliver);
    Follow(t, h4, Take(1));
    assert Times(k) + [0] == Times(k + 1);
    assert Next(t, h4, Take(1)) == Idle(t, k + 1);
  }

  lemma Follow(t: Tuning, h: Half, step: Step)
    requires Reachable(t, h) && CanTake(t, h, step)
    ensures Reachable(t, Next(t, h, step))
  {
    hide CanTake, Next;
    assert Leads(t, Fresh(t), h);
    Then(t, Fresh(t), h, step);
  }

  lemma {:induction false} IdleReachable(t: Tuning, k: nat)
    requires ValidTuning(t) && k < t.threshold && k <= t.window
    ensures Reachable(t, Idle(t, k))
  {
    if k == 0 {
      Stays(t, Fresh(t));
      assert Leads(t, Fresh(t), Fresh(t)) && Idle(t, 0) == Fresh(t);
    } else {
      IdleReachable(t, k - 1);
      OneByte(t, k - 1);
    }
  }

  /** Without the room, some run gets stuck with bytes still to send. */
  lemma Starves(t: Tuning)
    requires ValidTuning(t) && !Roomy(t)
    ensures exists h :: Reachable(t, h) && Stuck(t, h)
  {
    var k := Least(t.threshold - 1, t.window);
    IdleReachable(t, k);
    Follow(t, Idle(t, k), Start(Times(t.segment)));
    hide Reachable;
    var h := Next(t, Idle(t, k), Start(Times(t.segment)));
    assert NextSegment(t, h.todo) == h.todo;
    assert Stuck(t, h);
  }

  /** No reachable state is stuck exactly when the window, less what batching may withhold, holds a segment. */
  lemma NeverStuckExactly(t: Tuning)
    requires ValidTuning(t)
    ensures (forall h | Reachable(t, h) :: !Stuck(t, h)) <==> Roomy(t)
  {
    hide Stuck, Reachable;
    if Roomy(t) {
      forall h | Reachable(t, h) ensures !Stuck(t, h) {
        ReachableSound(t, h);
        NotStuck(t, h);
      }
    } else {
      Starves(t);
    }
  }

  // ------------------------------------------------------------------ end of stream

  predicate NoEnd(wire: seq<Packet>) {
    forall i | 0 <= i < |wire| :: wire[i].Payload?
  }

  predicate EndLast(wire: seq<Packet>) {
    forall i | 0 <= i < |wire| - 1 :: wire[i].Payload?
  }

  predicate Open(h: Half) {
    !h.closing ==> !h.endStaged && !h.eof && NoEnd(h.wire)
  }

  /** After a quiet close nothing is staged and the end marker is behind every payload. */
  predicate Ending(h: Half) {
    h.closing ==> h.staged == [] && EndLast(h.wire) && (h.endStaged ==> !h.eof && NoEnd(h.wire)) && (h.eof ==> h.wire == [] && !h.endStaged)
  }

  predicate QuietRun(halves: seq<Half>, steps: seq<Step>)
    requires |halves| == |steps| + 1
  {
    forall i | 0 <= i < |steps| && steps[i].Finish? :: halves[i].staged == []
  }

  lemma EndStep(t: Tuning, h: Half, step: Step)
    requires CanTake(t, h, step) && Open(h)
    ensures Open(Next(t, h, step))
    ensures Ending(h) && (step.Finish? ==> h.staged == []) ==> Ending(Next(t, h, step))
  {
  }

  lemma {:induction false} EndRun(t: Tuning, halves: seq<Half>, steps: seq<Step>, n: nat)
    requires Run(t, halves, steps) && Open(halves[0]) && n <= |steps|
    ensures Open(halves[n])
    ensures Ending(halves[0]) && QuietRun(halves, steps) ==> Ending(halves[n])
  {
    if n > 0 {
      hide CanTake, Next, Open, Ending;
      EndRun(t, halves, steps, n - 1);
      EndStep(t, halves[n - 1], steps[n - 1]);
    }
  }

  /** If no CloseWrite falls between a Write's decision and its packet, a drained reader that sees end of
      stream has read every byte written. */
  lemma HonestEof(t: Tuning, halves: seq<Half>, steps: seq<Step>, n: nat)
    requires ValidTuning(t) && Run(t, halves, steps) && halves[0] == Fresh(t) && n <= |steps| && QuietRun(halves, steps)
    ensures halves[n].eof ==> halves[n].written == halves[n].read + halves[n].lost + halves[n].inbox
    ensures halves[n].eof && halves[n].inbox == [] && !halves[n].deaf ==> halves[n].read == halves[n].written
  {
    FreshSound(t);
    RunSound(t, halves, steps, n);
    EndRun(t, halves, steps, n);
    hide Run, QuietRun;
    var h := halves[n];
    if h.eof {
      assert h.wire == [] && h.staged == [];
      assert h.read + h.lost + h.inbox + [] + [] == h.read + h.lost + h.inbox;
      if h.inbox == [] && !h.deaf { assert h.read + [] + [] == h.read; }
    }
  }

  lemma {:induction false} Drains(t: Tuning, g: Half, h: Half)
    requires ValidTuning(t) && Leads(t, g, h) && Sound(t, h) && (h.eof || End in h.wire)
    ensures exists k: Half :: Leads(t, g, k) && Sound(t, k) && k.eof && k.wire == [] && k.staged == h.staged
    decreases |h.wire|
  {
    if h.wire == [] {
      assert Leads(t, g, h) && h.eof;
    } else {
      hide Leads;
      Then(t, g, h, Deliver);
      StepSound(t, h, Deliver);
      assert h.wire == [h.wire[0]] + h.wire[1..];
      Drains(t, g, Next(t, h, Deliver));
    }
  }

  /** Closing the write side now keeps end of stream honest in every continuation exactly when no segment is
      between its decision and its packet. */
  lemma CloseHonestExactly(t: Tuning, h: Half)
    requires ValidTuning(t) && Reachable(t, h) && !h.closing
    ensures (forall k | Leads(t, Next(t, h, Finish), k) && k.eof :: k.written == k.read + k.lost + k.inbox) <==> h.staged == []
  {
    ReachableSound(t, h);
    ReachableOpen(t, h);
    var f := Next(t, h, Finish);
    if h.staged == [] {
      forall k | Leads(t, f, k) && k.eof ensures k.written == k.read + k.lost + k.inbox {
        QuietContinuation(t, f, k);
      }
    } else {
      LoudContinuation(t, h);
    }
  }

  lemma ReachableOpen(t: Tuning, h: Half)
    requires Reachable(t, h)
    ensures Open(h)
  {
    hide CanTake, Next;
    var halves: seq<Half>, steps: seq<Step> :| Run(t, halves, steps) && halves[0] == Fresh(t) && halves[|steps|] == h;
    EndRun(t, halves, steps, |steps|);
  }

  lemma {:induction false} ClosedStays(t: Tuning, halves: seq<Half>, steps: seq<Step>, n: nat)
    requires Run(t, halves, steps) && halves[0].closing && n <= |steps|
    ensures halves[n].closing
  {
    if n > 0 {
      ClosedStays(t, halves, steps, n - 1);
      hide Bytes, Taken;
      assert CanTake(t, halves[n - 1], steps[n - 1]);
      ClosingStays(t, halves[n - 1], steps[n - 1]);
      hide Next, CanTake;
    }
  }

  lemma ClosingStays(t: Tuning, h: Half, step: Step)
    requires CanTake(t, h, step) && h.closing
    ensures Next(t, h, step).closing && !step.Finish?
  {
    hide Taken, Bytes;
    if step.Take? { TakeKeeps(t, h, step.room); }
  }

  lemma QuietContinuation(t: Tuning, f: Half, k: Half)
    requires ValidTuning(t) && Sound(t, f) && Open(f) && Ending(f) && f.closing && Leads(t, f, k) && k.eof
    ensures k.written == k.read + k.lost + k.inbox
  {
    var halves: seq<Half>, steps: seq<Step> :| Run(t, halves, steps) && halves[0] == f && halves[|steps|] == k;
    forall i | 0 <= i < |steps| ensures !steps[i].Finish? {
      ClosedStays(t, halves, steps, i);
      ClosingStays(t, halves[i], steps[i]);
    }
    EndRun(t, halves, steps, |steps|);
    RunSound(t, halves, steps, |steps|);
    ClosedStays(t, halves, steps, |steps|);
    hide Run;
    assert k.read + k.lost + k.inbox + [] + [] == k.read + k.lost + k.inbox;
  }

  lemma LoudContinuation(t: Tuning, h: Half)
    requires ValidTuning(t) && Sound(t, h) && !h.closing && h.staged != []
    ensures exists k: Half :: Leads(t, Next(t, h, Finish), k) && k.eof && k.written != k.read + k.lost + k.inbox
  {
    var f := Next(t, h, Finish);
    StepSound(t, h, Finish);
    Stays(t, f);
    Then(t, f, f, EmitEnd);
    StepSound(t, f, EmitEnd);
    var e := Next(t, f, EmitEnd);
    assert e.wire[|e.wire| - 1] == End;
    hide Leads;
    Drains(t, f, e);
    var k: Half :| Leads(t, f, k) && Sound(t, k) && k.eof && k.wire == [] && k.staged == h.staged;
    assert |k.written| == |k.read + k.lost + k.inbox| + |k.staged|;
  }

  // ------------------------------------------------------------- after CloseRead

  /** The credit the writer has or will still get. */
  function CreditLeft(h: Half): int {
    h.window + h.granted + Sum(h.grants)
  }

  /** Once the reader is deaf no credit is made: every byte written is paid from what was left. */
  lemma DeafStep(t: Tuning, h: Half, step: Step)
    requires CanTake(t, h, step) && h.deaf
    ensures var k := Next(t, h, step);
      k.deaf && k.pending == h.pending && k.read == h.read && CreditLeft(k) + |k.written| == CreditLeft(h) + |h.written|
  {
    hide Bytes, Taken, NextSegment, Delivered;
    if step == EmitGrant {
      SumAppend(h.grants, h.granted);
    } else if step == Deliver {
      DeliverKeepsCredit(h);
    }
  }

  lemma DeliverKeepsCredit(h: Half)
    requires h.wire != []
    ensures var k := Delivered(h);
      && k.deaf == h.deaf && k.pending == h.pending && k.read == h.read && k.written == h.written
      && k.window == h.window && k.granted == h.granted && k.grants == h.grants
  {
    if h.wire[0].Payload? && |h.wire[0].bytes| <= h.avail {
      assert Delivered(h) == h.(wire := h.wire[1..], avail := h.avail - |h.wire[0].bytes|, inbox := h.inbox + h.wire[0].bytes);
    }
  }

  lemma {:induction false} DeafRun(t: Tuning, halves: seq<Half>, steps: seq<Step>, n: nat)
    requires Run(t, halves, steps) && halves[0].deaf && n <= |steps|
    ensures halves[n].deaf && halves[n].pending == halves[0].pending && halves[n].read == halves[0].read
    ensures CreditLeft(halves[n]) + |halves[n].written| == CreditLeft(halves[0]) + |halves[0].written|
  {
    if n > 0 {
      hide CanTake, Next, CreditLeft;
      DeafRun(t, halves, steps, n - 1);
      DeafStep(t, halves[n - 1], steps[n - 1]);
    }
  }

  /** After CloseRead, in every continuation: the peer can write exactly the credit left and then stalls, its next
      segment clearing exactly when it fits what is not yet written; and all the discarded buffer ever takes stays
      within the window less the credit never granted. */
  lemma DeafPeerStalls(t: Tuning, halves: seq<Half>, steps: seq<Step>, n: nat)
    requires ValidTuning(t) && Run(t, halves, steps) && Reachable(t, halves[0]) && halves[0].deaf && n <= |steps|
    ensures var h, k := halves[0], halves[n]; var more := |k.written| - |h.written|;
      && 0 <= more <= CreditLeft(h) && |k.lost| + |k.inbox| <= t.window - h.pending
      && (k.granted == 0 && k.grants == [] && k.todo != [] && k.staged == [] && !k.closing ==>
            (CanTake(t, k, Debit) <==> |NextSegment(t, k.todo)| <= CreditLeft(h) - more))
  {
    ReachableSound(t, halves[0]);
    RunSound(t, halves, steps, n);
    DeafRun(t, halves, steps, n);
    WrittenGrows(t, halves, steps, n);
    hide Run, Reachable, Bytes;
  }

  lemma {:induction false} WrittenGrows(t: Tuning, halves: seq<Half>, steps: seq<Step>, n: nat)
    requires Run(t, halves, steps) && n <= |steps|
    ensures |halves[0].written| <= |halves[n].written|
  {
    if n > 0 {
      WrittenGrows(t, halves, steps, n - 1);
      WrittenStep(t, halves[n - 1], steps[n - 1]);
      hide CanTake, Next;
    }
  }

  lemma WrittenStep(t: Tuning, h: Half, step: Step)
    requires CanTake(t, h, step)
    ensures |h.written| <= |Next(t, h, step).written|
  {
    hide Bytes, Taken;
    if step.Take? { TakeKeepsWritten(t, h, step.room); }
  }

  lemma TakeKeepsWritten(t: Tuning, h: Half, room: nat)
    ensures Taken(t, h, room).written == h.written
  {
  }

  /** And it does take: a run that delivers a byte to a reader that has closed its side. */
  lemma DeafStillTakes(t: Tuning)
    requires ValidTuning(t) && t.window >= 1
    ensures exists h :: Reachable(t, h) && h.deaf && h.inbox == [0]
  {
    IdleReachable(t, 0);
    hide Reachable;
    var h := Idle(t, 0);
    Follow(t, h, Start([0]));
    var h1 := Next(t, h, Start([0]));
    Follow(t, h1, Debit);
    var h2 := Next(t, h1, Debit);
    Follow(t, h2, Emit);
    var h3 := Next(t, h2, Emit);
    Follow(t, h3, Hush);
    var h4 := Next(t, h3, Hush);
    Follow(t, h4, Deliver);
    assert Next(t, h4, Deliver).inbox == [0];
  }

  // ------------------------------------------------------------- after CloseWrite

  /** After a close the end marker is still to come, on its way, or there. */
  predicate EndComes(h: Half) {
    h.closing ==> h.endStaged || h.eof || End in h.wire
  }

  lemma EndComesStep(t: Tuning, h: Half, step: Step)
    requires CanTake(t, h, step) && EndComes(h)
    ensures EndComes(Next(t, h, step))
  {
    hide Bytes, Taken;
    if step.Take? {
      TakeKeepsEnd(t, h, step.room);
    } else if step.Deliver? {
      assert h.wire == [h.wire[0]] + h.wire[1..];
    }
  }

  lemma TakeKeepsEnd(t: Tuning, h: Half, room: nat)
    ensures var k := Taken(t, h, room); k.closing == h.closing && k.endStaged == h.endStaged && k.eof == h.eof && k.wire == h.wire
  {
  }

  lemma {:induction false} EndComesRun(t: Tuning, halves: seq<Half>, steps: seq<Step>, n: nat)
    requires Run(t, halves, steps) && EndComes(halves[0]) && n <= |steps|
    ensures EndComes(halves[n])
  {
    if n > 0 {
      hide CanTake, Next, EndComes;
      EndComesRun(t, halves, steps, n - 1);
      EndComesStep(t, halves[n - 1], steps[n - 1]);
    }
  }

  lemma ReachableEndComes(t: Tuning, h: Half)
    requires Reachable(t, h)
    ensures EndComes(h)
  {
    hide CanTake, Next;
    var halves: seq<Half>, steps: seq<Step> :| Run(t, halves, steps) && halves[0] == Fresh(t) && halves[|steps|] == h;
    EndComesRun(t, halves, steps, |steps|);
  }

  lemma RestsDrained(t: Tuning, h: Half)
    requires Sound(t, h) && EndComes(h) && h.closing && !h.deaf && Resting(t, h)
    ensures h.read == h.written && h.eof
  {
    assert Working(Emit) && Working(EmitEnd) && Working(Deliver) && Working(EmitGrant) && Working(Take(1));
    assert !CanTake(t, h, Emit) && !CanTake(t, h, EmitEnd) && !CanTake(t, h, Deliver) && !CanTake(t, h, EmitGrant) && !CanTake(t, h, Take(1));
    assert h.read + [] + [] + [] + [] == h.read;
  }

  /** A transfer whose write side is closed completes as well, with no condition on the window: the run is no
      longer than the outstanding work, and once nothing can move every byte handed over has been read and the
      reader has seen the end. */
  lemma ClosedTransferCompletes(t: Tuning, halves: seq<Half>, steps: seq<Step>)
    requires ValidTuning(t) && Run(t, halves, steps) && Reachable(t, halves[0])
    requires !halves[0].deaf && halves[0].closing && forall i | 0 <= i < |steps| :: Working(steps[i])
    ensures |steps| <= Weight(halves[0])
    ensures Resting(t, halves[|steps|]) ==> halves[|steps|].read == halves[0].written && halves[|steps|].eof
  {
    ReachableSound(t, halves[0]);
    ReachableEndComes(t, halves[0]);
    TransferBounded(t, halves, steps, |steps|);
    RunSound(t, halves, steps, |steps|);
    EndComesRun(t, halves, steps, |steps|);
    ClosedWritesNothing(t, halves, steps, |steps|);
    hide Sound, CanTake, Reachable, Working, Resting, EndComes;
    if Resting(t, halves[|steps|]) { RestsDrained(t, halves[|steps|]); }
  }

  lemma {:induction false} ClosedWritesNothing(t: Tuning, halves: seq<Half>, steps: seq<Step>, n: nat)
    requires Run(t, halves, steps) && halves[0].closing && n <= |steps|
    ensures halves[n].closing && halves[n].written == halves[0].written
  {
    if n > 0 {
      ClosedWritesNothing(t, halves, steps, n - 1);
      ClosedWriteStep(t, halves[n - 1], steps[n - 1]);
      hide CanTake, Next;
    }
  }

  lemma ClosedWriteStep(t: Tuning, h: Half, step: Step)
    requires CanTake(t, h, step) && h.closing
    ensures Next(t, h, step).closing && Next(t, h, step).written == h.written
  {
    hide Bytes, Taken;
    if step.Take? { TakeKeeps(t, h, step.room); TakeKeepsWritten(t, h, step.room); }
  }

  // ---------------------------------------------------------------- shipped constants

  const WINDOW := 64 * 1024
  const THRESHOLD := 16 * 1024
  const MAX_SEGMENT := 16 * 1024

  /** newPair's segment size for a packet interface with the given MTU. */
  function SegmentFor(mtu: int): (n: nat)
    ensures 1 <= n <= MAX_SEGMENT
  {
    if mtu - 7 <= 0 || mtu - 7 > MAX_SEGMENT then MAX_SEGMENT else mtu - 7
  }

  function Shipped(mtu: int): Tuning {
    Tuning(WINDOW, THRESHOLD, SegmentFor(mtu))
  }

  /** The shipped constants have the room, whatever the MTU. */
  lemma ShippedNeverStuck(mtu: int, h: Half)
    requires Reachable(Shipped(mtu), h)
    ensures !Stuck(Shipped(mtu), h) && |h.inbox| <= WINDOW && !h.violated
  {
    hide Stuck, Reachable;
    CreditAndFidelity(Shipped(mtu), h);
    NeverStuckExactly(Shipped(mtu));
  }
}
