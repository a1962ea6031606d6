/** Both directions of a stream make progress together, although grants and data
    of the two share the same queues: every transfer completes in both. */
module DuplexProgress {
  import opened Framing
  import opened StreamProgress
  import opened Duplex
  import W = WindowProtocol

  /** The moves the endpoints make of their own accord while both keep reading. */
  predicate WorkingMove(m: Move) {
    m.Debit? || m.Emit? || m.EmitEnd? || m.Deliver? || m.Take? || m.EmitGrant?
  }

  /** One direction takes a working step. */
  ghost predicate Advances(t: W.Tuning, h: W.Half, k: W.Half) {
    exists step :: Working(step) && W.CanTake(t, h, step) && k == W.Next(t, h, step)
  }

  /** Exactly one direction takes a working step and the other none. */
  ghost predicate OneAdvances(l: Link, k: Link) {
    || (Advances(TuningOf(l.near), Outward(l), Outward(k)) && Inward(k) == Inward(l))
    || (Advances(TuningOf(l.far), Inward(l), Inward(k)) && Outward(k) == Outward(l))
  }

  lemma MoveAdvances(l: Link, m: Move)
    requires Good(l) && Can(l, m) && WorkingMove(m)
    ensures OneAdvances(l, Moved(l, m))
  {
    if m.Take? {
      TakeMoves(l, m.room);
    } else if m.EmitGrant? {
      GrantMoves(l);
    } else if m.Deliver? {
      if l.back[0].kind == WINDOW_UPDATE {
        UpdateArrives(l);
      } else {
        PacketArrives(l);
        assert Inward(Moved(l, m)) == W.Next(TuningOf(l.far), Inward(l), W.Deliver);
      }
    } else {
      WriterMoves(l, m);
      assert Working(WriterStep(m));
    }
    hide W.CanTake, W.Next, Outward, Moved, Good, Can, W.Delivered;
  }

  /** Either endpoint makes a working move. */
  ghost predicate Works(l: Link, k: Link) {
    || (exists m :: WorkingMove(m) && Can(l, m) && k == Moved(l, m))
    || (exists m :: WorkingMove(m) && Can(Turned(l), m) && k == Turned(Moved(Turned(l), m)))
  }

  lemma WorkAdvances(l: Link, k: Link)
    requires Good(l) && Works(l, k)
    ensures Good(k) && OneAdvances(l, k) && k.near.seg == l.near.seg && k.far.seg == l.far.seg
  {
    hide Good, Can, Moved, Outward, Advances;
    if exists m :: WorkingMove(m) && Can(l, m) && k == Moved(l, m) {
      var m :| WorkingMove(m) && Can(l, m) && k == Moved(l, m);
      MoveAdvances(l, m);
      MoveGood(l, m);
      MoveShape(l, m);
    } else {
      var m :| WorkingMove(m) && Can(Turned(l), m) && k == Turned(Moved(Turned(l), m));
      TurnedGood(l);
      MoveAdvances(Turned(l), m);
      MoveGood(Turned(l), m);
      MoveShape(Turned(l), m);
      TurnedGood(Moved(Turned(l), m));
    }
  }

  // ------------------------------------------------------------------------ one direction

  /** What stays true of a direction while it works. */
  predicate Kept(h: W.Half, k: W.Half) {
    && SamePromise(h, k) && (EndComes(h) ==> EndComes(k)) && (h.closing ==> k.written == h.written)
  }

  lemma AdvanceKeeps(t: W.Tuning, h: W.Half, k: W.Half)
    requires W.ValidTuning(t) && W.Sound(t, h) && Advances(t, h, k)
    ensures Kept(h, k) && Weight(k) < Weight(h)
  {
    hide W.Sound, W.CanTake, W.Next, Working, EndComes, Weight;
    var step :| Working(step) && W.CanTake(t, h, step) && k == W.Next(t, h, step);
    WeightDrops(t, h, step);
    PromiseKept(t, h, step);
    if EndComes(h) { EndComesStep(t, h, step); }
    if h.closing { ClosedWriteStep(t, h, step); }
  }

  lemma KeptTwice(g: W.Half, h: W.Half, k: W.Half)
    requires Kept(g, h) && Kept(h, k)
    ensures Kept(g, k)
  {
    hide EndComes;
  }

  lemma StepKeeps(l: Link, k: Link)
    requires Good(l) && OneAdvances(l, k)
    ensures Kept(Outward(l), Outward(k)) && Kept(Inward(l), Inward(k))
    ensures Weight(Outward(k)) + Weight(Inward(k)) < Weight(Outward(l)) + Weight(Inward(l))
  {
    hide W.Sound, Wellformed, Outward, Weight, Advances, EndComes;
    if Advances(TuningOf(l.near), Outward(l), Outward(k)) && Inward(k) == Inward(l) {
      AdvanceKeeps(TuningOf(l.near), Outward(l), Outward(k));
    } else {
      AdvanceKeeps(TuningOf(l.far), Inward(l), Inward(k));
    }
  }

  // --------------------------------------------------------------------------------- runs

  ghost predicate WorkRun(links: seq<Link>) {
    links != [] && forall i | 0 <= i < |links| - 1 :: Works(links[i], links[i + 1])
  }

  lemma {:induction false} WorkBounded(links: seq<Link>, n: nat)
    requires WorkRun(links) && Good(links[0]) && n < |links|
    ensures Good(links[n]) && links[n].near.seg == links[0].near.seg && links[n].far.seg == links[0].far.seg
    ensures n + Weight(Outward(links[n])) + Weight(Inward(links[n])) <= Weight(Outward(links[0])) + Weight(Inward(links[0]))
    ensures Kept(Outward(links[0]), Outward(links[n])) && Kept(Inward(links[0]), Inward(links[n]))
  {
    hide Good, Works, OneAdvances, Outward, Weight, Kept, Inward;
    if n == 0 {
      KeptSelf(Outward(links[0]));
      KeptSelf(Inward(links[0]));
    } else {
      WorkBounded(links, n - 1);
      assert Works(links[n - 1], links[n - 1 + 1]);
      WorkAdvances(links[n - 1], links[n]);
      StepKeeps(links[n - 1], links[n]);
      KeptTwice(Outward(links[0]), Outward(links[n - 1]), Outward(links[n]));
      KeptTwice(Inward(links[0]), Inward(links[n - 1]), Inward(links[n]));
    }
  }

  lemma KeptSelf(h: W.Half)
    ensures Kept(h, h)
  {
  }

  /** Nothing can move, on either side. */
  ghost predicate AtRest(l: Link) {
    forall m | WorkingMove(m) :: !Can(l, m) && !Can(Turned(l), m)
  }

  /** A working step of a direction is open to one of the endpoints: whatever frame stands in front of a queue, its
      receiver can take it. */
  lemma StepIsMove(l: Link, step: W.Step) returns (m: Move)
    requires Good(l) && Working(step) && W.CanTake(TuningOf(l.near), Outward(l), step)
    ensures WorkingMove(m) && (Can(l, m) || Can(Turned(l), m))
  {
    hide W.Sound, Wellformed, Packets, Grants;
    match step
    case Debit =>
      OpenEnds(l);
      m := Move.Debit;
    case Emit => m := Move.Emit;
    case EmitEnd => m := Move.EmitEnd;
    case Deliver =>
      NoFramesNoPackets(l.out);
      m := Move.Deliver;
    case Take(room) => m := Move.Take(room);
    case EmitGrant => m := Move.EmitGrant;
    case Credit =>
      NoFramesNoPackets(l.back);
      m := Move.Deliver;
  }

  lemma RestsOutward(l: Link)
    requires Good(l) && AtRest(l)
    ensures Resting(TuningOf(l.near), Outward(l))
  {
    hide Good, Outward, Can, W.CanTake, Working, WorkingMove;
    forall step | Working(step) ensures !W.CanTake(TuningOf(l.near), Outward(l), step) {
      if W.CanTake(TuningOf(l.near), Outward(l), step) {
        var m := StepIsMove(l, step);
        assert false;
      }
    }
  }

  lemma OpenEnds(l: Link)
    requires Good(l)
    ensures !l.near.e.closed && !l.far.e.closed
  {
    hide Wellformed, W.Conserved, W.Faithful;
  }

  lemma NoFramesNoPackets(q: seq<Frame>)
    ensures q == [] ==> Packets(q) == [] && Grants(q) == []
  {
  }

  lemma TurnedRest(l: Link)
    requires Good(l) && AtRest(l)
    ensures Good(Turned(l)) && AtRest(Turned(l)) && TuningOf(Turned(l).near) == TuningOf(l.far) && Outward(Turned(l)) == Inward(l)
  {
    TurnedGood(l);
    hide Good, Can, Outward;
    forall m | WorkingMove(m) ensures !Can(Turned(l), m) && !Can(Turned(Turned(l)), m) {
      assert !Can(l, m) && !Can(Turned(l), m);
    }
  }

  /** All that was promised has been read, and the end has been seen if it was announced. */
  predicate Complete(h: W.Half, k: W.Half) {
    if h.closing then k.read == h.written && k.eof else k.todo == [] && k.read == h.written + h.todo
  }

  lemma RestComplete(t: W.Tuning, h: W.Half, k: W.Half)
    requires W.ValidTuning(t) && Roomy(t) && W.Sound(t, k) && EndComes(h) && !h.deaf && Kept(h, k) && Resting(t, k)
    ensures Complete(h, k)
  {
    hide W.Sound, Resting, EndComes;
    if h.closing {
      RestsDrained(t, k);
    } else {
      RestFinished(t, k);
      assert k.written + [] == k.written;
    }
  }

  lemma RestFinished(t: W.Tuning, k: W.Half)
    requires W.ValidTuning(t) && Roomy(t) && W.Sound(t, k) && Resting(t, k) && !k.deaf && !k.closing
    ensures k.todo == [] && k.read == k.written
  {
    NotStuck(t, k);
    hide W.Sound, Resting;
  }

  /** Every link state has the end of a closed direction still to come, or there. */
  predicate EndsCome(l: Link) {
    EndComes(Outward(l)) && EndComes(Inward(l))
  }

  lemma FollowsEnd(t: W.Tuning, h: W.Half, k: W.Half)
    requires EndComes(h) && Follows(t, h, k)
    ensures EndComes(k)
  {
    hide W.CanTake, W.Next, EndComes;
    if k != h {
      var step :| W.CanTake(t, h, step) && k == W.Next(t, h, step);
      EndComesStep(t, h, step);
    }
  }

  lemma MoveEnds(l: Link, m: Move)
    requires Good(l) && EndsCome(l) && Can(l, m)
    ensures EndsCome(Moved(l, m))
  {
    if WriterMove(m) {
      WriterMoves(l, m);
      assert Follows(TuningOf(l.near), Outward(l), Outward(Moved(l, m)));
    } else if m.Deliver? {
      DeliverMoves(l);
    } else {
      ReaderMoves(l, m);
    }
    hide W.Sound, Good, Follows, Moved, Can, Outward, W.CanTake, W.Next, EndComes;
    FollowsEnd(TuningOf(l.near), Outward(l), Outward(Moved(l, m)));
    FollowsEnd(TuningOf(l.far), Inward(l), Inward(Moved(l, m)));
  }

  lemma TurnedEnds(l: Link)
    requires EndsCome(l)
    ensures EndsCome(Turned(l))
  {
    assert Turned(Turned(l)) == l;
    hide EndComes, Outward;
  }

  lemma StepEnds(l: Link, k: Link)
    requires Good(l) && EndsCome(l) && Steps(l, k)
    ensures EndsCome(k)
  {
    hide Good, Can, Moved, Turned, EndsCome;
    if exists m :: Can(l, m) && k == Moved(l, m) {
      var m :| Can(l, m) && k == Moved(l, m);
      MoveEnds(l, m);
    } else {
      var m :| Can(Turned(l), m) && k == Turned(Moved(Turned(l), m));
      TurnedGood(l);
      TurnedEnds(l);
      MoveEnds(Turned(l), m);
      TurnedEnds(Moved(Turned(l), m));
    }
  }

  lemma {:induction false} RunEnds(links: seq<Link>, n: nat)
    requires LinkRun(links) && Good(links[0]) && EndsCome(links[0]) && n < |links|
    ensures EndsCome(links[n])
  {
    hide Good, Steps, EndsCome;
    if n > 0 {
      RunEnds(links, n - 1);
      LinkRunGood(links, n - 1);
      assert Steps(links[n - 1], links[n - 1 + 1]);
      StepEnds(links[n - 1], links[n]);
    }
  }

  function NewLink(mtu: int, mtu': int): Link {
    Link(NewSide(SegmentFor(mtu)), NewSide(SegmentFor(mtu')), [], [])
  }

  lemma NewGood(mtu: int, mtu': int)
    ensures Good(NewLink(mtu, mtu')) && EndsCome(NewLink(mtu, mtu'))
  {
    var l := NewLink(mtu, mtu');
    W.FreshSound(TuningOf(l.near));
    W.FreshSound(TuningOf(l.far));
    assert Outward(l) == W.Fresh(TuningOf(l.near)) && Inward(l) == W.Fresh(TuningOf(l.far));
  }

  /** From any state a link of the shipped constants can get into, whatever was written, read, granted and closed
      before: as long as both sides keep reading, any run of working moves of the two endpoints is no longer than the
      outstanding work of both directions, and when neither can move, every byte owed has been read on either side,
      in order, with the end behind it if it was announced. */
  lemma BothTransfersComplete(history: seq<Link>, links: seq<Link>, mtu: int, mtu': int)
    requires LinkRun(history) && history[0] == NewLink(mtu, mtu') && WorkRun(links) && links[0] == history[|history| - 1]
    requires !links[0].near.e.readDone && !links[0].far.e.readDone
    ensures |links| - 1 <= Weight(Outward(links[0])) + Weight(Inward(links[0]))
    ensures AtRest(links[|links| - 1]) ==>
      && Complete(Outward(links[0]), Outward(links[|links| - 1])) && Complete(Inward(links[0]), Inward(links[|links| - 1]))
  {
    hide Good, EndsCome, Steps, Works, AtRest, Complete, Weight;
    var l, k := links[0], links[|links| - 1];
    NewGood(mtu, mtu');
    LinkRunGood(history, |history| - 1);
    RunEnds(history, |history| - 1);
    SegsStay(history, |history| - 1);
    WorkBounded(links, |links| - 1);
    if AtRest(k) { EachComplete(l, k, mtu, mtu'); }
  }

  lemma EachComplete(l: Link, k: Link, mtu: int, mtu': int)
    requires EndsCome(l) && Good(k) && AtRest(k) && !l.near.e.readDone && !l.far.e.readDone
    requires Kept(Outward(l), Outward(k)) && Kept(Inward(l), Inward(k))
    requires k.near.seg == SegmentFor(mtu) && k.far.seg == SegmentFor(mtu')
    ensures Complete(Outward(l), Outward(k)) && Complete(Inward(l), Inward(k))
  {
    hide AtRest, Complete, W.Sound, Wellformed, EndComes, Kept, Resting;
    RestsOutward(k);
    TurnedRest(k);
    RestsOutward(Turned(k));
    RoomEnough(k.near, mtu);
    RoomEnough(k.far, mtu');
    RestComplete(TuningOf(k.near), Outward(l), Outward(k));
    RestComplete(TuningOf(k.far), Inward(l), Inward(k));
  }

  lemma RoomEnough(s: Side, mtu: int)
    requires s.seg == SegmentFor(mtu)
    ensures W.ValidTuning(TuningOf(s)) && Roomy(TuningOf(s))
  {
  }

  lemma {:induction false} SegsStay(links: seq<Link>, n: nat)
    requires LinkRun(links) && Good(links[0]) && n < |links|
    ensures links[n].near.seg == links[0].near.seg && links[n].far.seg == links[0].far.seg
  {
    hide Good, Steps;
    if n > 0 {
      SegsStay(links, n - 1);
      LinkRunGood(links, n - 1);
      assert Steps(links[n - 1], links[n - 1 + 1]);
      SegStep(links[n - 1], links[n]);
    }
  }

  lemma SegStep(l: Link, k: Link)
    requires Good(l) && Steps(l, k)
    ensures k.near.seg == l.near.seg && k.far.seg == l.far.seg
  {
    hide Good, Can, Moved;
    if exists m :: Can(l, m) && k == Moved(l, m) {
      var m :| Can(l, m) && k == Moved(l, m);
      MoveShape(l, m);
    } else {
      var m :| Can(Turned(l), m) && k == Turned(Moved(Turned(l), m));
      TurnedGood(l);
      MoveShape(Turned(l), m);
    }
  }
}
