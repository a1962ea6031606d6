/** Two endpoints of one stream over two FIFO queues of frames, both directions
    at once. Seen from either direction every move is a step of the one-way
    protocol or no step at all, so everything proved there holds here twice. */
module Duplex {
  import opened Protocol
  import opened Framing
  import opened Streams
  import opened StreamProgress
  import W = WindowProtocol

  /** An endpoint with its goroutines: the Write under way, what is decided but not yet on the wire, and history. */
  datatype Side = Side(e: Endpoint, seg: nat, todo: seq<byte>, staged: seq<byte>, endStaged: bool, granted: nat,
                       written: seq<byte>, read: seq<byte>, lost: seq<byte>)

  datatype Link = Link(near: Side, far: Side, out: seq<Frame>, back: seq<Frame>)

  function Turned(l: Link): Link {
    Link(l.far, l.near, l.back, l.out)
  }

  datatype Move = Start(p: seq<byte>) | Debit | Emit | Finish | EmitEnd | Deliver | Take(room: nat) | EmitGrant | Hush

  function Segment(s: Side): seq<byte> {
    if |s.todo| <= s.seg then s.todo else s.todo[..s.seg]
  }

  /** When the near endpoint can make a move. */
  predicate Can(l: Link, m: Move) {
    var s := l.near;
    match m
    case Start(p) => s.todo == [] && s.staged == [] && !s.e.writeEOF
    case Debit => s.todo != [] && s.staged == [] && Streams.Debit(s.e, |Segment(s)|).1.Cleared?
    case Emit => s.staged != []
    case Finish => !s.e.closed && !s.e.writeEOF
    case EmitEnd => s.endStaged
    case Deliver => l.back != []
    case Take(room) => s.granted == 0 && room > 0 && Streams.Take(s.e, room).1.Bytes?
    case EmitGrant => s.granted > 0
    case Hush => true
  }

  function Put(l: Link, f: Frame): Link {
    l.(out := l.out + [f])
  }

  function Moved(l: Link, m: Move): Link
    requires Can(l, m)
  {
    var s := l.near;
    match m
    case Start(p) => l.(near := s.(todo := p))
    case Debit =>
      var seg := Segment(s);
      l.(near := s.(e := Streams.Debit(s.e, |seg|).0, todo := s.todo[|seg|..], staged := seg, written := s.written + seg))
    case Emit => Put(l.(near := s.(staged := [])), Frame(DATA, 0, s.staged))
    case Finish => l.(near := s.(e := s.e.(writeEOF := true), endStaged := true))
    case EmitEnd => Put(l.(near := s.(endStaged := false)), Frame(EOF, 0, []))
    case Deliver => l.(near := s.(e := Ingest(s.e, l.back[0])), back := l.back[1..])
    case Take(room) =>
      var (e, got) := Streams.Take(s.e, room);
      l.(near := s.(e := e, granted := got.grant, read := s.read + got.data))
    case EmitGrant => Put(l.(near := s.(granted := 0)), Frame(WINDOW_UPDATE, 0, WindowPayload(s.granted)))
    case Hush => l.(near := s.(e := s.e.(readDone := true, inbox := []), lost := s.lost + s.e.inbox))
  }

  // ----------------------------------------------------------------- one direction

  function PacketOf(f: Frame): seq<W.Packet> {
    if f.kind == DATA then [W.Payload(f.payload)] else if f.kind == EOF then [W.End] else []
  }

  function Packets(q: seq<Frame>): seq<W.Packet> {
    if q == [] then [] else PacketOf(q[0]) + Packets(q[1..])
  }

  function GrantOf(f: Frame): seq<nat> {
    if f.kind == WINDOW_UPDATE then [ParseWindowPayload(f.payload)] else []
  }

  function Grants(q: seq<Frame>): seq<nat> {
    if q == [] then [] else GrantOf(q[0]) + Grants(q[1..])
  }

  lemma {:induction false} PacketsAppend(q: seq<Frame>, f: Frame)
    ensures Packets(q + [f]) == Packets(q) + PacketOf(f)
  {
    hide PacketOf;
    if q == [] {
      assert q + [f] == [f] && [f][1..] == [];
    } else {
      PacketsAppend(q[1..], f);
      assert (q + [f])[1..] == q[1..] + [f];
    }
  }

  lemma {:induction false} GrantsAppend(q: seq<Frame>, f: Frame)
    ensures Grants(q + [f]) == Grants(q) + GrantOf(f)
  {
    hide GrantOf;
    if q == [] {
      assert q + [f] == [f] && [f][1..] == [];
    } else {
      GrantsAppend(q[1..], f);
      assert (q + [f])[1..] == q[1..] + [f];
    }
  }

  /** The direction from the near endpoint to the far one. */
  function Outward(l: Link): W.Half {
    W.Half(l.near.todo, l.near.staged, l.near.e.writeEOF, l.near.endStaged, l.near.e.peerWindow, Packets(l.out),
           l.far.e.inbox, l.far.e.eof, l.far.e.readDone, l.far.e.recvAvail, l.far.e.grantPending, l.far.granted, l.far.e.closed,
           Grants(l.back), l.near.written, l.far.read, l.far.lost)
  }

  function Inward(l: Link): W.Half {
    Outward(Turned(l))
  }

  function TuningOf(s: Side): W.Tuning {
    W.Tuning(WINDOW, THRESHOLD, s.seg)
  }

  /** Only stream frames travel, updates have their four bytes, and no endpoint has failed. */
  predicate Wellformed(q: seq<Frame>) {
    forall i | 0 <= i < |q| :: q[i].kind == DATA || q[i].kind == EOF || (q[i].kind == WINDOW_UPDATE && |q[i].payload| == 4)
  }

  predicate Good(l: Link) {
    && Wellformed(l.out) && Wellformed(l.back) && l.near.seg >= 1 && l.far.seg >= 1
    && l.near.e.peerErr.None? && l.far.e.peerErr.None?
    && W.Sound(TuningOf(l.near), Outward(l)) && W.Sound(TuningOf(l.far), Inward(l))
  }

  /** A step of the one-way protocol, or none. */
  ghost predicate Follows(t: W.Tuning, h: W.Half, k: W.Half) {
    k == h || exists step :: W.CanTake(t, h, step) && k == W.Next(t, h, step)
  }

  lemma FollowsSound(t: W.Tuning, h: W.Half, k: W.Half)
    requires W.ValidTuning(t) && W.Sound(t, h) && Follows(t, h, k)
    ensures W.Sound(t, k)
  {
    hide W.Sound, W.CanTake, W.Next;
    if k != h {
      var step :| W.CanTake(t, h, step) && k == W.Next(t, h, step);
      W.StepSound(t, h, step);
    }
  }

  predicate WriterMove(m: Move) {
    m.Start? || m.Debit? || m.Emit? || m.Finish? || m.EmitEnd?
  }

  function WriterStep(m: Move): W.Step
    requires WriterMove(m)
  {
    match m
    case Start(p) => W.Start(p)
    case Debit => W.Debit
    case Emit => W.Emit
    case Finish => W.Finish
    case EmitEnd => W.EmitEnd
  }

  /** A move of the writer is the writer's step outward and nothing inward. */
  lemma WriterMoves(l: Link, m: Move)
    requires Good(l) && Can(l, m) && WriterMove(m)
    ensures W.CanTake(TuningOf(l.near), Outward(l), WriterStep(m))
    ensures Outward(Moved(l, m)) == W.Next(TuningOf(l.near), Outward(l), WriterStep(m))
    ensures Inward(Moved(l, m)) == Inward(l)
  {
    hide W.Sound, Wellformed, Packets, Grants, Ingest;
    if m.Emit? {
      PacketsAppend(l.out, Frame(DATA, 0, l.near.staged));
      GrantsAppend(l.out, Frame(DATA, 0, l.near.staged));
    } else if m.EmitEnd? {
      PacketsAppend(l.out, Frame(EOF, 0, []));
      GrantsAppend(l.out, Frame(EOF, 0, []));
    }
  }

  /** A read is the reader's step inward and nothing outward. */
  lemma TakeMoves(l: Link, room: nat)
    requires Can(l, Take(room))
    ensures W.CanTake(TuningOf(l.far), Inward(l), W.Take(room))
    ensures Inward(Moved(l, Take(room))) == W.Next(TuningOf(l.far), Inward(l), W.Take(room))
    ensures Outward(Moved(l, Take(room))) == Outward(l)
  {
    hide Packets, Grants, Ingest;
  }

  /** So is a grant, whose frame carries the exact amount. */
  lemma GrantMoves(l: Link)
    requires Good(l) && Can(l, EmitGrant)
    ensures W.CanTake(TuningOf(l.far), Inward(l), W.EmitGrant)
    ensures Inward(Moved(l, EmitGrant)) == W.Next(TuningOf(l.far), Inward(l), W.EmitGrant)
    ensures Outward(Moved(l, EmitGrant)) == Outward(l)
  {
    var n := l.near.granted;
    var f := Frame(WINDOW_UPDATE, 0, WindowPayload(n));
    GrantFits(TuningOf(l.far), Inward(l));
    hide Good, W.Sound, Packets, Grants, Ingest, WindowPayload, ParseWindowPayload;
    PacketsAppend(l.out, f);
    GrantsAppend(l.out, f);
    WindowRoundTrip(n);
    assert Packets(l.out + [f]) == Packets(l.out);
  }

  lemma GrantFits(t: W.Tuning, h: W.Half)
    requires W.Sound(t, h)
    ensures h.granted <= t.window
  {
  }

  lemma HushMoves(l: Link)
    ensures W.CanTake(TuningOf(l.far), Inward(l), W.Hush)
    ensures Inward(Moved(l, Hush)) == W.Next(TuningOf(l.far), Inward(l), W.Hush)
    ensures Outward(Moved(l, Hush)) == Outward(l)
  {
    hide Packets, Grants;
  }

  lemma ReaderMoves(l: Link, m: Move)
    requires Good(l) && Can(l, m) && (m.Take? || m.EmitGrant? || m.Hush?)
    ensures Follows(TuningOf(l.far), Inward(l), Inward(Moved(l, m)))
    ensures Outward(Moved(l, m)) == Outward(l)
  {
    match m {
      case Take(room) => TakeMoves(l, room);
      case Hush => HushMoves(l);
      case EmitGrant => GrantMoves(l);
    }
    hide W.CanTake, W.Next, Outward, Moved, Good, Can;
  }

  lemma Pops(q: seq<Frame>)
    requires q != []
    ensures Packets(q) == PacketOf(q[0]) + Packets(q[1..]) && Grants(q) == GrantOf(q[0]) + Grants(q[1..])
  {
  }

  /** A delivered update is the writer's credit outward and nothing inward. */
  lemma UpdateArrives(l: Link)
    requires Wellformed(l.back) && l.back != [] && l.back[0].kind == WINDOW_UPDATE
    ensures W.CanTake(TuningOf(l.near), Outward(l), W.Credit)
    ensures Outward(Moved(l, Deliver)) == W.Next(TuningOf(l.near), Outward(l), W.Credit)
    ensures Inward(Moved(l, Deliver)) == Inward(l)
  {
    Pops(l.back);
    hide Packets, Grants, ParseWindowPayload;
  }

  /** A delivered data or end frame is the reader's step inward and nothing outward. */
  lemma PacketArrives(l: Link)
    requires Wellformed(l.back) && l.back != [] && l.back[0].kind != WINDOW_UPDATE
    ensures W.CanTake(TuningOf(l.far), Inward(l), W.Deliver)
    ensures Inward(Moved(l, Deliver)) == W.Delivered(Inward(l))
    ensures Outward(Moved(l, Deliver)) == Outward(l)
  {
    var f, rest := l.back[0], l.back[1..];
    assert f.kind == DATA || f.kind == EOF;
    Pops(l.back);
    assert Packets(l.back)[0] == if f.kind == DATA then W.Payload(f.payload) else W.End;
    assert Packets(l.back)[1..] == Packets(rest) && Grants(l.back) == Grants(rest);
    hide Packets, Grants, ParseWindowPayload, ParseClosePayload, Wellformed, PacketOf, GrantOf;
    IngestPacket(l.near.e, l.back[0]);
    hide Ingest;
  }

  lemma IngestPacket(e: Endpoint, f: Frame)
    requires f.kind == DATA || f.kind == EOF
    ensures f.kind == EOF ==> Ingest(e, f) == e.(eof := true)
    ensures f.kind == DATA && |f.payload| > e.recvAvail ==> Ingest(e, f) == e.(closed := true)
    ensures f.kind == DATA && |f.payload| <= e.recvAvail ==>
      Ingest(e, f) == e.(recvAvail := e.recvAvail - |f.payload|, inbox := e.inbox + f.payload)
  {
  }

  lemma DeliverMoves(l: Link)
    requires Good(l) && l.back != []
    ensures Follows(TuningOf(l.far), Inward(l), Inward(Moved(l, Deliver)))
    ensures Follows(TuningOf(l.near), Outward(l), Outward(Moved(l, Deliver)))
  {
    if l.back[0].kind == WINDOW_UPDATE {
      UpdateArrives(l);
    } else {
      PacketArrives(l);
      assert Inward(Moved(l, Deliver)) == W.Next(TuningOf(l.far), Inward(l), W.Deliver);
    }
    hide W.CanTake, W.Next, Outward, Moved, Good, Can, W.Delivered;
  }

  // ------------------------------------------------------------------------- runs

  lemma MoveShape(l: Link, m: Move)
    requires Good(l) && Can(l, m)
    ensures var k := Moved(l, m);
      && Wellformed(k.out) && Wellformed(k.back) && k.near.seg == l.near.seg && k.far == l.far && k.near.e.peerErr.None?
  {
    hide W.Sound, Packets, Grants, WindowPayload;
  }

  /** A move of the near endpoint keeps both directions sound. */
  lemma MoveGood(l: Link, m: Move)
    requires Good(l) && Can(l, m)
    ensures Good(Moved(l, m))
  {
    MoveShape(l, m);
    if WriterMove(m) {
      WriterMoves(l, m);
      assert Follows(TuningOf(l.near), Outward(l), Outward(Moved(l, m)));
    } else if m.Deliver? {
      DeliverMoves(l);
    } else {
      ReaderMoves(l, m);
    }
    hide W.Sound, Wellformed, Follows, Moved, Can, Outward, W.CanTake, W.Next;
    FollowsSound(TuningOf(l.near), Outward(l), Outward(Moved(l, m)));
    FollowsSound(TuningOf(l.far), Inward(l), Inward(Moved(l, m)));
  }

  /** Either endpoint moves; the far one moves on the link turned round. */
  ghost predicate Steps(l: Link, k: Link) {
    || (exists m :: Can(l, m) && k == Moved(l, m))
    || (exists m :: Can(Turned(l), m) && k == Turned(Moved(Turned(l), m)))
  }

  ghost predicate LinkRun(links: seq<Link>) {
    && links != [] && forall i | 0 <= i < |links| - 1 :: Steps(links[i], links[i + 1])
  }

  function NewSide(seg: nat): Side {
    Side(FRESH, seg, [], [], false, 0, [], [], [])
  }

  lemma TurnedGood(l: Link)
    requires Good(l)
    ensures Good(Turned(l)) && Turned(Turned(l)) == l
  {
    hide W.Sound, Wellformed;
  }

  lemma StepGood(l: Link, k: Link)
    requires Good(l) && Steps(l, k)
    ensures Good(k)
  {
    hide Good, Can, Moved, Turned;
    if exists m :: Can(l, m) && k == Moved(l, m) {
      var m :| Can(l, m) && k == Moved(l, m);
      MoveGood(l, m);
    } else {
      var m :| Can(Turned(l), m) && k == Turned(Moved(Turned(l), m));
      TurnedGood(l);
      MoveGood(Turned(l), m);
      TurnedGood(Moved(Turned(l), m));
    }
  }

  lemma {:induction false} LinkRunGood(links: seq<Link>, n: nat)
    requires LinkRun(links) && Good(links[0]) && n < |links|
    ensures Good(links[n])
  {
    if n > 0 {
      hide Good, Steps;
      LinkRunGood(links, n - 1);
      StepGood(links[n - 1], links[n]);
    }
  }

  /** With both endpoints writing, reading, granting and closing at will: in each direction credit is conserved,
      the bytes arrive unaltered and in order, and neither endpoint ever reports a flow-control violation. */
  lemma BothDirectionsSound(links: seq<Link>, n: nat, mtu: int, mtu': int)
    requires LinkRun(links) && n < |links| && links[0] == Link(NewSide(SegmentFor(mtu)), NewSide(SegmentFor(mtu')), [], [])
    ensures var l := links[n];
      && W.Conserved(TuningOf(l.near), Outward(l)) && W.Faithful(Outward(l)) && !l.far.e.closed
      && W.Conserved(TuningOf(l.far), Inward(l)) && W.Faithful(Inward(l)) && !l.near.e.closed
  {
    W.FreshSound(TuningOf(links[0].near));
    W.FreshSound(TuningOf(links[0].far));
    assert Outward(links[0]) == W.Fresh(TuningOf(links[0].near)) && Inward(links[0]) == W.Fresh(TuningOf(links[0].far));
    assert Good(links[0]);
    LinkRunGood(links, n);
    hide LinkRun;
  }
}
