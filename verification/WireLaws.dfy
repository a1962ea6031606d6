/** What is on the wire, byte by byte, and what an endpoint makes of each frame and
    tells its reader and writer. */
module WireLaws {
  import opened Protocol
  import opened Framing
  import opened Streams
  import opened StreamProgress

  // ------------------------------------------------------------------------------- frames

  /** A frame is its kind, four bytes of stream ID, two of length, all most significant first, and its payload. */
  lemma FrameLayout(f: Frame)
    requires |f.payload| < 0x1_0000
    ensures var b := Encoded(f);
      && |b| == 7 + |f.payload| && b[0] == f.kind
      && b[1] as int == f.streamId / 0x100_0000 && b[2] as int == f.streamId / 0x1_0000 % 0x100
      && b[3] as int == f.streamId / 0x100 % 0x100 && b[4] as int == f.streamId % 0x100
      && b[5] as int == |f.payload| / 0x100 && b[6] as int == |f.payload| % 0x100 && b[7..] == f.payload
  {
    hide Encode16, Encode32;
    HeaderOf(f, []);
    Digits32(f.streamId);
    Digits16(|f.payload|);
    var b := Encoded(f);
    assert b + [] == b && b[1..5][0] == b[1] && b[1..5][1] == b[2] && b[1..5][2] == b[3] && b[1..5][3] == b[4];
    assert b[5..7][0] == b[5] && b[5..7][1] == b[6];
    assert b[7..7 + |f.payload|] == b[7..];
  }

  lemma Digits16(n: Word16)
    ensures Encode16(n)[0] as int == n / 0x100 && Encode16(n)[1] as int == n % 0x100
  {
  }

  lemma Digits32(n: Word32)
    ensures var b := Encode32(n);
      b[0] as int == n / 0x100_0000 && b[1] as int == n / 0x1_0000 % 0x100 && b[2] as int == n / 0x100 % 0x100 && b[3] as int == n % 0x100
  {
    hide Encode16;
    Digits16(n / 0x1_0000);
    Digits16(n % 0x1_0000);
    Halves(n);
  }

  lemma Halves(n: nat)
    ensures (n / 0x1_0000) / 0x100 == n / 0x100_0000
    ensures (n % 0x1_0000) / 0x100 == n / 0x100 % 0x100 && (n % 0x1_0000) % 0x100 == n % 0x100
  {
  }

  /** A buffer is refused if and only if its header names a kind other than the seven or more than sixteen kilobytes; it is
      short if the header or what it announces is not all there. */
  lemma ParseVerdict(buf: seq<byte>)
    ensures ParseFrame(buf).Malformed? <==> |buf| >= 7 && (buf[0] < 1 || buf[0] > 7 || buf[5] as int * 0x100 + buf[6] as int > 16384)
    ensures ParseFrame(buf).Whole? <==>
      |buf| >= 7 && 1 <= buf[0] <= 7 && buf[5] as int * 0x100 + buf[6] as int <= 16384 && |buf| >= 7 + buf[5] as int * 0x100 + buf[6] as int
    ensures ParseFrame(buf).Whole? ==> ParseFrame(buf).frame.payload == buf[7..7 + buf[5] as int * 0x100 + buf[6] as int]
    ensures ParseFrame(buf).Whole? ==> ParseFrame(buf).frame.kind == buf[0]
  {
    hide Decode32;
    if |buf| >= 7 { assert buf[5..7][0] == buf[5] && buf[5..7][1] == buf[6]; }
  }

  /** The kinds the endpoints and the handshake use, by their numbers. */
  lemma KindNumbers(payload: seq<byte>, port: Word16)
    ensures Encoded(Frame(DATA, 0, payload))[0] == 1 && Encoded(Frame(EOF, 0, payload))[0] == 2 && Encoded(Frame(CLOSE, 0, payload))[0] == 3
    ensures Encoded(Frame(PREAMBLE, 0, payload))[0] == 4 && Encoded(Frame(ACCEPT, 0, payload))[0] == 5
    ensures Encoded(Frame(STREAM_OPEN, 0, payload))[0] == 6 && Encoded(Frame(WINDOW_UPDATE, 0, payload))[0] == 7
    ensures StreamOpenPayload(port) == [(port / 0x100) as byte, (port % 0x100) as byte]
    ensures |payload| < 2 ==> ParseStreamOpen(payload) == 0
    ensures |payload| < 4 ==> ParseWindowPayload(payload) == 0
  {
  }

  function Code(r: Reason): byte {
    match r
    case Closed => 1
    case ExecutionEnded => 2
    case GrantRejected => 3
    case GrantExpired => 4
    case GrantRevoked => 5
    case NotAuthorized => 6
    case SessionFailed => 7
    case MeshUnreachable => 8
    case Unlisted(_) => 7
  }

  /** A teardown is its reason's number and at most 512 bytes of detail; a number nobody listed, or none, is a failed session. */
  lemma TeardownLayout(e: SessionError, payload: seq<byte>)
    ensures ClosePayload(e) == [Code(e.reason)] + (if |e.detail| <= 512 then e.detail else e.detail[..512])
    ensures payload == [] ==> ParseClosePayload(payload) == SessionError(SessionFailed, [])
    ensures payload != [] ==> ParseClosePayload(payload).detail == payload[1..]
    ensures payload != [] && (payload[0] == 0 || payload[0] > 8) ==> ParseClosePayload(payload).reason == SessionFailed
  {
  }

  // ---------------------------------------------------------------------------- endpoints

  /** A reader is given what is buffered before it learns of an error or the end, in that order, and after that of a
      close; once its side is closed it is given nothing. What it takes is the front of the buffer, as much as it has
      room for; credit goes back once sixteen kilobytes have been taken, and then for all of them. */
  lemma ReaderLaw(e: Endpoint, room: nat)
    ensures var (e', got) := Take(e, room); var n := if room <= |e.inbox| then room else |e.inbox|;
      if e.readDone then e' == e && got == Aborted
      else if e.inbox != [] then
        && got.Bytes? && got.data == e.inbox[..n] && e'.inbox == e.inbox[n..] && e'.recvAvail == e.recvAvail + n
        && (if e.grantPending + n < 16384 then got.grant == 0 && e'.grantPending == e.grantPending + n else got.grant == e.grantPending + n && e'.grantPending == 0)
        && e' == e.(inbox := e'.inbox, recvAvail := e'.recvAvail, grantPending := e'.grantPending)
      else if e.peerErr.Some? then got == PeerError(e.peerErr.value) && e' == e.(closed := true)
      else e' == e && got == if e.eof then AtEnd else if e.closed then Aborted else Wait
  {
  }

  /** A writer whose side is closed is told so, one whose peer failed is told why; otherwise it sends as soon as the
      peer's window covers the segment, which it then spends. */
  lemma WriterLaw(e: Endpoint, n: nat)
    ensures var (e', sent) := Streams.Debit(e, n);
      if e.closed || e.writeEOF then e' == e && sent == WriteClosed
      else if e.peerErr.Some? then e' == e && sent == Sent.PeerFailed(e.peerErr.value)
      else if n <= e.peerWindow then sent == Cleared && e' == e.(peerWindow := e.peerWindow - n)
      else e' == e && sent == Blocked
  {
  }

  function FirstClose(frames: seq<Frame>): Option<SessionError> {
    if frames == [] then None else
    var n := |frames| - 1;
    var earlier := FirstClose(frames[..n]);
    if earlier.Some? then earlier else if frames[n].kind == 3 && frames[n].payload != [] then Some(ParseClosePayload(frames[n].payload)) else None
  }

  function Granted(frames: seq<Frame>): nat {
    if frames == [] then 0 else
    var n := |frames| - 1;
    Granted(frames[..n]) + if frames[n].kind == 7 && |frames[n].payload| >= 4 then ParseWindowPayload(frames[n].payload) else 0
  }

  predicate EndSeen(frames: seq<Frame>) {
    exists i | 0 <= i < |frames| :: frames[i].kind == 2
  }

  lemma OneFrame(e: Endpoint, f: Frame)
    ensures var k := Ingest(e, f);
      && (k.eof <==> e.eof || f.kind == 2) && k.peerWindow == e.peerWindow + (if f.kind == 7 && |f.payload| >= 4 then ParseWindowPayload(f.payload) else 0)
      && k.peerErr == (if e.peerErr.None? && f.kind == 3 && f.payload != [] then Some(ParseClosePayload(f.payload)) else e.peerErr)
      && k.readDone == e.readDone && k.writeEOF == e.writeEOF && k.grantPending == e.grantPending
      && (k.closed <==> e.closed || (f.kind == 1 && |f.payload| > e.recvAvail))
      && (if f.kind == 1 && |f.payload| <= e.recvAvail then k.inbox == e.inbox + f.payload && k.recvAvail == e.recvAvail - |f.payload|
          else k.inbox == e.inbox && k.recvAvail == e.recvAvail)
  {
    hide ParseClosePayload, ParseWindowPayload;
  }

  /** Whatever frames arrive, in whatever order: the first teardown with a reason is the one the endpoint tells, the end is
      seen exactly if its marker came, credit is the sum of all updates, and the endpoint closes exactly if some data
      frame overran the space left for it. */
  lemma {:induction false} ArrivalLaw(e: Endpoint, frames: seq<Frame>)
    ensures var k := IngestedAll(e, frames);
      && k.peerErr == (if e.peerErr.Some? then e.peerErr else FirstClose(frames))
      && (k.eof <==> e.eof || EndSeen(frames)) && k.peerWindow == e.peerWindow + Granted(frames)
      && k.readDone == e.readDone && k.writeEOF == e.writeEOF && k.grantPending == e.grantPending
      && (k.closed <==> e.closed || Overran(e, frames))
  {
    hide Ingest, ParseClosePayload, ParseWindowPayload;
    if frames != [] {
      var n := |frames| - 1;
      ArrivalLaw(e, frames[..n]);
      OneFrame(IngestedAll(e, frames[..n]), frames[n]);
      EndMore(frames);
    }
  }

  lemma EndMore(frames: seq<Frame>)
    requires frames != []
    ensures EndSeen(frames) <==> EndSeen(frames[..|frames| - 1]) || frames[|frames| - 1].kind == 2
  {
    var rest := frames[..|frames| - 1];
    if i :| 0 <= i < |rest| && rest[i].kind == 2 { assert frames[i].kind == 2; }
    if i :| 0 <= i < |frames| && frames[i].kind == 2 { if i < |rest| { assert rest[i].kind == 2; } }
  }

  predicate Overran(e: Endpoint, frames: seq<Frame>) {
    frames != [] &&
      var n := |frames| - 1;
      Overran(e, frames[..n]) || (frames[n].kind == 1 && |frames[n].payload| > IngestedAll(e, frames[..n]).recvAvail)
  }

  // --------------------------------------------------------------------------- constants

  /** A full segment fills a packet of the interface exactly, where that leaves room for a byte and is not more than
      sixteen kilobytes; otherwise a segment is sixteen kilobytes. The window is 64 kilobytes, a quarter of it the batch. */
  lemma SegmentLaw(mtu: int, id: Word32, payload: seq<byte>)
    ensures 8 <= mtu <= 16391 && |payload| == SegmentFor(mtu) ==> |Encoded(Frame(DATA, id, payload))| == mtu
    ensures mtu < 8 || mtu > 16391 ==> SegmentFor(mtu) == 16384
    ensures Shipped(mtu).window == 65536 && Shipped(mtu).threshold == 16384 && Shipped(mtu).segment == SegmentFor(mtu)
    ensures FRESH.recvAvail == 65536 && FRESH.peerWindow == 65536 && FRESH.grantPending == 0 && FRESH.inbox == []
  {
    HeaderOf(Frame(DATA, id, payload), []);
  }
}
