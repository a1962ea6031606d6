/** The wire format of the tunnel: typed frames and the payloads inside them. */
module Framing {
  import opened Protocol

  const DATA: byte := 0x01
  const EOF: byte := 0x02
  const CLOSE: byte := 0x03
  const PREAMBLE: byte := 0x04
  const ACCEPT: byte := 0x05
  const STREAM_OPEN: byte := 0x06
  const WINDOW_UPDATE: byte := 0x07

  const HEADER_SIZE := 7
  const MAX_PAYLOAD := 16 * 1024
  const CLOSE_DETAIL_MAX := 512

  type Word16 = n: nat | n < 0x1_0000
  type Word32 = n: nat | n < 0x1_0000_0000

  datatype Frame = Frame(kind: byte, streamId: Word32, payload: seq<byte>)

  /** A frame the parser accepts. */
  predicate Legal(f: Frame) {
    DATA <= f.kind <= WINDOW_UPDATE && |f.payload| <= MAX_PAYLOAD
  }

  // ------------------------------------------------------------- big-endian words

  function Encode16(n: Word16): (bytes: seq<byte>)
    ensures |bytes| == 2
  {
    [(n / 0x100) as byte, (n % 0x100) as byte]
  }

  function Decode16(bytes: seq<byte>): Word16
    requires |bytes| == 2
  {
    bytes[0] as int * 0x100 + bytes[1] as int
  }

  function Encode32(n: Word32): (bytes: seq<byte>)
    ensures |bytes| == 4
  {
    Encode16(n / 0x1_0000) + Encode16(n % 0x1_0000)
  }

  function Decode32(bytes: seq<byte>): Word32
    requires |bytes| == 4
  {
    Decode16(bytes[..2]) * 0x1_0000 + Decode16(bytes[2..])
  }

  lemma Words16(n: Word16)
    ensures Decode16(Encode16(n)) == n
  {
  }

  lemma Bytes16(bytes: seq<byte>)
    requires |bytes| == 2
    ensures Encode16(Decode16(bytes)) == bytes
  {
  }

  lemma Words32(n: Word32)
    ensures Decode32(Encode32(n)) == n
  {
    assert Encode32(n)[..2] == Encode16(n / 0x1_0000) && Encode32(n)[2..] == Encode16(n % 0x1_0000);
    Words16(n / 0x1_0000);
    Words16(n % 0x1_0000);
  }

  lemma Bytes32(bytes: seq<byte>)
    requires |bytes| == 4
    ensures Encode32(Decode32(bytes)) == bytes
  {
    hide Encode16, Decode16;
    Bytes16(bytes[..2]);
    Bytes16(bytes[2..]);
    var hi: nat, lo: nat := Decode16(bytes[..2]), Decode16(bytes[2..]);
    assert (hi * 0x1_0000 + lo) / 0x1_0000 == hi && (hi * 0x1_0000 + lo) % 0x1_0000 == lo;
    assert bytes == bytes[..2] + bytes[2..];
  }

  // ----------------------------------------------------------------------- frames

  /** appendFrame: the length field keeps only the low sixteen bits. */
  function AppendFrame(dst: seq<byte>, f: Frame): seq<byte> {
    dst + [f.kind] + Encode32(f.streamId) + Encode16(|f.payload| % 0x1_0000) + f.payload
  }

  function Encoded(f: Frame): seq<byte> {
    AppendFrame([], f)
  }

  datatype Parsed = Incomplete | Malformed | Whole(frame: Frame, consumed: nat)

  function ParseFrame(buf: seq<byte>): Parsed {
    if |buf| < HEADER_SIZE then Incomplete else
    var length := Decode16(buf[5..7]);
    if buf[0] < DATA || buf[0] > WINDOW_UPDATE then Malformed
    else if length > MAX_PAYLOAD then Malformed
    else if |buf| < HEADER_SIZE + length then Incomplete
    else Whole(Frame(buf[0], Decode32(buf[1..5]), buf[HEADER_SIZE..HEADER_SIZE + length]), HEADER_SIZE + length)
  }

  lemma HeaderOf(f: Frame, suffix: seq<byte>)
    ensures var buf := Encoded(f) + suffix;
      && |Encoded(f)| == HEADER_SIZE + |f.payload| && buf[0] == f.kind && buf[1..5] == Encode32(f.streamId)
      && buf[5..7] == Encode16(|f.payload| % 0x1_0000) && buf[HEADER_SIZE..HEADER_SIZE + |f.payload|] == f.payload
  {
    hide Encode32, Encode16;
    var buf := Encoded(f) + suffix;
    assert buf[1..5] == Encode32(f.streamId);
    assert buf[5..7] == Encode16(|f.payload| % 0x1_0000);
    assert buf[HEADER_SIZE..HEADER_SIZE + |f.payload|] == f.payload;
  }

  /** Parsing gives a frame back, whatever follows it, exactly when the frame is legal. */
  lemma RoundTrip(f: Frame, suffix: seq<byte>)
    ensures ParseFrame(Encoded(f) + suffix) == Whole(f, HEADER_SIZE + |f.payload|) <==> Legal(f)
  {
    HeaderOf(f, suffix);
    hide Encoded, Encode16, Encode32, Decode16, Decode32;
    Words32(f.streamId);
    Words16(|f.payload| % 0x1_0000);
  }

  /** An accepted frame is legal, and encoding it again gives back exactly the bytes consumed. */
  lemma Reencodes(buf: seq<byte>)
    requires ParseFrame(buf).Whole?
    ensures var Whole(f, n) := ParseFrame(buf); Legal(f) && n <= |buf| && Encoded(f) == buf[..n]
  {
    hide Encode16, Encode32, Decode16, Decode32;
    var Whole(f, n) := ParseFrame(buf);
    Bytes16(buf[5..7]);
    Bytes32(buf[1..5]);
    assert buf[..n] == [buf[0]] + buf[1..5] + buf[5..7] + buf[HEADER_SIZE..n];
  }

  // ------------------------------------------------------------ sequences of frames

  function EncodedAll(frames: seq<Frame>): seq<byte> {
    if frames == [] then [] else EncodedAll(frames[..|frames| - 1]) + Encoded(frames[|frames| - 1])
  }

  predicate AllLegal(frames: seq<Frame>) {
    forall i | 0 <= i < |frames| :: Legal(frames[i])
  }

  lemma {:induction false} EncodedHead(frames: seq<Frame>)
    requires frames != []
    ensures EncodedAll(frames) == Encoded(frames[0]) + EncodedAll(frames[1..])
  {
    hide Encoded;
    var n := |frames| - 1;
    if n == 0 {
      assert frames[..0] == [] && frames[1..] == [];
    } else {
      EncodedHead(frames[..n]);
      assert frames[..n][1..] == frames[1..][..n - 1];
    }
  }

  /** A buffer holding whole legal frames parses as its first frame, or is empty. */
  lemma FirstOfAll(frames: seq<Frame>)
    requires AllLegal(frames)
    ensures frames == [] ==> EncodedAll(frames) == [] && ParseFrame(EncodedAll(frames)) == Incomplete
    ensures frames != [] ==>
      ParseFrame(EncodedAll(frames)) == Whole(frames[0], |Encoded(frames[0])|)
      && EncodedAll(frames)[|Encoded(frames[0])|..] == EncodedAll(frames[1..])
  {
    if frames != [] {
      EncodedHead(frames);
      RoundTrip(frames[0], EncodedAll(frames[1..]));
      HeaderOf(frames[0], []);
      hide Encoded, EncodedAll, ParseFrame;
      assert EncodedAll(frames)[|Encoded(frames[0])|..] == EncodedAll(frames[1..]);
    }
  }

  // --------------------------------------------------------------------- payloads

  datatype Reason =
    | Closed | ExecutionEnded | GrantRejected | GrantExpired | GrantRevoked | NotAuthorized | SessionFailed | MeshUnreachable
    | Unlisted(name: string)

  function ReasonCode(r: Reason): byte {
    match r
    case Closed => 1 case ExecutionEnded => 2 case GrantRejected => 3 case GrantExpired => 4 case GrantRevoked => 5
    case NotAuthorized => 6 case SessionFailed => 7 case MeshUnreachable => 8 case Unlisted(_) => 7
  }

  function ReasonFromCode(code: byte): Reason {
    if code == 1 then Closed else if code == 2 then ExecutionEnded else if code == 3 then GrantRejected
    else if code == 4 then GrantExpired else if code == 5 then GrantRevoked else if code == 6 then NotAuthorized
    else if code == 8 then MeshUnreachable else SessionFailed
  }

  datatype SessionError = SessionError(reason: Reason, detail: seq<byte>)

  function ClosePayload(e: SessionError): seq<byte> {
    [ReasonCode(e.reason)] + if |e.detail| > CLOSE_DETAIL_MAX then e.detail[..CLOSE_DETAIL_MAX] else e.detail
  }

  function ParseClosePayload(payload: seq<byte>): SessionError {
    if payload == [] then SessionError(SessionFailed, []) else SessionError(ReasonFromCode(payload[0]), payload[1..])
  }

  /** A teardown arrives unchanged exactly when its reason is listed and its detail fits; otherwise an
      unlisted reason degrades to a failed session and a long detail is cut. */
  lemma CloseRoundTrip(e: SessionError)
    ensures ParseClosePayload(ClosePayload(e)) == e <==> !e.reason.Unlisted? && |e.detail| <= CLOSE_DETAIL_MAX
    ensures ParseClosePayload(ClosePayload(e)).reason == if e.reason.Unlisted? then SessionFailed else e.reason
    ensures ParseClosePayload(ClosePayload(e)).detail <= e.detail
    ensures Legal(Frame(CLOSE, 0, ClosePayload(e)))
  {
    assert ClosePayload(e)[1..] == if |e.detail| > CLOSE_DETAIL_MAX then e.detail[..CLOSE_DETAIL_MAX] else e.detail;
  }

  /** streamWindowPayload keeps the low thirty-two bits. */
  function WindowPayload(increment: nat): (payload: seq<byte>)
    ensures |payload| == 4
  {
    Encode32(increment % 0x1_0000_0000)
  }

  function ParseWindowPayload(payload: seq<byte>): nat {
    if |payload| < 4 then 0 else Decode32(payload[..4])
  }

  lemma WindowRoundTrip(increment: nat)
    ensures ParseWindowPayload(WindowPayload(increment)) == increment <==> increment < 0x1_0000_0000
  {
    hide Encode32, Decode32;
    Words32(increment % 0x1_0000_0000);
    assert WindowPayload(increment)[..4] == WindowPayload(increment);
  }

  function StreamOpenPayload(port: Word16): seq<byte> {
    Encode16(port)
  }

  function ParseStreamOpen(payload: seq<byte>): Word16 {
    if |payload| < 2 then 0 else Decode16(payload[..2])
  }

  lemma StreamOpenRoundTrip(port: Word16)
    ensures ParseStreamOpen(StreamOpenPayload(port)) == port
  {
    assert Encode16(port)[..2] == Encode16(port);
  }
}
