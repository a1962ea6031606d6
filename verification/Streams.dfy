/** One stream endpoint: its locked sections as functions on its state, and the
    object that runs them. */
module Streams {
  import opened Protocol
  import opened Framing
  import opened StreamProgress

  datatype Endpoint = Endpoint(
    inbox: seq<byte>, eof: bool, peerErr: Option<SessionError>, closed: bool, readDone: bool, writeEOF: bool,
    recvAvail: int, grantPending: nat, peerWindow: int)

  const FRESH := Endpoint([], false, None, false, false, false, WINDOW, 0, WINDOW)

  // ------------------------------------------------------------- locked sections

  datatype Sent = Blocked | WriteClosed | PeerFailed(error: SessionError) | Cleared

  /** sendData up to the packet: wait for credit, fail on a closed side, else spend the credit. */
  function Debit(e: Endpoint, n: nat): (r: (Endpoint, Sent)) {
    if e.closed || e.writeEOF then (e, WriteClosed)
    else if e.peerErr.Some? then (e, Sent.PeerFailed(e.peerErr.value))
    else if e.peerWindow < n then (e, Blocked)
    else (e.(peerWindow := e.peerWindow - n), Cleared)
  }

  datatype Got = Wait | Aborted | AtEnd | PeerError(error: SessionError) | Bytes(data: seq<byte>, grant: nat)

  /** One turn of Read's loop with room for `room` bytes; a grant of zero means no update goes out. */
  function Take(e: Endpoint, room: nat): (r: (Endpoint, Got)) {
    if e.readDone then (e, Aborted)
    else if e.inbox != [] then
      var n := if room < |e.inbox| then room else |e.inbox|;
      var due := e.grantPending + n;
      var send := due >= THRESHOLD;
      (e.(inbox := e.inbox[n..], recvAvail := e.recvAvail + n, grantPending := if send then 0 else due),
       Bytes(e.inbox[..n], if send then due else 0))
    else if e.peerErr.Some? then (e.(closed := true), PeerError(e.peerErr.value))
    else if e.eof then (e, AtEnd)
    else if e.closed then (e, Aborted)
    else (e, Wait)
  }

  /** Whether a frame overruns the window this side advertised. */
  predicate Violates(e: Endpoint, f: Frame) {
    f.kind == DATA && |f.payload| > e.recvAvail
  }

  /** ingest: deliver one frame; a violation closes the stream. */
  function Ingest(e: Endpoint, f: Frame): Endpoint {
    if Violates(e, f) then e.(closed := true)
    else if f.kind == DATA then e.(recvAvail := e.recvAvail - |f.payload|, inbox := e.inbox + f.payload)
    else if f.kind == EOF then e.(eof := true)
    else if f.kind == CLOSE && e.peerErr.None? && f.payload != [] then e.(peerErr := Some(ParseClosePayload(f.payload)))
    else if f.kind == WINDOW_UPDATE && |f.payload| >= 4 then e.(peerWindow := e.peerWindow + ParseWindowPayload(f.payload))
    else e
  }

  /** What holds of one endpoint whatever its peer sends: what is buffered and what may still be
      accepted stay, together, within the window. */
  predicate Bounded(e: Endpoint) {
    0 <= e.recvAvail && |e.inbox| + e.recvAvail <= WINDOW && e.grantPending < THRESHOLD && 0 <= e.peerWindow
  }

  lemma StaysBounded(e: Endpoint, f: Frame, room: nat, n: nat)
    requires Bounded(e)
    ensures Bounded(Ingest(e, f)) && Bounded(Take(e, room).0) && Bounded(Debit(e, n).0)
    ensures Bounded(e.(readDone := true, inbox := []))
  {
  }

  // -------------------------------------------------------------- after CloseRead

  /** A data frame that arrives after CloseRead is still taken into the buffer, exactly when it fits the space
      advertised; otherwise it closes the stream. Nothing takes it out again. */
  lemma DeafTakesExactly(e: Endpoint, f: Frame, room: nat)
    requires Bounded(e) && e.readDone && f.kind == DATA
    ensures Ingest(e, f) == e.(inbox := e.inbox + f.payload, recvAvail := e.recvAvail - |f.payload|) <==> |f.payload| <= e.recvAvail
    ensures |f.payload| > e.recvAvail ==> Ingest(e, f) == e.(closed := true)
    ensures Take(e, room) == (e, Aborted)
  {
    if |f.payload| > e.recvAvail { assert |e.inbox + f.payload| > |e.inbox|; }
  }

  function IngestedAll(e: Endpoint, frames: seq<Frame>): Endpoint {
    if frames == [] then e else Ingest(IngestedAll(e, frames[..|frames| - 1]), frames[|frames| - 1])
  }

  /** Whatever a peer sends after CloseRead, the buffer that nobody reads holds at most the space left then. */
  lemma {:induction false} DeafBound(e: Endpoint, frames: seq<Frame>)
    requires Bounded(e)
    ensures var k := IngestedAll(e.(readDone := true, inbox := []), frames);
      k.readDone && 0 <= k.recvAvail && |k.inbox| + k.recvAvail == e.recvAvail
  {
    if frames != [] {
      hide ParseClosePayload, ParseWindowPayload;
      DeafBound(e, frames[..|frames| - 1]);
    }
  }

  // ------------------------------------------------------------------ the object

  function DataOf(frames: seq<Frame>): seq<byte> {
    if frames == [] then [] else
    var last := frames[|frames| - 1];
    DataOf(frames[..|frames| - 1]) + if last.kind == DATA then last.payload else []
  }

  lemma DataMore(from: seq<Frame>, sent: seq<Frame>, f: Frame, p: seq<byte>, total: nat, end: nat)
    requires total <= end <= |p| && DataOf(sent) == DataOf(from) + p[..total] && f.kind == DATA && f.payload == p[total..end]
    ensures DataOf(sent + [f]) == DataOf(from) + p[..end]
  {
    assert (sent + [f])[..|sent|] == sent && p[..end] == p[..total] + p[total..end];
    assert DataOf(from) + p[..total] + p[total..end] == DataOf(from) + (p[..total] + p[total..end]);
  }

  class StreamConn {
    const id: Word32
    const maxSeg: nat
    var inbox: seq<byte>
    var eof: bool
    var peerErr: Option<SessionError>
    var closed: bool
    var readDone: bool
    var writeEOF: bool
    var recvAvail: int
    var grantPending: nat
    var peerWindow: int
    /** Whether the teardown has run, and the frames given to the pair so far. */
    var ended: bool
    var sent: seq<Frame>

    ghost function State(): Endpoint
      reads this
    {
      Endpoint(inbox, eof, peerErr, closed, readDone, writeEOF, recvAvail, grantPending, peerWindow)
    }

    ghost predicate Valid()
      reads this
    {
      Bounded(State()) && 1 <= maxSeg <= MAX_PAYLOAD && (closed <==> ended) && forall i | 0 <= i < |sent| :: Legal(sent[i])
    }

    constructor (id: Word32, mtu: int)
      ensures Valid() && State() == FRESH && sent == [] && this.id == id && maxSeg == SegmentFor(mtu)
    {
      this.id, maxSeg := id, SegmentFor(mtu);
      inbox, eof, peerErr, closed, readDone, writeEOF := [], false, None, false, false, false;
      recvAvail, grantPending, peerWindow, ended, sent := WINDOW, 0, WINDOW, false, [];
    }

    method WriteFrame(kind: byte, payload: seq<byte>)
      requires Valid() && Legal(Frame(kind, id, payload))
      modifies this`sent
      ensures Valid() && sent == old(sent) + [Frame(kind, id, payload)]
    {
      sent := sent + [Frame(kind, id, payload)];
    }

    /** end: runs once, telling the peer first when there is a reason. */
    method End(reason: Option<SessionError>)
      requires Valid()
      modifies this`closed, this`ended, this`sent
      ensures Valid() && State() == old(State()).(closed := true)
      ensures sent == if old(ended) || reason.None? then old(sent) else old(sent) + [Frame(CLOSE, id, ClosePayload(reason.value))]
    {
      if ended { return; }
      if reason.Some? {
        CloseRoundTrip(reason.value);
        WriteFrame(CLOSE, ClosePayload(reason.value));
      }
      closed, ended := true, true;
    }

    /** ingest. */
    method IngestFrame(f: Frame)
      requires Valid()
      modifies this
      ensures Valid() && State() == Ingest(old(State()), f)
      ensures sent == if Violates(old(State()), f) && !old(ended) then old(sent) + [Frame(CLOSE, id, ClosePayload(VIOLATION))] else old(sent)
    {
      if f.kind == DATA {
        if |f.payload| > recvAvail {
          End(Some(VIOLATION));
          return;
        }
        recvAvail := recvAvail - |f.payload|;
        inbox := inbox + f.payload;
      } else if f.kind == EOF {
        eof := true;
      } else if f.kind == CLOSE {
        if peerErr.None? && |f.payload| > 0 {
          peerErr := Some(ParseClosePayload(f.payload));
        }
      } else if f.kind == WINDOW_UPDATE {
        if |f.payload| >= 4 {
          peerWindow := peerWindow + ParseWindowPayload(f.payload);
        }
      }
    }

    /** The branch of Read that has bytes to return. */
    method Consume(room: nat) returns (data: seq<byte>, grant: nat)
      requires Valid() && !readDone && inbox != []
      modifies this`inbox, this`recvAvail, this`grantPending
      ensures Valid() && (State(), Bytes(data, grant)) == Take(old(State()), room)
      ensures grant > 0 ==> grant == old(grantPending) + |data| && grant <= 2 * WINDOW
    {
      var n := if room < |inbox| then room else |inbox|;
      data := inbox[..n];
      inbox := inbox[n..];
      recvAvail := recvAvail + n;
      grantPending := grantPending + n;
      grant := 0;
      if grantPending >= THRESHOLD {
        grant := grantPending;
        grantPending := 0;
      }
    }

    /** One turn of Read. The update it may send carries exactly the bytes consumed since the last one. */
    method Read(room: nat) returns (got: Got)
      requires Valid()
      modifies this
      ensures Valid() && (State(), got) == Take(old(State()), room)
      ensures got.Bytes? && got.grant > 0 ==>
        && sent == old(sent) + [Frame(WINDOW_UPDATE, id, WindowPayload(got.grant))]
        && ParseWindowPayload(WindowPayload(got.grant)) == got.grant == old(grantPending) + |got.data|
      ensures !(got.Bytes? && got.grant > 0) ==> sent == old(sent)
    {
      if readDone { return Aborted; }
      if |inbox| > 0 {
        hide Take;
        var data, grant := Consume(room);
        if grant > 0 {
          WindowRoundTrip(grant);
          WriteFrame(WINDOW_UPDATE, WindowPayload(grant));
        }
        return Bytes(data, grant);
      }
      if peerErr.Some? {
        var err := peerErr.value;
        End(None);
        return PeerError(err);
      }
      if eof { return AtEnd; }
      if closed { return Aborted; }
      got := Wait;
    }

    /** Data frames carry between one byte and a segment. */
    predicate Segmented(frames: seq<Frame>) {
      forall i | 0 <= i < |frames| && frames[i].kind == DATA :: 1 <= |frames[i].payload| <= maxSeg
    }

    lemma SegmentedMore(from: seq<Frame>, sent: seq<Frame>, more: seq<Frame>)
      requires from <= sent && (sent == from || Segmented(sent[|from|..])) && Segmented(more)
      ensures from <= sent + more && Segmented((sent + more)[|from|..])
    {
      assert (sent + more)[|from|..] == sent[|from|..] + more;
    }

    /** One turn of sendData: `Blocked` means the caller waits for credit and tries again. */
    method SendData(payload: seq<byte>) returns (r: Sent)
      requires Valid() && |payload| <= MAX_PAYLOAD
      modifies this`peerWindow, this`sent
      ensures Valid() && (State(), r) == Debit(old(State()), |payload|)
      ensures sent == if r.Cleared? then old(sent) + [Frame(DATA, id, payload)] else old(sent)
    {
      if peerWindow < |payload| && !closed && !writeEOF && peerErr.None? { return Blocked; }
      if closed || writeEOF { return WriteClosed; }
      if peerErr.Some? { return Sent.PeerFailed(peerErr.value); }
      peerWindow := peerWindow - |payload|;
      WriteFrame(DATA, payload);
      r := Cleared;
    }

    /** Write: segments of at most `maxSeg`, in order, each cleared by the peer's window. `arrivals(i)` are the
        frames ingested during the i-th wait for credit, and `patience` bounds the waits. */
    method Write(p: seq<byte>, arrivals: nat -> seq<Frame>, patience: nat) returns (total: nat, last: Sent)
      requires Valid()
      modifies this
      ensures Valid() && total <= |p| && (total == |p| <==> last.Cleared?)
      ensures DataOf(sent) == DataOf(old(sent)) + p[..total]
      ensures old(sent) <= sent && Segmented(sent[|old(sent)|..])
    {
      hide Segmented, DataOf;
      total, last := 0, Cleared;
      var waits := 0;
      assert sent[|sent|..] == [];
      SegmentedMore(sent, sent, []);
      assert p[..0] == [] && DataOf(sent) + [] == DataOf(sent);
      while total < |p|
        invariant Valid() && total <= |p| && waits <= patience && last.Cleared?
        invariant DataOf(sent) == DataOf(old(sent)) + p[..total]
        invariant old(sent) <= sent && Segmented(sent[|old(sent)|..])
        decreases |p| - total, patience - waits
      {
        var end := if total + maxSeg > |p| then |p| else total + maxSeg;
        ghost var before := sent;
        last := SendData(p[total..end]);
        if last.Cleared? {
          DataMore(old(sent), before, Frame(DATA, id, p[total..end]), p, total, end);
          SegmentedMore(old(sent), before, [Frame(DATA, id, p[total..end])]);
          total := end;
        } else if last.Blocked? && waits < patience {
          IngestAll(arrivals(waits));
          SegmentedMore(old(sent), before, sent[|before|..]);
          assert sent == before + sent[|before|..];
          waits, last := waits + 1, Cleared;
        } else {
          return;
        }
      }
    }

    method IngestAll(frames: seq<Frame>)
      requires Valid()
      modifies this
      ensures Valid() && DataOf(sent) == DataOf(old(sent)) && old(sent) <= sent
      ensures forall i | |old(sent)| <= i < |sent| :: sent[i].kind != DATA
    {
      for i := 0 to |frames|
        invariant Valid() && DataOf(sent) == DataOf(old(sent)) && old(sent) <= sent
        invariant forall i | |old(sent)| <= i < |sent| :: sent[i].kind != DATA
      {
        ghost var before := sent;
        IngestFrame(frames[i]);
        assert sent == before || (sent[..|before|] == before && |sent| == |before| + 1);
      }
    }

    /** CloseRead: buffered bytes are dropped and their credit is not returned. */
    method CloseRead()
      requires Valid()
      modifies this`readDone, this`inbox
      ensures Valid() && State() == old(State()).(readDone := true, inbox := [])
    {
      readDone := true;
      inbox := [];
    }

    /** CloseWrite: one end marker, once. */
    method CloseWrite()
      requires Valid()
      modifies this`writeEOF, this`sent
      ensures Valid() && State() == old(State()).(writeEOF := old(writeEOF) || !old(closed))
      ensures sent == if old(closed || writeEOF) then old(sent) else old(sent) + [Frame(EOF, id, [])]
    {
      if closed || writeEOF { return; }
      writeEOF := true;
      WriteFrame(EOF, []);
    }
  }

  /** The teardown sent to a peer that overruns the window; its text is left out. */
  const VIOLATION := SessionError(SessionFailed, [])
}
