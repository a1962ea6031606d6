/** The pair's one-time handshake: frames wait, encoded, in a byte buffer that
    is parsed from the front. */
module Handshake {
  import opened Protocol
  import opened Framing

  datatype Received = Got(frame: Frame) | Closed(error: SessionError) | BadFrame | TimedOut

  /** The reason given for a flood of stray handshake frames; its text is left out. */
  const FLOOD := SessionError(SessionFailed, [])

  const RAW_BOUND := 2 * MAX_PAYLOAD + HEADER_SIZE

  class Pair {
    var raw: seq<byte>
    var closed: bool
    var closeErr: SessionError
    ghost var queue: seq<Frame>

    /** The buffer is always a whole number of legal handshake frames, within a fixed bound. */
    ghost predicate Valid()
      reads this
    {
      && AllLegal(queue) && raw == EncodedAll(queue) && |raw| < RAW_BOUND
      && forall i | 0 <= i < |queue| :: queue[i].kind == PREAMBLE || queue[i].kind == ACCEPT
    }

    constructor ()
      ensures Valid() && queue == [] && !closed
    {
      raw, closed, closeErr, queue := [], false, SessionError(SessionFailed, []), [];
    }

    /** terminate and endAll, as far as the handshake sees them: the first reason is kept. */
    method Terminate(e: SessionError)
      requires Valid()
      modifies this
      ensures Valid() && queue == old(queue) && closed
      ensures closeErr == if old(closed) then old(closeErr) else e
    {
      if !closed {
        closed, closeErr := true, e;
      }
    }

    /** ingestPairFrame: a close ends the pair, a handshake frame queues up unless the buffer is full. */
    method IngestPairFrame(f: Frame)
      requires Valid() && Legal(f)
      modifies this
      ensures Valid()
      ensures queue == if (f.kind == PREAMBLE || f.kind == ACCEPT) && |old(raw)| < MAX_PAYLOAD then old(queue) + [f] else old(queue)
      ensures closed <==> old(closed) || f.kind == CLOSE || ((f.kind == PREAMBLE || f.kind == ACCEPT) && |old(raw)| >= MAX_PAYLOAD)
      ensures closed && !old(closed) ==> closeErr == if f.kind == CLOSE then ParseClosePayload(f.payload) else FLOOD
    {
      if f.kind == CLOSE {
        Terminate(ParseClosePayload(f.payload));
        return;
      }
      if f.kind == PREAMBLE || f.kind == ACCEPT {
        if |raw| >= MAX_PAYLOAD {
          Terminate(FLOOD);
          return;
        }
        HeaderOf(f, []);
        assert (queue + [f])[..|queue|] == queue;
        raw := raw + AppendFrame([], f);
        queue := queue + [f];
      }
    }

    /** One turn of readPairFrame's loop under the lock; `None` means keep waiting. */
    method TakeFrame() returns (r: Option<Received>)
      requires Valid()
      modifies this`raw, this`queue
      ensures Valid()
      ensures r != Some(BadFrame) && r != Some(TimedOut)
      ensures old(queue) != [] ==> r == Some(Got(old(queue)[0])) && queue == old(queue)[1..]
      ensures old(queue) == [] ==> queue == [] && r == if closed then Some(Received.Closed(closeErr)) else None
    {
      FirstOfAll(queue);
      var parsed := ParseFrame(raw);
      match parsed
      case Malformed => return Some(BadFrame);
      case Whole(f, consumed) =>
        raw := raw[consumed..];
        queue := queue[1..];
        return Some(Got(f));
      case Incomplete =>
        return if closed then Some(Received.Closed(closeErr)) else None;
    }

    /** readPairFrame: `arrivals(i)` is what the read loop of the pair ingests during the i-th wait, and
        `patience` how many waits fit in the deadline. */
    method ReadPairFrame(arrivals: nat -> seq<Frame>, patience: nat) returns (r: Received)
      requires Valid() && forall i :: AllLegal(arrivals(i))
      modifies this
      ensures Valid() && r != BadFrame
      ensures old(queue) != [] ==> r == Got(old(queue)[0]) && queue == old(queue)[1..]
      ensures old(queue) == [] && r.Got? ==> FirstArrival(arrivals, 0, patience) == Some(r.frame)
      ensures r.TimedOut? ==> queue == [] && !closed && FirstArrival(arrivals, 0, patience) == None
    {
      var i := 0;
      while i < patience
        invariant Valid() && i <= patience && (i == 0 ==> queue == old(queue)) && (i > 0 ==> old(queue) == [])
        invariant old(queue) == [] ==>
          FirstArrival(arrivals, 0, patience) == if queue != [] then Some(queue[0]) else FirstArrival(arrivals, i, patience)
      {
        var taken := TakeFrame();
        if taken.Some? { return taken.value; }
        IngestAll(arrivals(i));
        i := i + 1;
      }
      var last := TakeFrame();
      r := if last.Some? then last.value else TimedOut;
    }

    method IngestAll(frames: seq<Frame>)
      requires Valid() && AllLegal(frames)
      modifies this
      ensures Valid()
      ensures old(queue) == [] ==> if FirstHandshake(frames).None? then queue == [] else queue != [] && queue[0] == FirstHandshake(frames).value
    {
      for i := 0 to |frames|
        invariant Valid()
        invariant old(queue) == [] ==>
          if FirstHandshake(frames[..i]).None? then queue == [] else queue != [] && queue[0] == FirstHandshake(frames[..i]).value
      {
        assert frames[..i + 1][..i] == frames[..i];
        IngestPairFrame(frames[i]);
      }
      assert frames[..|frames|] == frames;
    }
  }

  /** The first preamble or accept of a batch. */
  function FirstHandshake(frames: seq<Frame>): Option<Frame> {
    if frames == [] then None else
    var n := |frames| - 1;
    var earlier := FirstHandshake(frames[..n]);
    if earlier.Some? then earlier else if frames[n].kind == PREAMBLE || frames[n].kind == ACCEPT then Some(frames[n]) else None
  }

  /** The first one to arrive in the waits from `i` on. */
  function FirstArrival(arrivals: nat -> seq<Frame>, i: nat, patience: nat): Option<Frame>
    requires i <= patience
    decreases patience - i
  {
    if i == patience then None
    else if FirstHandshake(arrivals(i)).Some? then FirstHandshake(arrivals(i)) else FirstArrival(arrivals, i + 1, patience)
  }
}
