/** The framing layer of aws/messagerw.go: a byte stream that arrives in arbitrary websocket
    frames carries messages, each preceded by its length in two big-endian bytes. */
module Framing {
  import opened Basics

  const SIZE_OF_MESSAGE_SIZE := 2
  const UINT16_RANGE := 0x1_0000
  const MAX_BODY := 65533

  /** The type tag gorilla/websocket gives to a binary frame. */
  const BINARY_MESSAGE := 2

  /** proto.Marshal and proto.Unmarshal; both can fail. */
  datatype Codec<!M> = Codec(encode: M -> Option<seq<byte>>, decode: seq<byte> -> Option<M>)

  ghost predicate Lawful<M(!new)>(c: Codec<M>) {
    forall m :: c.encode(m).Some? ==> c.decode(c.encode(m).value) == Some(m)
  }

  /** One answer of the websocket connection to ReadMessage. */
  datatype WsRead = WsFrame(messageType: int, data: seq<byte>) | WsError

  /** What one call of Next comes back with. Panicked is the slice expression of line 118 failing. */
  datatype Outcome<+M> = Message(message: M) | Malformed | ReadFailed | Panicked

  // ---------------------------------------------------------------------------
  //  Two-byte lengths
  // ---------------------------------------------------------------------------

  function PutUint16(n: nat): (s: seq<byte>)
    ensures |s| == 2
  {
    [n % UINT16_RANGE / 256, n % 256]
  }

  function Uint16(s: seq<byte>): (n: nat)
    requires |s| >= 2
    ensures n < UINT16_RANGE
  {
    s[0] as int * 256 + s[1] as int
  }

  lemma Uint16OfPut(n: nat, rest: seq<byte>)
    ensures Uint16(PutUint16(n) + rest) == n % UINT16_RANGE
  {
    var m := n % UINT16_RANGE;
    assert n % 256 == m % 256;
  }

  /** The end of the first message in the buffer; the sum is computed in 16 bits. */
  function EndPosition(buf: seq<byte>): (n: nat)
    requires |buf| >= 2
    ensures n < UINT16_RANGE
  {
    var sum := SIZE_OF_MESSAGE_SIZE + Uint16(buf);
    if sum < UINT16_RANGE then sum else sum - UINT16_RANGE
  }

  // ---------------------------------------------------------------------------
  //  The reader as a function of its buffer and of the frames still to come
  // ---------------------------------------------------------------------------

  function BinaryData(e: WsRead): Option<seq<byte>> {
    if e.WsFrame? && e.messageType == BINARY_MESSAGE then Some(e.data) else None
  }

  /** The reader's progress: its buffer, and how many answers of the connection it has read. */
  datatype Filled = Filled(ok: bool, buf: seq<byte>, pos: nat)

  function Fill(buf: seq<byte>, script: seq<WsRead>, pos: nat, n: nat): Filled
    requires pos <= |script|
    decreases |script| - pos
  {
    if |buf| >= n then Filled(true, buf, pos)
    else if pos == |script| then Filled(false, buf, pos)
    else match BinaryData(script[pos])
      case None => Filled(false, buf, pos + 1)
      case Some(d) => Fill(buf + d, script, pos + 1, n)
  }

  /** The two calls of readAtLeast in Next: for the length, then for the whole message. */
  function Refill(buf: seq<byte>, script: seq<WsRead>, pos: nat): Filled
    requires pos <= |script|
  {
    var f := Fill(buf, script, pos, SIZE_OF_MESSAGE_SIZE);
    FillKeepsBytes(buf, script, pos, SIZE_OF_MESSAGE_SIZE);
    if !f.ok then f else Fill(f.buf, script, f.pos, EndPosition(f.buf))
  }

  datatype Step<+M> = Step(outcome: Outcome<M>, buf: seq<byte>, pos: nat)

  function Decoded<M>(c: Codec<M>, body: seq<byte>): Outcome<M> {
    match c.decode(body)
    case Some(m) => Message(m)
    case None => Malformed
  }

  function NextStep<M>(c: Codec<M>, buf: seq<byte>, script: seq<WsRead>, pos: nat): Step<M>
    requires pos <= |script|
  {
    var g := Refill(buf, script, pos);
    RefillKeepsBytes(buf, script, pos);
    if !g.ok then Step(ReadFailed, g.buf, g.pos)
    else
      var end := EndPosition(g.buf);
      if end < SIZE_OF_MESSAGE_SIZE then Step(Panicked, g.buf, g.pos)
      else Step(Decoded(c, g.buf[SIZE_OF_MESSAGE_SIZE..end]), g.buf[end..], g.pos)
  }

  /** Any number of calls of Next, one after another; a panic ends them. */
  datatype History<+M> = History(outcomes: seq<Outcome<M>>, buf: seq<byte>, pos: nat, panicked: bool)

  function Calls<M>(c: Codec<M>, buf: seq<byte>, script: seq<WsRead>, pos: nat, k: nat): History<M>
    requires pos <= |script|
    decreases k
  {
    if k == 0 then History([], buf, pos, false)
    else
      var n := NextStep(c, buf, script, pos);
      NextConsumesOneFrame(c, buf, script, pos);
      if n.outcome.Panicked? then History([n.outcome], n.buf, n.pos, true)
      else
        var h := Calls(c, n.buf, script, n.pos, k - 1);
        History([n.outcome] + h.outcomes, h.buf, h.pos, h.panicked)
  }

  // ---------------------------------------------------------------------------
  //  The same stream without frames: a pure parse of the bytes
  // ---------------------------------------------------------------------------

  /** The bytes that the binary frames among script[i..j] carry. */
  function Bytes(script: seq<WsRead>, i: nat, j: nat): seq<byte>
    requires j <= |script|
    decreases j - i
  {
    if i >= j then []
    else match BinaryData(script[i])
      case None => Bytes(script, i + 1, j)
      case Some(d) => d + Bytes(script, i + 1, j)
  }

  predicate HasFrame(b: seq<byte>) {
    |b| >= 2 && |b| >= EndPosition(b)
  }

  function Parse<M>(c: Codec<M>, b: seq<byte>): seq<Outcome<M>> {
    if !HasFrame(b) then []
    else
      var end := EndPosition(b);
      if end < SIZE_OF_MESSAGE_SIZE then [Panicked]
      else [Decoded(c, b[SIZE_OF_MESSAGE_SIZE..end])] + Parse(c, b[end..])
  }

  function Delivered<M>(outs: seq<Outcome<M>>): seq<Outcome<M>> {
    if outs == [] then []
    else if outs[0].ReadFailed? then Delivered(outs[1..])
    else [outs[0]] + Delivered(outs[1..])
  }

  // ---------------------------------------------------------------------------
  //  One call
  // ---------------------------------------------------------------------------

  lemma {:induction false} FillKeepsBytes(buf: seq<byte>, script: seq<WsRead>, pos: nat, n: nat)
    requires pos <= |script|
    ensures var f := Fill(buf, script, pos, n);
            && pos <= f.pos <= |script|
            && f.buf == buf + Bytes(script, pos, f.pos)
            && (f.ok ==> |f.buf| >= n)
            && (|buf| >= n ==> f == Filled(true, buf, pos))
    decreases |script| - pos
  {
    var f := Fill(buf, script, pos, n);
    if |buf| < n && pos < |script| {
      match BinaryData(script[pos])
      case None =>
      case Some(d) =>
        FillKeepsBytes(buf + d, script, pos + 1, n);
        assert buf + d + Bytes(script, pos + 1, f.pos) == buf + (d + Bytes(script, pos + 1, f.pos));
    }
  }

  lemma {:induction false} BytesSplit(script: seq<WsRead>, i: nat, j: nat, k: nat)
    requires i <= j <= k <= |script|
    ensures Bytes(script, i, k) == Bytes(script, i, j) + Bytes(script, j, k)
    decreases j - i
  {
    if i < j {
      BytesSplit(script, i + 1, j, k);
    }
  }

  lemma BytesJoin(buf: seq<byte>, script: seq<WsRead>, i: nat, j: nat, k: nat)
    requires i <= j <= k <= |script|
    ensures buf + Bytes(script, i, j) + Bytes(script, j, k) == buf + Bytes(script, i, k)
  {
    BytesSplit(script, i, j, k);
  }

  lemma SameHead(b: seq<byte>, more: seq<byte>)
    requires |b| >= 2
    ensures EndPosition(b + more) == EndPosition(b)
  {
    assert (b + more)[0] == b[0] && (b + more)[1] == b[1];
  }

  lemma RefillKeepsBytes(buf: seq<byte>, script: seq<WsRead>, pos: nat)
    requires pos <= |script|
    ensures var g := Refill(buf, script, pos);
            && pos <= g.pos <= |script|
            && g.buf == buf + Bytes(script, pos, g.pos)
            && (g.ok ==> HasFrame(g.buf))
            && (HasFrame(buf) ==> g == Filled(true, buf, pos))
  {
    var f := Fill(buf, script, pos, SIZE_OF_MESSAGE_SIZE);
    FillKeepsBytes(buf, script, pos, SIZE_OF_MESSAGE_SIZE);
    if f.ok {
      var end := EndPosition(f.buf);
      var g := Fill(f.buf, script, f.pos, end);
      FillKeepsBytes(f.buf, script, f.pos, end);
      BytesJoin(buf, script, pos, f.pos, g.pos);
      SameHead(f.buf, Bytes(script, f.pos, g.pos));
    }
  }

  /** What one call does to the stream: the buffer and the bytes just read are the frame handed
      out followed by the new buffer. A read error hands out nothing and loses nothing; a call
      that finds a whole frame buffered reads nothing. */
  lemma NextConsumesOneFrame<M>(c: Codec<M>, buf: seq<byte>, script: seq<WsRead>, pos: nat)
    requires pos <= |script|
    ensures pos <= NextStep(c, buf, script, pos).pos <= |script|
    ensures var n := NextStep(c, buf, script, pos);
            var stream := buf + Bytes(script, pos, n.pos);
            && (n.outcome.ReadFailed? ==> n.buf == stream)
            && (n.outcome.Panicked? ==>
                  n.buf == stream && HasFrame(stream) && EndPosition(stream) < SIZE_OF_MESSAGE_SIZE)
            && (!n.outcome.ReadFailed? && !n.outcome.Panicked? ==>
                  && HasFrame(stream)
                  && SIZE_OF_MESSAGE_SIZE <= EndPosition(stream)
                  && n.outcome == Decoded(c, stream[SIZE_OF_MESSAGE_SIZE..EndPosition(stream)])
                  && n.buf == stream[EndPosition(stream)..])
            && (HasFrame(buf) ==> n.pos == pos && !n.outcome.ReadFailed?)
  {
    RefillKeepsBytes(buf, script, pos);
  }

  /** A frame at the head of a stream is the same whatever follows it. */
  lemma HeadOfTotal(stream: seq<byte>, more: seq<byte>)
    requires HasFrame(stream)
    ensures var total := stream + more;
            var end := EndPosition(stream);
            && HasFrame(total) && EndPosition(total) == end
            && total[end..] == stream[end..] + more
            && (end >= SIZE_OF_MESSAGE_SIZE ==> total[SIZE_OF_MESSAGE_SIZE..end] == stream[SIZE_OF_MESSAGE_SIZE..end])
  {
    SameHead(stream, more);
  }

  /** How a result and the stream after it follow from the stream before it. */
  ghost predicate Takes<M>(c: Codec<M>, total: seq<byte>, outcome: Outcome<M>, rest: seq<byte>) {
    match outcome
    case ReadFailed => rest == total
    case Panicked => HasFrame(total) && EndPosition(total) < SIZE_OF_MESSAGE_SIZE
    case _ =>
      && HasFrame(total)
      && SIZE_OF_MESSAGE_SIZE <= EndPosition(total)
      && outcome == Decoded(c, total[SIZE_OF_MESSAGE_SIZE..EndPosition(total)])
      && rest == total[EndPosition(total)..]
  }

  /** One call, seen from any later point `j` of the stream. */
  lemma NextTakes<M>(c: Codec<M>, buf: seq<byte>, script: seq<WsRead>, pos: nat, j: nat)
    requires pos <= |script|
    requires NextStep(c, buf, script, pos).pos <= j <= |script|
    ensures var n := NextStep(c, buf, script, pos);
            pos <= n.pos && Takes(c, buf + Bytes(script, pos, j), n.outcome, n.buf + Bytes(script, n.pos, j))
  {
    NextConsumesOneFrame(c, buf, script, pos);
    var n := NextStep(c, buf, script, pos);
    BytesSplit(script, pos, n.pos, j);
    var stream, more := buf + Bytes(script, pos, n.pos), Bytes(script, n.pos, j);
    assert buf + Bytes(script, pos, j) == stream + more;
    if !n.outcome.ReadFailed? {
      HeadOfTotal(stream, more);
    }
  }

  lemma ParseTakes<M>(c: Codec<M>, total: seq<byte>, outcome: Outcome<M>, rest: seq<byte>)
    requires Takes(c, total, outcome, rest)
    ensures outcome.Panicked? ==> Parse(c, total) == [Panicked]
    ensures !outcome.Panicked? && !outcome.ReadFailed? ==> Parse(c, total) == [outcome] + Parse(c, rest)
  {
  }

  lemma ExpectedTakes<M>(c: Codec<M>, total: seq<byte>, outcome: Outcome<M>, rest: seq<byte>, k: nat)
    requires Takes(c, total, outcome, rest) && k > 0
    requires outcome.ReadFailed? ==> !HasFrame(total)
    ensures Expected(c, total, k)
         == if outcome.Panicked? then [outcome] else [outcome] + Expected(c, rest, k - 1)
  {
  }

  // ---------------------------------------------------------------------------
  //  Any number of calls
  // ---------------------------------------------------------------------------

  /** What a parse finds beyond the results handed out. */
  function Tail<M>(c: Codec<M>, h: History<M>): seq<Outcome<M>> {
    if h.panicked then [] else Parse(c, h.buf)
  }

  /** The last call that hands anything out: it panics. */
  lemma CallPanics<M>(c: Codec<M>, buf: seq<byte>, script: seq<WsRead>, pos: nat)
    requires pos <= |script| && NextStep(c, buf, script, pos).outcome.Panicked?
    ensures NextStep(c, buf, script, pos).pos <= |script|
    ensures Parse(c, buf + Bytes(script, pos, NextStep(c, buf, script, pos).pos)) == [Panicked]
  {
    var n := NextStep(c, buf, script, pos);
    NextConsumesOneFrame(c, buf, script, pos);
    NextTakes(c, buf, script, pos, n.pos);
    ParseTakes(c, buf + Bytes(script, pos, n.pos), n.outcome, n.buf);
  }

  /** One call in front of a history. */
  lemma CallGoesOn<M>(c: Codec<M>, buf: seq<byte>, script: seq<WsRead>, pos: nat, h: History<M>)
    requires pos <= |script| && !NextStep(c, buf, script, pos).outcome.Panicked?
    requires var n := NextStep(c, buf, script, pos);
             && n.pos <= h.pos <= |script|
             && Parse(c, n.buf + Bytes(script, n.pos, h.pos)) == Delivered(h.outcomes) + Tail(c, h)
    ensures var n := NextStep(c, buf, script, pos);
            Parse(c, buf + Bytes(script, pos, h.pos)) == Delivered([n.outcome] + h.outcomes) + Tail(c, h)
  {
    var n := NextStep(c, buf, script, pos);
    NextTakes(c, buf, script, pos, h.pos);
    ParseOfRun(c, buf + Bytes(script, pos, h.pos), n.outcome, n.buf + Bytes(script, n.pos, h.pos), h);
  }

  /** For every script of frames and errors and any number of calls: the results other than read
      errors are the parse of the bytes received, as far as it was handed out, and the buffer is
      exactly what has not been handed out yet. */
  lemma {:induction false} CallsFollowParse<M>(c: Codec<M>, buf: seq<byte>, script: seq<WsRead>, pos: nat, k: nat)
    requires pos <= |script|
    ensures pos <= Calls(c, buf, script, pos, k).pos <= |script|
    ensures var h := Calls(c, buf, script, pos, k);
            var received := buf + Bytes(script, pos, h.pos);
            Parse(c, received) == Delivered(h.outcomes) + if h.panicked then [] else Parse(c, h.buf)
    decreases k
  {
    if k == 0 {
      assert buf + [] == buf;
    } else {
      var n := NextStep(c, buf, script, pos);
      NextConsumesOneFrame(c, buf, script, pos);
      if n.outcome.Panicked? {
        CallPanics(c, buf, script, pos);
        DeliveredCons(n.outcome, []);
      } else {
        CallsFollowParse(c, n.buf, script, n.pos, k - 1);
        CallGoesOn(c, buf, script, pos, Calls(c, n.buf, script, n.pos, k - 1));
      }
    }
  }

  lemma ParseOfRun<M>(c: Codec<M>, total: seq<byte>, outcome: Outcome<M>, rest: seq<byte>, h: History<M>)
    requires Takes(c, total, outcome, rest) && !outcome.Panicked?
    requires Parse(c, rest) == Delivered(h.outcomes) + Tail(c, h)
    ensures Parse(c, total) == Delivered([outcome] + h.outcomes) + Tail(c, h)
  {
    DeliveredCons(outcome, h.outcomes);
    if outcome.ReadFailed? {
      assert [] + Delivered(h.outcomes) == Delivered(h.outcomes);
    } else {
      ParseTakes(c, total, outcome, rest);
      ConsOfSum(outcome, Delivered(h.outcomes), Tail(c, h));
    }
  }

  lemma ConsOfSum<T>(x: T, a: seq<T>, b: seq<T>)
    ensures [x] + (a + b) == [x] + a + b
  {
  }

  lemma DeliveredCons<M>(o: Outcome<M>, outs: seq<Outcome<M>>)
    ensures Delivered([o] + outs) == (if o.ReadFailed? then [] else [o]) + Delivered(outs)
  {
    assert ([o] + outs)[1..] == outs;
  }

  predicate AllBinary(script: seq<WsRead>) {
    forall i :: 0 <= i < |script| ==> BinaryData(script[i]).Some?
  }

  /** The next answer of the connection that is not a binary frame. */
  function FirstError(script: seq<WsRead>, pos: nat): (e: nat)
    requires pos <= |script|
    ensures pos <= e <= |script|
    ensures e < |script| ==> BinaryData(script[e]).None?
    ensures forall i :: pos <= i < e ==> BinaryData(script[i]).Some?
    decreases |script| - pos
  {
    if pos == |script| || BinaryData(script[pos]).None? then pos else FirstError(script, pos + 1)
  }

  lemma {:induction false} FillUpToError(buf: seq<byte>, script: seq<WsRead>, pos: nat, n: nat)
    requires pos <= |script|
    ensures var e := FirstError(script, pos);
            var all := buf + Bytes(script, pos, e);
            && (Fill(buf, script, pos, n).ok <==> |all| >= n)
            && (Fill(buf, script, pos, n).ok ==> Fill(buf, script, pos, n).pos <= e)
            && (!Fill(buf, script, pos, n).ok ==>
                  Fill(buf, script, pos, n) == Filled(false, all, if e < |script| then e + 1 else e))
    decreases |script| - pos
  {
    if |buf| < n && pos < |script| && BinaryData(script[pos]).Some? {
      var d := BinaryData(script[pos]).value;
      FillUpToError(buf + d, script, pos + 1, n);
      var e := FirstError(script, pos + 1);
      assert buf + d + Bytes(script, pos + 1, e) == buf + (d + Bytes(script, pos + 1, e));
    }
  }

  lemma {:induction false} SameFirstError(script: seq<WsRead>, pos: nat, later: nat)
    requires pos <= |script| && pos <= later <= FirstError(script, pos)
    ensures FirstError(script, later) == FirstError(script, pos)
    decreases later - pos
  {
    if pos < later {
      SameFirstError(script, pos + 1, later);
    }
  }

  /** On any connection: a call fails exactly when no whole frame arrives before the next error, or frame
      that is not binary; it then has used that up and has kept all bytes in front of it. */
  lemma NextFailsIff<M>(c: Codec<M>, buf: seq<byte>, script: seq<WsRead>, pos: nat)
    requires pos <= |script|
    ensures var n, e := NextStep(c, buf, script, pos), FirstError(script, pos);
            var total := buf + Bytes(script, pos, e);
            && (n.outcome.ReadFailed? <==> !HasFrame(total))
            && (n.outcome.ReadFailed? ==> n.buf == total && n.pos == if e < |script| then e + 1 else e)
            && (!n.outcome.ReadFailed? ==> n.pos <= e)
  {
    var e := FirstError(script, pos);
    var total := buf + Bytes(script, pos, e);
    var f := Fill(buf, script, pos, SIZE_OF_MESSAGE_SIZE);
    FillUpToError(buf, script, pos, SIZE_OF_MESSAGE_SIZE);
    FillKeepsBytes(buf, script, pos, SIZE_OF_MESSAGE_SIZE);
    if f.ok {
      SameFirstError(script, pos, f.pos);
      BytesSplit(script, pos, f.pos, e);
      assert total == f.buf + Bytes(script, f.pos, e);
      SameHead(f.buf, Bytes(script, f.pos, e));
      FillUpToError(f.buf, script, f.pos, EndPosition(f.buf));
    }
  }

  /** On a connection without errors, Next waits exactly until the stream holds a whole frame. */
  lemma NextSucceeds<M>(c: Codec<M>, buf: seq<byte>, script: seq<WsRead>, pos: nat)
    requires AllBinary(script) && pos <= |script|
    ensures var n := NextStep(c, buf, script, pos);
            var total := buf + Bytes(script, pos, |script|);
            && (n.outcome.ReadFailed? <==> !HasFrame(total))
            && (n.outcome.ReadFailed? ==> n.buf == total && n.pos == |script|)
  {
    NextFailsIff(c, buf, script, pos);
    assert FirstError(script, pos) == |script|;
  }

  /** The results of k calls on an error-free connection, from the bytes alone. */
  function Expected<M>(c: Codec<M>, total: seq<byte>, k: nat): seq<Outcome<M>> {
    if k == 0 then []
    else if !HasFrame(total) then [ReadFailed] + Expected(c, total, k - 1)
    else
      var end := EndPosition(total);
      if end < SIZE_OF_MESSAGE_SIZE then [Panicked]
      else [Decoded(c, total[SIZE_OF_MESSAGE_SIZE..end])] + Expected(c, total[end..], k - 1)
  }

  lemma {:induction false} CallsAreExpected<M>(c: Codec<M>, buf: seq<byte>, script: seq<WsRead>, pos: nat, k: nat)
    requires AllBinary(script) && pos <= |script|
    ensures Calls(c, buf, script, pos, k).outcomes == Expected(c, buf + Bytes(script, pos, |script|), k)
    decreases k
  {
    if k > 0 {
      var n := NextStep(c, buf, script, pos);
      NextSucceeds(c, buf, script, pos);
      NextConsumesOneFrame(c, buf, script, pos);
      NextTakes(c, buf, script, pos, |script|);
      ExpectedTakes(c, buf + Bytes(script, pos, |script|), n.outcome, n.buf + Bytes(script, n.pos, |script|), k);
      CallsAreExpected(c, n.buf, script, n.pos, k - 1);
    }
  }

  /** The results do not depend on how the stream was cut into frames. */
  lemma FragmentationIndependence<M>(c: Codec<M>, one: seq<WsRead>, other: seq<WsRead>, k: nat)
    requires AllBinary(one) && AllBinary(other)
    requires Bytes(one, 0, |one|) == Bytes(other, 0, |other|)
    ensures Calls(c, [], one, 0, k).outcomes == Calls(c, [], other, 0, k).outcomes
  {
    CallsAreExpected(c, [], one, 0, k);
    CallsAreExpected(c, [], other, 0, k);
  }

  // ---------------------------------------------------------------------------
  //  Serialization
  // ---------------------------------------------------------------------------

  function FrameOf(body: seq<byte>): seq<byte> {
    PutUint16(|body|) + body
  }

  function Serialized<M>(c: Codec<M>, m: M): Option<seq<byte>> {
    match c.encode(m)
    case None => None
    case Some(body) => Some(FrameOf(body))
  }

  /** A message goes out over the wire: it marshals, and its body respects the usable bound. */
  predicate Sendable<M>(c: Codec<M>, m: M) {
    match c.encode(m)
    case None => false
    case Some(body) => |body| <= MAX_BODY
  }

  predicate AllSendable<M>(c: Codec<M>, ms: seq<M>) {
    ms == [] || (Sendable(c, ms[0]) && AllSendable(c, ms[1..]))
  }

  function Wire<M>(c: Codec<M>, ms: seq<M>): seq<byte>
    requires AllSendable(c, ms)
  {
    if ms == [] then [] else Serialized(c, ms[0]).value + Wire(c, ms[1..])
  }

  function Messages<M>(ms: seq<M>): seq<Outcome<M>> {
    if ms == [] then [] else [Message(ms[0])] + Messages(ms[1..])
  }

  lemma FrameParses(body: seq<byte>, more: seq<byte>)
    requires |body| <= MAX_BODY
    ensures var b := FrameOf(body) + more;
            && HasFrame(b)
            && EndPosition(b) == 2 + |body|
            && b[2..2 + |body|] == body
            && b[2 + |body|..] == more
  {
    var b := FrameOf(body) + more;
    Uint16OfPut(|body|, body + more);
    assert b == PutUint16(|body|) + (body + more);
  }

  lemma {:induction false} ExpectedOfWire<M(!new)>(c: Codec<M>, ms: seq<M>)
    requires Lawful(c) && AllSendable(c, ms)
    ensures Expected(c, Wire(c, ms), |ms|) == Messages(ms)
    ensures Parse(c, Wire(c, ms)) == Messages(ms)
  {
    if ms != [] {
      FrameParses(c.encode(ms[0]).value, Wire(c, ms[1..]));
      ExpectedOfWire(c, ms[1..]);
    }
  }

  /** What was serialized is read back: the same list, in order, with nothing left over, for every
      way of cutting the bytes into frames. */
  lemma FramingRoundTrip<M(!new)>(c: Codec<M>, ms: seq<M>, script: seq<WsRead>)
    requires Lawful(c) && AllSendable(c, ms)
    requires AllBinary(script) && Bytes(script, 0, |script|) == Wire(c, ms)
    ensures var h := Calls(c, [], script, 0, |ms|);
            && h.outcomes == Messages(ms)
            && h.pos <= |script|
            && h.buf + Bytes(script, h.pos, |script|) == []
  {
    CallsAreExpected(c, [], script, 0, |ms|);
    ExpectedOfWire(c, ms);
    assert [] + Bytes(script, 0, |script|) == Wire(c, ms);
    WireIsConsumed(c, ms, [], script, 0);
  }

  lemma {:induction false} WireIsConsumed<M(!new)>(c: Codec<M>, ms: seq<M>, buf: seq<byte>,
                                                   script: seq<WsRead>, pos: nat)
    requires AllSendable(c, ms)
    requires AllBinary(script) && pos <= |script|
    requires buf + Bytes(script, pos, |script|) == Wire(c, ms)
    ensures var h := Calls(c, buf, script, pos, |ms|);
            h.pos <= |script| && h.buf + Bytes(script, h.pos, |script|) == []
    decreases |ms|
  {
    if ms != [] {
      FrameParses(c.encode(ms[0]).value, Wire(c, ms[1..]));
      var n := NextStep(c, buf, script, pos);
      NextSucceeds(c, buf, script, pos);
      NextConsumesOneFrame(c, buf, script, pos);
      NextTakes(c, buf, script, pos, |script|);
      WireIsConsumed(c, ms[1..], n.buf, script, n.pos);
    }
  }

  /** Bodies are their own encoding: the codec under which Next shows the body it cut out. */
  const RAW: Codec<seq<byte>> := Codec((b: seq<byte>) => Some(b), (b: seq<byte>) => Some(b))

  /** The bound is tight: a framed body comes back, alone and whole, exactly when it is at most
      65533 bytes long. Beyond that the 16-bit sums wrap. */
  lemma BodySurvivesIff(body: seq<byte>)
    ensures NextStep(RAW, [], [WsFrame(BINARY_MESSAGE, FrameOf(body))], 0) == Step(Message(body), [], 1)
            <==> |body| <= MAX_BODY
  {
    var script := [WsFrame(BINARY_MESSAGE, FrameOf(body))];
    var b := FrameOf(body);
    Uint16OfPut(|body|, body);
    assert [] + b == b && b + [] == b;
    assert Fill([], script, 0, 2) == Fill(b, script, 1, 2) == Filled(true, b, 1);
    var end := EndPosition(b);
    if |body| <= MAX_BODY {
      FrameParses(body, []);
    } else if |body| >= UINT16_RANGE {
      assert end <= |body|;
      if end >= 2 {
        assert |b[end..]| > 0;
      }
    }
  }

  /** The frame of a body on the wire: the more significant byte of the length first. */
  lemma LengthIsBigEndian(hi: byte, lo: byte, body: seq<byte>)
    requires |body| < 65536
    ensures FrameOf(body) == [hi, lo] + body <==> hi as int * 256 + lo as int == |body|
  {
    assert FrameOf(body)[0] as int == |body| / 256 && FrameOf(body)[1] as int == |body| % 256;
    if hi as int * 256 + lo as int == |body| {
      assert hi as int == |body| / 256 && lo as int == |body| % 256;
      assert FrameOf(body)[..2] == [hi, lo];
    } else {
      assert ([hi, lo] + body)[0] == hi && ([hi, lo] + body)[1] == lo;
    }
  }

  /** A frame that says its length, the more significant byte first, is read as its body and nothing is
      left; one that says more than there is, is not read. */
  lemma ReadsBigEndian<M>(c: Codec<M>, hi: byte, lo: byte, body: seq<byte>)
    requires |body| <= hi as int * 256 + lo as int <= MAX_BODY
    ensures NextStep(c, [], [WsFrame(BINARY_MESSAGE, [hi, lo] + body)], 0)
         == if hi as int * 256 + lo as int == |body| then Step(Decoded(c, body), [], 1)
            else Step(ReadFailed, [hi, lo] + body, 1)
  {
    var b := [hi, lo] + body;
    var script := [WsFrame(BINARY_MESSAGE, b)];
    assert [] + b == b && b[0] == hi && b[1] == lo;
    assert Fill([], script, 0, 2) == Fill(b, script, 1, 2) == Filled(true, b, 1);
    if hi as int * 256 + lo as int == |body| {
      assert b[2..|b|] == body && b[|b|..] == [];
    }
  }

  // ---------------------------------------------------------------------------
  //  The code: readers that change their state
  // ---------------------------------------------------------------------------

  /** The connection: `script` is everything it will answer, `pos` how much of that it has
      answered. Once the script is used up it answers with errors. */
  class WebSocketReader {
    const script: seq<WsRead>
    var pos: nat

    ghost predicate Valid()
      reads this
    {
      pos <= |script|
    }

    constructor (script: seq<WsRead>)
      ensures Valid() && this.script == script && pos == 0
    {
      this.script := script;
      pos := 0;
    }

    method ReadMessage() returns (e: WsRead)
      requires Valid()
      modifies this
      ensures Valid()
      ensures old(pos) == |script| ==> e == WsError && pos == old(pos)
      ensures old(pos) < |script| ==> e == script[old(pos)] && pos == old(pos) + 1
    {
      if pos == |script| {
        e := WsError;
      } else {
        e := script[pos];
        pos := pos + 1;
      }
    }
  }

  class BinaryReaderWSAdapter {
    const wsReader: WebSocketReader

    constructor (wsReader: WebSocketReader)
      ensures this.wsReader == wsReader
    {
      this.wsReader := wsReader;
    }

    /** An error and a frame that is not binary are refused alike, and both are used up. */
    method Read() returns (r: Option<seq<byte>>)
      requires wsReader.Valid()
      modifies wsReader
      ensures wsReader.Valid()
      ensures old(wsReader.pos) == |wsReader.script| ==> r == None && wsReader.pos == old(wsReader.pos)
      ensures old(wsReader.pos) < |wsReader.script| ==>
                && r == BinaryData(wsReader.script[old(wsReader.pos)])
                && wsReader.pos == old(wsReader.pos) + 1
    {
      var e := wsReader.ReadMessage();
      if e.WsError? {
        return None;
      }
      if e.messageType != BINARY_MESSAGE {
        return None;
      }
      return Some(e.data);
    }
  }

  /** The bytes that were handed out in between are one frame, its length in front with the more
      significant byte first, and the outcome is what its body decodes to. */
  ghost predicate OneFrame<M>(c: Codec<M>, before: seq<byte>, after: seq<byte>, outcome: Outcome<M>) {
    exists hi: byte, lo: byte, body: seq<byte> ::
      && after == before + ([hi, lo] + body) && hi as int * 256 + lo as int == |body|
      && outcome == match c.decode(body) { case Some(m) => Message(m) case None => Malformed }
  }

  lemma FrameIsTaken<M>(c: Codec<M>, before: seq<byte>, buf: seq<byte>, end: nat)
    requires 2 <= end <= |buf| && end == EndPosition(buf)
    ensures OneFrame(c, before, before + buf[..end], Decoded(c, buf[2..end]))
    ensures before + buf[..end] + buf[end..] == before + buf
  {
    var body := buf[2..end];
    assert buf[..end] == [buf[0], buf[1]] + body;
    assert before + buf[..end] == before + ([buf[0], buf[1]] + body);
  }

  class MessageReader<M> {
    const codec: Codec<M>
    const binReader: BinaryReaderWSAdapter
    const wsReader: WebSocketReader
    var messageSize: int
    var messageBin: seq<byte>

    /** Every byte read so far, and those of them already handed out. */
    ghost var received: seq<byte>
    ghost var consumed: seq<byte>

    ghost predicate Valid()
      reads this, wsReader
    {
      && binReader.wsReader == wsReader
      && wsReader.Valid()
      && received == Bytes(wsReader.script, 0, wsReader.pos)
      && consumed + messageBin == received
    }

    constructor (codec: Codec<M>, binReader: BinaryReaderWSAdapter)
      requires binReader.wsReader.Valid() && binReader.wsReader.pos == 0
      ensures Valid() && messageBin == []
      ensures this.codec == codec && this.binReader == binReader
    {
      this.codec := codec;
      this.binReader := binReader;
      wsReader := binReader.wsReader;
      messageSize := 0;
      messageBin := [];
      received := [];
      consumed := [];
    }

    method ReadAtLeast(leastSize: nat) returns (ok: bool)
      requires Valid()
      modifies this`messageBin, this`received, wsReader
      ensures Valid()
      ensures Filled(ok, messageBin, wsReader.pos)
           == Fill(old(messageBin), wsReader.script, old(wsReader.pos), leastSize)
    {
      while |messageBin| < leastSize
        invariant Valid()
        invariant Fill(messageBin, wsReader.script, wsReader.pos, leastSize)
               == Fill(old(messageBin), wsReader.script, old(wsReader.pos), leastSize)
        decreases |wsReader.script| - wsReader.pos
      {
        ghost var at := wsReader.pos;
        var binMessage := binReader.Read();
        BytesSplit(wsReader.script, 0, at, wsReader.pos);
        if binMessage.None? {
          return false;
        }
        messageBin := messageBin + binMessage.value;
        received := received + binMessage.value;
      }
      return true;
    }

    /** A failed call hands nothing out; a call that hands a frame out removes exactly that frame
        from the front of the bytes not yet handed out. */
    method Next() returns (outcome: Outcome<M>)
      requires Valid()
      modifies this, wsReader
      ensures Valid()
      ensures Step(outcome, messageBin, wsReader.pos)
           == NextStep(codec, old(messageBin), wsReader.script, old(wsReader.pos))
      ensures outcome.ReadFailed? || outcome.Panicked? ==> consumed == old(consumed)
      ensures outcome.Message? || outcome.Malformed? ==>
                messageSize == 0 && OneFrame(codec, old(consumed), consumed, outcome)
    {
      ghost var buf0, pos0 := messageBin, wsReader.pos;
      var ok := ReadAtLeast(SIZE_OF_MESSAGE_SIZE);
      if !ok {
        return ReadFailed;
      }

      assert |messageBin| >= SIZE_OF_MESSAGE_SIZE by {
        FillKeepsBytes(buf0, wsReader.script, pos0, SIZE_OF_MESSAGE_SIZE);
      }
      messageSize := Uint16(messageBin[..SIZE_OF_MESSAGE_SIZE]);
      var endOfMessagePosition := SIZE_OF_MESSAGE_SIZE + messageSize;
      if endOfMessagePosition >= UINT16_RANGE {
        endOfMessagePosition := endOfMessagePosition - UINT16_RANGE;
      }
      assert endOfMessagePosition == EndPosition(messageBin);

      ghost var header, pos1 := messageBin, wsReader.pos;
      ok := ReadAtLeast(endOfMessagePosition);
      if !ok {
        return ReadFailed;
      }
      assert |messageBin| >= endOfMessagePosition && EndPosition(messageBin) == endOfMessagePosition by {
        FillKeepsBytes(header, wsReader.script, pos1, endOfMessagePosition);
        SameHead(header, Bytes(wsReader.script, pos1, wsReader.pos));
      }

      if endOfMessagePosition < SIZE_OF_MESSAGE_SIZE {
        return Panicked;
      }
      var body := messageBin[SIZE_OF_MESSAGE_SIZE..endOfMessagePosition];

      messageSize := 0;
      FrameIsTaken(codec, consumed, messageBin, endOfMessagePosition);
      consumed := consumed + messageBin[..endOfMessagePosition];
      messageBin := messageBin[endOfMessagePosition..];

      match codec.decode(body)
      case None => return Malformed;
      case Some(m) => return Message(m);
    }
  }

  method SerializeMessage<M>(codec: Codec<M>, message: M) returns (r: Option<seq<byte>>)
    ensures r == Serialized(codec, message)
    ensures r.None? <==> codec.encode(message).None?
    ensures r.Some? ==>
              var body := codec.encode(message).value;
              && |r.value| == 2 + |body| && r.value[2..] == body
              && r.value[0] as int * 256 + r.value[1] as int == |body| % 65536
  {
    var messageBin := codec.encode(message);
    if messageBin.None? {
      return None;
    }
    var sizeBin := new byte[SIZE_OF_MESSAGE_SIZE];
    var size := PutUint16(|messageBin.value|);
    sizeBin[0] := size[0];
    sizeBin[1] := size[1];
    assert sizeBin[..] == size;
    return Some(sizeBin[..] + messageBin.value);
  }
}
