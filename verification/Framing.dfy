/** A message link over a byte stream: each message is a 4-byte big-endian length and that many bytes. */
module Framing {
  import opened Wrappers

  type Byte = b: nat | b < 256

  /** How messages are written and read back, and the largest body either side accepts. */
  datatype Codec<!M> = Codec(encode: M -> seq<Byte>, decode: seq<Byte> -> Option<M>, maxFrame: nat)

  ghost predicate ValidCodec<M(!new)>(c: Codec<M>) {
    c.maxFrame < 0x1_0000_0000 && forall m :: c.decode(c.encode(m)) == Some(m)
  }

  // ---- specification ---------------------------------------------------------------------------

  function ReadUInt32BE(h: seq<Byte>): nat
    requires |h| == 4
  {
    ((h[0] as int * 256 + h[1]) * 256 + h[2]) * 256 + h[3]
  }

  function WriteUInt32BE(n: nat): (h: seq<Byte>)
    requires n < 0x1_0000_0000
    ensures |h| == 4
  {
    var hi := n / 256 / 256;
    [hi / 256, hi % 256, n / 256 % 256, n % 256]
  }

  /** The receiving half. `handed` is all the handler was called with; `expected` is -1 between frames. */
  datatype Link<M> = Link(buffer: seq<Byte>, expected: int, backlog: seq<M>, hasHandler: bool, handed: seq<M>, closed: bool)

  /** What a handler does: whether it closes the link on the last of the messages it has seen. */
  type Handler<!M> = seq<M> -> bool

  function Close<M>(l: Link<M>): Link<M> { if l.closed then l else l.(closed := true, buffer := []) }

  function Call<M>(l: Link<M>, m: M, h: Handler<M>): Link<M> {
    var l1 := l.(handed := l.handed + [m]);
    if h(l1.handed) then Close(l1) else l1
  }

  function Hand<M>(l: Link<M>, m: M, h: Handler<M>): Link<M> {
    if l.hasHandler then Call(l, m, h) else l.(backlog := l.backlog + [m])
  }

  /** The header, if one is due and complete. */
  function Header<M>(l: Link<M>, c: Codec<M>): Link<M>
    requires l.expected < 0 && |l.buffer| >= 4
  {
    var l1 := l.(expected := ReadUInt32BE(l.buffer[..4]), buffer := l.buffer[4..]);
    if l1.expected > c.maxFrame then Close(l1) else l1
  }

  function Body<M>(l: Link<M>, c: Codec<M>, h: Handler<M>): Link<M>
    requires 0 <= l.expected <= |l.buffer|
  {
    var l1 := l.(expected := -1, buffer := l.buffer[l.expected..]);
    match c.decode(l.buffer[..l.expected])
    case None => Close(l1)
    case Some(m) => Hand(l1, m, h)
  }

  /** Reads frames until the buffer holds no whole one, or the link closes. */
  function Pump<M>(l: Link<M>, c: Codec<M>, h: Handler<M>): Link<M>
    decreases |l.buffer| + if l.expected < 0 then 0 else 1
  {
    if l.closed then l
    else if l.expected < 0 then (if |l.buffer| < 4 then l else Pump(Header(l, c), c, h))
    else if |l.buffer| < l.expected then l
    else Pump(Body(l, c, h), c, h)
  }

  lemma PumpWaits<M>(l: Link<M>, c: Codec<M>, h: Handler<M>)
    requires |l.buffer| < if l.expected < 0 then 4 else l.expected
    ensures Pump(l, c, h) == l
  {
  }

  /** One step of the pump: a header, or a body. */
  lemma PumpStep<M>(l: Link<M>, c: Codec<M>, h: Handler<M>)
    requires !l.closed
    ensures l.expected < 0 && |l.buffer| >= 4 ==> Pump(l, c, h) == Pump(Header(l, c), c, h)
    ensures 0 <= l.expected <= |l.buffer| ==> Pump(l, c, h) == Pump(Body(l, c, h), c, h)
  {
  }

  lemma PumpClosed<M>(l: Link<M>, c: Codec<M>, h: Handler<M>)
    requires l.closed
    ensures Pump(l, c, h) == l
  {
  }

  function Receive<M>(l: Link<M>, chunk: seq<Byte>, c: Codec<M>, h: Handler<M>): Link<M> {
    if l.closed then l else Pump(l.(buffer := l.buffer + chunk), c, h)
  }

  /** The handler sees every message of the backlog, whatever it does to the link meanwhile. */
  function Replay<M>(l: Link<M>, ms: seq<M>, h: Handler<M>): Link<M>
    decreases |ms|
  {
    if ms == [] then l else Replay(Call(l, ms[0], h), ms[1..], h)
  }

  function OnMessage<M>(l: Link<M>, h: Handler<M>): Link<M> {
    Replay(l.(hasHandler := true, backlog := []), l.backlog, h)
  }

  /** What is written for a message that fits. */
  function Frame<M>(m: M, c: Codec<M>): Option<seq<Byte>> {
    var body := c.encode(m);
    if |body| > c.maxFrame || |body| >= 0x1_0000_0000 then None else Some(WriteUInt32BE(|body|) + body)
  }

  function Flat(chunks: seq<seq<Byte>>): seq<Byte> {
    if chunks == [] then [] else chunks[0] + Flat(chunks[1..])
  }

  lemma {:induction false} FlatAppend(chunks: seq<seq<Byte>>, last: seq<Byte>)
    ensures Flat(chunks + [last]) == Flat(chunks) + last
  {
    if chunks != [] {
      assert (chunks + [last])[1..] == chunks[1..] + [last];
      FlatAppend(chunks[1..], last);
    }
  }

  // ---- the class --------------------------------------------------------------------------------

  class FramedLink<!M> {
    const codec: Codec<M>
    const handler: Handler<M>     // the one `OnMessage` sets
    var buffered: seq<seq<Byte>>
    var bufferedBytes: nat
    var expected: int
    var backlog: seq<M>
    var hasHandler: bool
    var handed: seq<M>
    var closed: bool
    var written: seq<Byte>        // the stream's outgoing side

    ghost predicate Valid()
      reads this
    {
      && (closed || bufferedBytes == |Flat(buffered)|)
      && (closed ==> buffered == [])
      && codec.maxFrame < 0x1_0000_0000
    }

    ghost function View(): Link<M>
      reads this
    {
      Link(Flat(buffered), expected, backlog, hasHandler, handed, closed)
    }

    constructor (codec: Codec<M>, handler: Handler<M>)
      requires codec.maxFrame < 0x1_0000_0000
      ensures Valid() && View() == Link([], -1, [], false, [], false) && written == []
      ensures this.codec == codec && this.handler == handler
    {
      this.codec, this.handler := codec, handler;
      buffered, bufferedBytes, expected, backlog, hasHandler, handed, closed, written := [], 0, -1, [], false, [], false, [];
    }

    method ReceiveChunk(chunk: seq<Byte>)
      requires Valid()
      modifies this
      ensures Valid() && View() == Receive(old(View()), chunk, codec, handler) && written == old(written)
    {
      if closed {
        return;
      }
      FlatAppend(buffered, chunk);
      buffered := buffered + [chunk];
      bufferedBytes := bufferedBytes + |chunk|;
      while true
        invariant Valid() && !closed && written == old(written)
        invariant Pump(View(), codec, handler) == Receive(old(View()), chunk, codec, handler)
        decreases bufferedBytes + if expected < 0 then 0 else 1
      {
        var more := ReadFrame();
        if !more {
          return;
        }
      }
    }

    /** One turn of the loop: the header if it is due, and the body if it is there. */
    method ReadFrame() returns (more: bool)
      requires Valid() && !closed
      modifies this
      ensures Valid() && written == old(written)
      ensures more ==> !closed
      ensures Pump(View(), codec, handler) == Pump(old(View()), codec, handler)
      ensures !more ==> Pump(View(), codec, handler) == View()
      ensures more ==> bufferedBytes + (if expected < 0 then 0 else 1) < old(bufferedBytes) + old(if expected < 0 then 0 else 1)
    {
      hide Pump, ReadUInt32BE, Flat;
      PumpStep(View(), codec, handler);
      if expected < 0 {
        if bufferedBytes < 4 {
          PumpWaits(View(), codec, handler);
          return false;
        }
        var header := Take(4);
        expected := ReadUInt32BE(header);
        if expected > codec.maxFrame {
          CloseLink();
          PumpClosed(View(), codec, handler);
          return false;
        }
        assert View() == Header(old(View()), codec);
      }
      PumpStep(View(), codec, handler);
      if bufferedBytes < expected {
        PumpWaits(View(), codec, handler);
        return false;
      }
      ghost var before := View();
      var body := Take(expected);
      expected := -1;
      var message := codec.decode(body);
      if message.None? {
        CloseLink();
        PumpClosed(View(), codec, handler);
        return false;
      }
      if hasHandler {
        CallHandler(message.value);
      } else {
        backlog := backlog + [message.value];
      }
      assert View() == Body(before, codec, handler);
      more := !closed;
      if closed {
        PumpClosed(View(), codec, handler);
      }
    }

    method Take(n: nat) returns (out: seq<Byte>)
      requires Valid() && !closed && n <= bufferedBytes
      modifies this`buffered, this`bufferedBytes
      ensures Valid() && out == old(Flat(buffered))[..n] && Flat(buffered) == old(Flat(buffered))[n..]
    {
      assert |buffered| == 1 ==> buffered[1..] == [] && Flat(buffered) == buffered[0] + [];
      var all := if |buffered| == 1 then buffered[0] else Flat(buffered);
      out := all[..n];
      var rest := all[n..];
      buffered := if |rest| > 0 then [rest] else [];
      bufferedBytes := |rest|;
      assert |rest| > 0 ==> buffered[1..] == [];
    }

    method CallHandler(m: M)
      requires Valid()
      modifies this
      ensures Valid() && View() == Call(old(View()), m, handler) && written == old(written)
      ensures !closed ==> bufferedBytes == old(bufferedBytes)
    {
      handed := handed + [m];
      if handler(handed) {
        CloseLink();
      }
    }

    method CloseLink()
      requires Valid()
      modifies this`closed, this`buffered
      ensures Valid() && View() == Close(old(View()))
    {
      if closed {
        return;
      }
      closed := true;
      buffered := [];
    }

    method SetHandler()
      requires Valid()
      modifies this
      ensures Valid() && View() == OnMessage(old(View()), handler) && written == old(written)
    {
      hasHandler := true;
      var todo := backlog;
      backlog := [];
      while todo != []
        invariant Valid() && written == old(written)
        invariant Replay(View(), todo, handler) == OnMessage(old(View()), handler)
        decreases |todo|
      {
        var m := todo[0];
        todo := todo[1..];
        CallHandler(m);
      }
    }

    /** False when the message is too large, which the source reports by throwing. */
    method Send(m: M) returns (ok: bool)
      requires Valid()
      modifies this`written
      ensures Valid()
      ensures ok == (closed || Frame(m, codec).Some?)
      ensures written == old(written) + if ok && !closed then Frame(m, codec).value else []
    {
      if closed {
        return true;
      }
      var body := codec.encode(m);
      if |body| > codec.maxFrame {
        return false;
      }
      written := written + (WriteUInt32BE(|body|) + body);
      ok := true;
    }
  }
}
