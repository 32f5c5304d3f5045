/** How a stream is cut into chunks does not matter, and what is sent is what is received. */
module FramingTheorems {
  import opened Wrappers
  import opened Framing

  function ReceiveAll<M>(l: Link<M>, chunks: seq<seq<Byte>>, c: Codec<M>, h: Handler<M>): Link<M>
    decreases |chunks|
  {
    if chunks == [] then l else ReceiveAll(Receive(l, chunks[0], c, h), chunks[1..], c, h)
  }

  /** Nothing more can be read from what has arrived. */
  predicate Waiting<M>(l: Link<M>) { l.closed || |l.buffer| < if l.expected < 0 then 4 else l.expected }

  lemma {:induction false} PumpWaiting<M>(l: Link<M>, c: Codec<M>, h: Handler<M>)
    ensures Waiting(Pump(l, c, h))
    decreases |l.buffer| + if l.expected < 0 then 0 else 1
  {
    if !l.closed && l.expected < 0 && |l.buffer| >= 4 {
      PumpWaiting(Header(l, c), c, h);
    } else if !l.closed && 0 <= l.expected <= |l.buffer| {
      PumpWaiting(Body(l, c, h), c, h);
    }
  }

  /** Bytes that arrive later change nothing about what was read before. */
  lemma {:induction false} PumpMore<M>(l: Link<M>, more: seq<Byte>, c: Codec<M>, h: Handler<M>)
    requires !l.closed
    ensures Receive(Pump(l, c, h), more, c, h) == Pump(l.(buffer := l.buffer + more), c, h)
    decreases |l.buffer| + if l.expected < 0 then 0 else 1
  {
    var l2 := l.(buffer := l.buffer + more);
    if l.expected < 0 {
      if |l.buffer| >= 4 {
        assert l2.buffer[..4] == l.buffer[..4] && l2.buffer[4..] == l.buffer[4..] + more;
        var l1 := Header(l, c);
        assert Header(l2, c) == if l1.closed then l1 else l1.(buffer := l1.buffer + more);
        if !l1.closed { PumpMore(l1, more, c, h); }
      }
    } else if l.expected <= |l.buffer| {
      var n := l.expected;
      assert l2.buffer[..n] == l.buffer[..n] && l2.buffer[n..] == l.buffer[n..] + more;
      var l1 := Body(l, c, h);
      assert Body(l2, c, h) == if l1.closed then l1 else l1.(buffer := l1.buffer + more);
      if !l1.closed { PumpMore(l1, more, c, h); }
    }
  }

  /** For every split of a stream into chunks, the link ends exactly as if it had come in one piece:
      the same messages handed on or kept, closed at the same point, the same bytes left over. */
  lemma {:induction false} ChunksDoNotMatter<M>(l: Link<M>, chunks: seq<seq<Byte>>, c: Codec<M>, h: Handler<M>)
    requires Waiting(l)
    ensures ReceiveAll(l, chunks, c, h) == Receive(l, Flat(chunks), c, h)
    decreases |chunks|
  {
    if chunks == [] {
      assert l.buffer + [] == l.buffer;
    } else if !l.closed {
      var l1 := l.(buffer := l.buffer + chunks[0]);
      PumpWaiting(l1, c, h);
      ChunksDoNotMatter(Pump(l1, c, h), chunks[1..], c, h);
      PumpMore(l1, Flat(chunks[1..]), c, h);
      assert l1.buffer + Flat(chunks[1..]) == l.buffer + Flat(chunks);
    } else {
      ChunksDoNotMatter(l, chunks[1..], c, h);
    }
  }

  // ---- the one-shot parse --------------------------------------------------------------------------

  /** What is first in a stream: a frame with a message, or something that is none, or not enough yet. */
  datatype First<M> = NotYet | Broken | Whole(m: M, rest: seq<Byte>)

  function FirstOf<M>(bytes: seq<Byte>, c: Codec<M>): (f: First<M>)
    ensures f.Whole? ==> |f.rest| < |bytes|
  {
    if |bytes| < 4 then NotYet
    else
      var n := ReadUInt32BE(bytes[..4]);
      if n > c.maxFrame then Broken
      else if |bytes| < 4 + n then NotYet
      else match c.decode(bytes[4..4 + n]) case None => Broken case Some(m) => Whole(m, bytes[4 + n..])
  }

  /** The messages of a whole stream, and whether something in it is no frame. */
  datatype Parsed<M> = Parsed(ms: seq<M>, broken: bool)

  function Parse<M>(bytes: seq<Byte>, c: Codec<M>): Parsed<M>
    decreases |bytes|
  {
    match FirstOf(bytes, c)
    case NotYet => Parsed([], false)
    case Broken => Parsed([], true)
    case Whole(m, rest) => var more := Parse(rest, c); Parsed([m] + more.ms, more.broken)
  }

  /** How far a handler that has seen `seen` lets `ms` through: up to the message it closes on. */
  function Through<M>(seen: seq<M>, ms: seq<M>, h: Handler<M>): (seq<M>, bool)
    decreases |ms|
  {
    if ms == [] then ([], false)
    else if h(seen + [ms[0]]) then ([ms[0]], true)
    else var r := Through(seen + [ms[0]], ms[1..], h); ([ms[0]] + r.0, r.1)
  }

  /** What the pump makes of the first frame, between frames. */
  lemma PumpFrame<M>(l: Link<M>, c: Codec<M>, h: Handler<M>)
    requires !l.closed && l.expected == -1
    ensures var v := Pump(l, c, h);
            match FirstOf(l.buffer, c)
            case Whole(m, rest) => v == Pump(Hand(l.(buffer := rest), m, h), c, h)
            case NotYet => v == l.(expected := v.expected, buffer := v.buffer)
            case Broken => v == l.(expected := v.expected, buffer := v.buffer, closed := true)
  {
    hide ReadUInt32BE;
    if |l.buffer| >= 4 {
      var n := ReadUInt32BE(l.buffer[..4]);
      if n <= c.maxFrame && |l.buffer| >= 4 + n {
        var l1 := Header(l, c);
        assert l1.buffer[..n] == l.buffer[4..4 + n] && l1.buffer[n..] == l.buffer[4 + n..];
        assert Pump(l1, c, h) == Pump(Body(l1, c, h), c, h);
      }
    }
  }

  lemma HandShape<M>(l: Link<M>, m: M, h: Handler<M>)
    requires !l.closed
    ensures var v := Hand(l, m, h);
            if l.hasHandler
            then v == l.(handed := l.handed + [m], closed := h(l.handed + [m]), buffer := if h(l.handed + [m]) then [] else l.buffer)
            else v == l.(backlog := l.backlog + [m])
  {
  }

  lemma ThroughCons<M>(seen: seq<M>, m: M, ms: seq<M>, h: Handler<M>)
    ensures var r := Through(seen + [m], ms, h);
            Through(seen, [m] + ms, h) == if h(seen + [m]) then ([m], true) else ([m] + r.0, r.1)
    ensures Through(seen, [], h) == ([], false)
  {
    assert ([m] + ms)[1..] == ms;
  }

  /** With a handler, the messages of the stream go to it in order until it closes the link; the link
      is closed by the handler, or else by the first thing that is no frame. */
  lemma {:induction false} HandlerSeesTheStream<M>(l: Link<M>, c: Codec<M>, h: Handler<M>)
    requires !l.closed && l.expected == -1 && l.hasHandler
    ensures var p := Parse(l.buffer, c);
            var t := Through(l.handed, p.ms, h);
            var v := Pump(l, c, h);
            v.handed == l.handed + t.0 && v.closed == (t.1 || p.broken) && v.backlog == l.backlog && v.hasHandler
    decreases |l.buffer|
  {
    hide FirstOf, Pump, Hand;
    PumpFrame(l, c, h);
    match FirstOf(l.buffer, c)
    case Whole(m, rest) =>
      var l1 := Hand(l.(buffer := rest), m, h);
      HandShape(l.(buffer := rest), m, h);
      var more := Parse(rest, c);
      assert Parse(l.buffer, c) == Parsed([m] + more.ms, more.broken);
      hide Parse;
      ThroughCons(l.handed, m, more.ms, h);
      hide Through;
      if l1.closed { PumpClosed(l1, c, h); } else { HandlerSeesTheStream(l1, c, h); }
    case _ => assert Through(l.handed, [], h) == ([], false);
  }

  /** Without one, they are kept. */
  lemma {:induction false} BacklogKeepsTheStream<M>(l: Link<M>, c: Codec<M>, h: Handler<M>)
    requires !l.closed && l.expected == -1 && !l.hasHandler
    ensures var p := Parse(l.buffer, c);
            var v := Pump(l, c, h);
            v.backlog == l.backlog + p.ms && v.closed == p.broken && v.handed == l.handed && !v.hasHandler
    decreases |l.buffer|
  {
    hide FirstOf, Pump, Hand;
    PumpFrame(l, c, h);
    match FirstOf(l.buffer, c)
    case Whole(m, rest) =>
      HandShape(l.(buffer := rest), m, h);
      var more := Parse(rest, c);
      assert Parse(l.buffer, c) == Parsed([m] + more.ms, more.broken);
      hide Parse;
      BacklogKeepsTheStream(Hand(l.(buffer := rest), m, h), c, h);
    case _ =>
  }

  // ---- from one end to the other ------------------------------------------------------------------------

  lemma HeaderRoundTrip(n: nat)
    requires n < 0x1_0000_0000
    ensures ReadUInt32BE(WriteUInt32BE(n)) == n
  {
  }

  predicate Fits<M>(ms: seq<M>, c: Codec<M>) { forall i :: 0 <= i < |ms| ==> Frame(ms[i], c).Some? }

  function Written<M>(ms: seq<M>, c: Codec<M>): seq<Byte>
    requires Fits(ms, c)
  {
    if ms == [] then [] else Frame(ms[0], c).value + Written(ms[1..], c)
  }

  /** Reading back a prefix of what was written gives a prefix of the messages, and nothing broken. */
  lemma {:induction false} ParseWritten<M(!new)>(ms: seq<M>, bytes: seq<Byte>, c: Codec<M>)
    requires ValidCodec(c) && Fits(ms, c) && bytes <= Written(ms, c)
    ensures Parse(bytes, c).ms <= ms && !Parse(bytes, c).broken
    ensures bytes == Written(ms, c) ==> Parse(bytes, c).ms == ms
  {
    if ms == [] {
      assert bytes == [];
    } else {
      hide Written;
      WrittenStarts(ms, c);
      FirstWritten(ms, bytes, c);
      hide FirstOf, Frame, WriteUInt32BE, ReadUInt32BE;
      match FirstOf(bytes, c)
      case Whole(m, rest) =>
        var more := Parse(rest, c);
        assert Parse(bytes, c) == Parsed([m] + more.ms, more.broken);
        hide Parse;
        ParseWritten(ms[1..], rest, c);
        assert [ms[0]] + ms[1..] == ms;
      case _ =>
    }
  }

  /** The beginning of what was written is a beginning of its first frame, or has it whole. */
  lemma FirstWritten<M(!new)>(ms: seq<M>, bytes: seq<Byte>, c: Codec<M>)
    requires ValidCodec(c) && Fits(ms, c) && ms != [] && bytes <= Written(ms, c)
    ensures match FirstOf(bytes, c)
            case NotYet => |bytes| < |Written(ms, c)|
            case Broken => false
            case Whole(m, rest) =>
              m == ms[0] && rest <= Written(ms[1..], c) && (bytes == Written(ms, c) ==> rest == Written(ms[1..], c))
  {
    WrittenStarts(ms, c);
    hide Written, Frame, WriteUInt32BE, ReadUInt32BE;
    var n := |c.encode(ms[0])|;
    if |bytes| >= 4 {
      assert bytes[..4] == Written(ms, c)[..4];
      if |bytes| >= 4 + n {
        assert bytes[4..4 + n] == Written(ms, c)[4..4 + n];
        assert bytes[4 + n..] == Written(ms, c)[4 + n..][..|bytes| - 4 - n];
      }
    }
  }

  lemma WrittenStarts<M>(ms: seq<M>, c: Codec<M>)
    requires Fits(ms, c) && ms != []
    ensures var w, n := Written(ms, c), |c.encode(ms[0])|;
            && |w| == 4 + n + |Written(ms[1..], c)| && ReadUInt32BE(w[..4]) == n && n <= c.maxFrame
            && w[4..4 + n] == c.encode(ms[0]) && w[4 + n..] == Written(ms[1..], c)
  {
    var w, n := Written(ms, c), |c.encode(ms[0])|;
    HeaderRoundTrip(n);
    assert w == WriteUInt32BE(n) + c.encode(ms[0]) + Written(ms[1..], c);
    assert w[..4] == WriteUInt32BE(n);
  }

  function NewLink<M>(): Link<M> { Link([], -1, [], false, [], false) }

  /** The same link, had its handler been there from the start and closed nothing. */
  function Promoted<M>(l: Link<M>): Link<M> { l.(hasHandler := true, handed := l.handed + l.backlog, backlog := []) }

  lemma {:induction false} ReplayHandsAll<M>(l: Link<M>, ms: seq<M>, h: Handler<M>)
    ensures var v := Replay(l, ms, h);
            v.handed == l.handed + ms && (v.backlog, v.expected, v.hasHandler) == (l.backlog, l.expected, l.hasHandler)
            && (v.closed <==> l.closed || exists k :: 0 < k <= |ms| && h(l.handed + ms[..k]))
            && v.buffer == if l.closed || !v.closed then l.buffer else []
    decreases |ms|
  {
    if ms != [] {
      var l1 := Call(l, ms[0], h);
      ReplayHandsAll(l1, ms[1..], h);
      forall k | 0 < k <= |ms| ensures h(l.handed + ms[..k]) == h(if k == 1 then l1.handed else l1.handed + ms[1..][..k - 1]) {
        assert l.handed + ms[..k] == l1.handed + ms[1..][..k - 1];
        if k == 1 { assert ms[..1] == [ms[0]]; }
      }
      forall k | 0 < k <= |ms| - 1 ensures h(l1.handed + ms[1..][..k]) == h(l.handed + ms[..k + 1]) {
        assert l.handed + ms[..k + 1] == l1.handed + ms[1..][..k];
      }
    }
  }

  lemma {:induction false} PumpPromoted<M(!new)>(l: Link<M>, c: Codec<M>, h: Handler<M>)
    requires !l.hasHandler && forall s :: !h(s)
    ensures Pump(Promoted(l), c, h) == Promoted(Pump(l, c, h))
    decreases |l.buffer| + if l.expected < 0 then 0 else 1
  {
    var p := Promoted(l);
    if !l.closed && l.expected < 0 && |l.buffer| >= 4 {
      assert Header(p, c) == Promoted(Header(l, c));
      PumpPromoted(Header(l, c), c, h);
    } else if !l.closed && 0 <= l.expected <= |l.buffer| {
      assert Body(p, c, h) == Promoted(Body(l, c, h));
      PumpPromoted(Body(l, c, h), c, h);
    }
  }

  lemma {:induction false} ThroughAll<M>(seen: seq<M>, ms: seq<M>, h: Handler<M>)
    ensures Through(seen, ms, h).0 == ms <==> forall k :: 0 < k < |ms| ==> !h(seen + ms[..k])
    ensures (forall k :: 0 < k <= |ms| ==> !h(seen + ms[..k])) ==> Through(seen, ms, h) == (ms, false)
    decreases |ms|
  {
    if ms != [] {
      ThroughAll(seen + [ms[0]], ms[1..], h);
      forall k | 0 < k < |ms| ensures seen + ms[..k + 1] == (seen + [ms[0]]) + ms[1..][..k] {}
      assert ms[..1] == [ms[0]];
      if forall k :: 0 < k < |ms| ==> !h(seen + ms[..k]) {
        forall k | 0 < k < |ms| - 1 ensures !h((seen + [ms[0]]) + ms[1..][..k]) {
          assert seen + ms[..k + 1] == (seen + [ms[0]]) + ms[1..][..k];
        }
      }
      if Through(seen, ms, h).0 == ms {
        forall k | 0 < k < |ms| ensures !h(seen + ms[..k]) {
          if k > 1 { assert seen + ms[..k] == (seen + [ms[0]]) + ms[1..][..k - 1]; }
        }
      }
      if forall k :: 0 < k <= |ms| ==> !h(seen + ms[..k]) {
        forall k | 0 < k <= |ms| - 1 ensures !h((seen + [ms[0]]) + ms[1..][..k]) {
          assert seen + ms[..k + 1] == (seen + [ms[0]]) + ms[1..][..k];
        }
      }
    }
  }

  /** Any messages, written one after the other, cut anywhere and received in any chunks, some before
      the handler is set and some after: the handler gets the messages that have arrived whole, in
      order, and all of them once all bytes have. */
  lemma SentIsReceived<M(!new)>(ms: seq<M>, before: seq<seq<Byte>>, after: seq<seq<Byte>>, c: Codec<M>, h: Handler<M>)
    requires ValidCodec(c) && Fits(ms, c) && (forall s :: !h(s))
    requires Flat(before) + Flat(after) <= Written(ms, c)
    ensures var v := ReceiveAll(OnMessage(ReceiveAll(NewLink(), before, c, h), h), after, c, h);
            && v.handed <= ms && v.backlog == [] && !v.closed
            && (Flat(before) + Flat(after) == Written(ms, c) ==> v.handed == ms)
  {
    hide Pump, Parse, FirstOf, Written, Replay, ReceiveAll, Flat, Fits, ValidCodec, Through;
    var b, a := Flat(before), Flat(after);
    var l := NewLink<M>().(buffer := b);
    var l1 := Pump(l, c, h);
    ArrivesBefore(before, c, h);
    var l2 := OnMessage(l1, h);
    ParseWritten(ms, b, c);
    ReplayHandsAll(l1.(hasHandler := true, backlog := []), l1.backlog, h);
    BacklogKeepsTheStream(l, c, h);
    assert l2 == Promoted(l1);
    ChunksDoNotMatter(l2, after, c, h);
    PumpPromoted(l, c, h);
    assert Promoted(l) == NewLink<M>().(buffer := b, hasHandler := true);
    assert l2 == Pump(NewLink<M>().(buffer := b, hasHandler := true), c, h);
    WholeStream(b, a, ms, c, h);
  }

  lemma ArrivesBefore<M>(chunks: seq<seq<Byte>>, c: Codec<M>, h: Handler<M>)
    ensures var v := Pump(NewLink<M>().(buffer := Flat(chunks)), c, h);
            ReceiveAll(NewLink(), chunks, c, h) == v && Waiting(v)
  {
    var l := NewLink<M>();
    ChunksDoNotMatter(l, chunks, c, h);
    assert l.buffer + Flat(chunks) == Flat(chunks);
    PumpWaiting(l.(buffer := Flat(chunks)), c, h);
  }

  /** With a handler from the start that closes nothing. */
  lemma WholeStream<M(!new)>(b: seq<Byte>, a: seq<Byte>, ms: seq<M>, c: Codec<M>, h: Handler<M>)
    requires ValidCodec(c) && Fits(ms, c) && (forall s :: !h(s)) && b + a <= Written(ms, c)
    ensures var p := NewLink<M>().(buffer := b, hasHandler := true);
            var v := Receive(Pump(p, c, h), a, c, h);
            && v.handed <= ms && v.backlog == [] && !v.closed
            && (b + a == Written(ms, c) ==> v.handed == ms)
  {
    hide Pump, Parse, FirstOf, Written, Fits, ValidCodec, Through;
    var p := NewLink<M>().(buffer := b, hasHandler := true);
    PumpMore(p, a, c, h);
    HandlerSeesTheStream(p.(buffer := b + a), c, h);
    ParseWritten(ms, b + a, c);
    ThroughAll([], Parse(b + a, c).ms, h);
  }

  /** A handler set late sees all that was kept, even after it has closed the link; set early it would
      have seen the messages up to that point. The two agree if and only if it closes on no message
      but the last. */
  lemma LateHandlerSeesAll<M>(bytes: seq<Byte>, c: Codec<M>, h: Handler<M>)
    ensures var ms := Parse(bytes, c).ms;
            var late := OnMessage(Receive(NewLink(), bytes, c, h), h);
            var early := Receive(OnMessage(NewLink(), h), bytes, c, h);
            && late.handed == ms && early.handed == Through([], ms, h).0
            && (late.handed == early.handed <==> forall k :: 0 < k < |ms| ==> !h(ms[..k]))
  {
    hide Pump, Parse, FirstOf, Through, Replay;
    var l := NewLink<M>();
    var ms := Parse(bytes, c).ms;
    assert l.buffer + bytes == bytes;
    BacklogKeepsTheStream(l.(buffer := bytes), c, h);
    var l1 := Pump(l.(buffer := bytes), c, h);
    ReplayHandsAll(l1.(hasHandler := true, backlog := []), l1.backlog, h);
    HandlerSeesTheStream(l.(buffer := bytes, hasHandler := true), c, h);
    ReplayNone(l.(hasHandler := true), h);
    ThroughAll([], ms, h);
    forall k | 0 < k < |ms| ensures [] + ms[..k] == ms[..k] {}
  }

  lemma ReplayNone<M>(l: Link<M>, h: Handler<M>)
    ensures Replay(l, [], h) == l
  {
  }
}
