/** What arrives through a sealed channel, against anything a network can do to its frames. */
module ChannelTheorems {
  import opened Wrappers
  import opened Bytes
  import opened Channel

  lemma {:induction false} DigitsRoundTrip(n: nat, len: nat)
    requires n < Pow256(len)
    ensures FromDigits(Digits(n, len)) == n
  {
    if len > 0 { DigitsRoundTrip(n / 256, len - 1); }
  }

  lemma CounterSizes(n: nat)
    requires n < MAX_COUNTER
    ensures n < Pow256(8)
  {
    assert Pow256(2) == 0x1_0000 && Pow256(3) == 256 * Pow256(2) && Pow256(4) == 256 * Pow256(3);
    assert Pow256(5) == 256 * Pow256(4) && Pow256(6) == 256 * Pow256(5);
    assert Pow256(7) == 256 * Pow256(6) && Pow256(8) == 256 * Pow256(7);
  }

  lemma ReadsBack(n: nat)
    requires n < MAX_COUNTER
    ensures ReadCounter(BigIntToBytes(n, 8)) == Some(n)
  {
    CounterSizes(n);
    hide Pow256;
    assert Reverse(BigIntToBytes(n, 8)) == Digits(n, 8);
    DigitsRoundTrip(n, 8);
  }

  /** Distinct counters give distinct nonces. */
  lemma NonceInjective(n: nat, m: nat)
    requires n < MAX_COUNTER && m < MAX_COUNTER && NonceFor(n) == NonceFor(m)
    ensures n == m
  {
    CounterSizes(n);
    CounterSizes(m);
    hide Pow256, Digits;
    assert BigIntToBytes(n, 8) == NonceFor(n)[4..] == NonceFor(m)[4..] == BigIntToBytes(m, 8);
    BigIntToBytesInjective(n, m, 8);
  }

  lemma KeyInfoParts(name: string, from: Role)
    ensures var x := KeyInfo(name, from);
            |x| == 32 + |name| && x[19..19 + |name|] == name && x[20 + |name|..] == Direction(from)
  {
    hide Direction;
    assert |"hopdesk/channel/v1"| == 18;
    assert |Direction(from)| == 12 by { DirectionParts(from); }
  }

  lemma DirectionParts(from: Role)
    ensures |Direction(from)| == 12 && Direction(from)[0] == if from.HostRole? then 'h' else 'v'
  {
  }

  /** Every name and direction has its own key: nothing sealed on one channel opens on another, or in
      the other direction, whatever characters the names contain. */
  lemma KeysSeparate(root: Data, name: string, from: Role, root': Data, name': string, from': Role)
    requires ChannelKey(root, name, from) == ChannelKey(root', name', from')
    ensures root == root' && name == name' && from == from'
  {
    hide KeyInfo, Direction, Utf8;
    BlockInjective(Kdf(root, [], Utf8(KeyInfo(name, from))), Kdf(root', [], Utf8(KeyInfo(name', from'))), 0, 32);
    Utf8Injective(KeyInfo(name, from), KeyInfo(name', from'));
    KeyInfoParts(name, from);
    KeyInfoParts(name', from');
    DirectionParts(from);
    DirectionParts(from');
    assert Direction(from) == Direction(from');
  }

  /** A frame opens to what was sealed, whenever its counter is ahead of all opened before. */
  lemma OpensWhatWasSealed(s: Channel, r: Channel, counter: nat, plain: Data)
    requires r.recvKey == s.sendKey && r.prefix == s.prefix && r.highest < counter < MAX_COUNTER
    ensures Open(r, FrameOf(s, counter, plain)) == (r.(highest := counter), Some(plain))
  {
    var header := BigIntToBytes(counter, 8);
    var frame := FrameOf(s, counter, plain);
    assert frame[..8] == header;
    assert frame[8..] == Encrypt(s.sendKey, NonceFor(counter), s.prefix + header, plain);
    ReadsBack(counter);
    hide BigIntToBytes, NonceFor;
    var t := Sealed(s.sendKey, NonceFor(counter), s.prefix + header, plain);
    assert frame[8..][0] == Part(t, 0);
  }

  // ---- one direction of a session -----------------------------------------------------------------

  /** The sender, the receiver, what was sealed, and what was opened: of each, which it was. */
  datatype Line = Line(sender: Channel, receiver: Channel, plains: seq<Data>, out: seq<Data>, which: seq<nat>)

  datatype Event = Seals(plain: Data) | Presents(frame: Data)

  /** Ciphertexts under the line's key can be presented only if the sender made them. */
  ghost predicate Genuine(l: Line, frame: Data) {
    forall nonce, aad, plain :: |frame| >= 8 && frame[8..] == Encrypt(l.receiver.recvKey, nonce, aad, plain) ==>
      exists i :: 0 <= i < |l.plains| && nonce == NonceFor(i + 1) && plain == l.plains[i]
  }

  ghost predicate Can(l: Line, e: Event) { e.Presents? ==> Genuine(l, e.frame) }

  /** The counter of a frame that opens. */
  function CounterOf(frame: Data): nat {
    if |frame| < 8 then 0 else match ReadCounter(frame[..8]) case Some(n) => n case None => 0
  }

  function Next(l: Line, e: Event): Line {
    match e
    case Seals(plain) =>
      var r := Seal(l.sender, plain);
      if r.1.None? then l else l.(sender := r.0, plains := l.plains + [plain])
    case Presents(frame) =>
      var r := Open(l.receiver, frame);
      if r.1.None? then l.(receiver := r.0)
      else l.(receiver := r.0, out := l.out + [r.1.value], which := l.which + [CounterOf(frame)])
  }

  ghost predicate Run(l: Line, es: seq<Event>, v: Line)
    decreases |es|
  {
    if es == [] then v == l else Can(l, es[0]) && Run(Next(l, es[0]), es[1..], v)
  }

  /** What was opened is what was sealed at those places, each later than the one before. */
  predicate InOrder(plains: seq<Data>, out: seq<Data>, which: seq<nat>) {
    && |which| == |out|
    && (forall i :: 0 <= i < |which| ==> 0 < which[i] <= |plains| && out[i] == plains[which[i] - 1])
    && forall i, j :: 0 <= i < j < |which| ==> which[i] < which[j]
  }

  predicate Inv(l: Line) {
    && l.sender.sent == |l.plains| < MAX_COUNTER
    && InOrder(l.plains, l.out, l.which)
    && l.receiver.highest == if l.which == [] then 0 else l.which[|l.which| - 1]
  }

  lemma OpenShape(r: Channel, frame: Data)
    ensures var o := Open(r, frame);
            if o.1.None? then o.0 == r
            else
              var n := CounterOf(frame);
              && |frame| >= 24 && r.highest < n < MAX_COUNTER && o.0 == r.(highest := n)
              && frame[8..] == Encrypt(r.recvKey, NonceFor(n), r.prefix + frame[..8], o.1.value)
  {
    hide ReadCounter, NonceFor, Encrypt;
  }

  lemma SealsKeeps(l: Line, plain: Data)
    requires Inv(l)
    ensures Inv(Next(l, Seals(plain)))
  {
    hide FrameOf;
  }

  lemma PresentsKeeps(l: Line, frame: Data)
    requires Inv(l) && Genuine(l, frame)
    ensures Inv(Next(l, Presents(frame)))
  {
    hide Open, NonceFor, CounterOf, Encrypt;
    var r := Open(l.receiver, frame);
    OpenShape(l.receiver, frame);
    if r.1.Some? {
      var n := CounterOf(frame);
      var i :| 0 <= i < |l.plains| && NonceFor(n) == NonceFor(i + 1) && r.1.value == l.plains[i];
      NonceInjective(n, i + 1);
      hide Genuine;
    }
  }

  lemma NextKeeps(l: Line, e: Event)
    requires Inv(l) && Can(l, e)
    ensures Inv(Next(l, e))
  {
    match e
    case Seals(plain) => SealsKeeps(l, plain);
    case Presents(frame) => PresentsKeeps(l, frame);
  }

  lemma {:induction false} RunKeeps(l: Line, es: seq<Event>, v: Line)
    requires Inv(l) && Run(l, es, v)
    ensures Inv(v)
    decreases |es|
  {
    hide Inv, Can, Next;
    if es != [] {
      NextKeeps(l, es[0]);
      RunKeeps(Next(l, es[0]), es[1..], v);
    }
  }

  /** Against any sequence of frames, of which only those under the session's key are genuine, the
      plaintexts opened are an in-order, duplicate-free subsequence of those sealed. */
  lemma OpenedInOrder(root: Data, name: string, role: Role, es: seq<Event>, l: Line)
    requires Run(Line(NewChannel(root, name, role), NewChannel(root, name, Other(role)), [], [], []), es, l)
    ensures InOrder(l.plains, l.out, l.which)
  {
    RunKeeps(Line(NewChannel(root, name, role), NewChannel(root, name, Other(role)), [], [], []), es, l);
  }

  /** The nonces of a key: one for each frame sealed, and no two alike. */
  lemma NoncesNeverRepeat(s: Channel, plain: Data, t: Channel, plain': Data)
    requires s.sent < t.sent && Seal(s, plain).1.Some? && Seal(t, plain').1.Some?
    ensures Seal(s, plain).0.sent == s.sent + 1 && Seal(t, plain').0.sent == t.sent + 1
    ensures NonceFor(s.sent + 1) != NonceFor(t.sent + 1)
  {
    hide NonceFor, FrameOf;
    if NonceFor(s.sent + 1) == NonceFor(t.sent + 1) { NonceInjective(s.sent + 1, t.sent + 1); }
  }

  /** A frame that is refused leaves the channel as it was, so the next genuine one still opens. */
  lemma RefusedChangesNothing(r: Channel, frame: Data, s: Channel, counter: nat, plain: Data)
    requires Open(r, frame).1.None?
    requires r.recvKey == s.sendKey && r.prefix == s.prefix && r.highest < counter < MAX_COUNTER
    ensures Open(r, frame).0 == r
    ensures Open(Open(r, frame).0, FrameOf(s, counter, plain)).1 == Some(plain)
  {
    OpensWhatWasSealed(s, r, counter, plain);
  }
}
