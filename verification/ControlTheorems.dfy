/** The handover from the inbox to the control channel, and what `onMessage` and `expect` hand on. */
module ControlTheorems {
  import opened Wrappers
  import opened Bytes
  import opened Channel
  import opened ChannelTheorems
  import opened Control

  /** The inbox once `fs` have arrived; the link hands on nothing after it closed. */
  function Queued(i: InboxState, fs: seq<Signal>): InboxState
    decreases |fs|
  {
    if fs == [] then i else Queued(if i.closed then i else InboxReceive(i, fs[0]), fs[1..])
  }

  /** The control channel when the link hands `fs` to it directly. */
  function Direct<M>(c: ControlState<M>, fs: seq<Signal>, r: Reader<M>): ControlState<M>
    decreases |fs|
  {
    if fs == [] || c.closed then c else Direct(Receive(c, fs[0], r), fs[1..], r)
  }

  /** The inbox takes what comes before the handover, the control channel what was queued and the rest. */
  function Handover<M>(ch: Channel, before: seq<Signal>, after: seq<Signal>, r: Reader<M>): ControlState<M> {
    var i := Queued(EMPTY_INBOX, before);
    Direct(ReceiveBacklog(NewControl(ch, i.closed), i.queue, r), after, r)
  }

  /** A frame that opens to a control message. */
  predicate Opens<M>(ch: Channel, s: Signal, r: Reader<M>) {
    s.SealedSignal? && Open(ch, s.data).1.Some? && r.decode(Open(ch, s.data).1.value).Some?
  }

  /** No frame that is received after one that was refused is accepted. */
  predicate NoneAcceptedAfterClose<M>(c: ControlState<M>, backlog: seq<Signal>, r: Reader<M>)
    decreases |backlog|
  {
    backlog == []
    || (&& (c.closed ==> !Opens(c.channel, backlog[0], r))
        && NoneAcceptedAfterClose(Receive(c, backlog[0], r), backlog[1..], r))
  }

  // ---- which queued frames are accepted, from what they are -------------------------------------------------

  /** The counter of a frame that was sealed for this channel, and 0 of any other. */
  function Seen(ch: Channel, s: Signal): nat {
    if s.SealedSignal? && Open(ch.(highest := 0), s.data).1.Some? then CounterOf(s.data) else 0
  }

  /** Sealed for this channel, and readable as a control message. */
  predicate ReadableFrame<M>(ch: Channel, s: Signal, r: Reader<M>) {
    s.SealedSignal? && Open(ch.(highest := 0), s.data).1.Some? && r.decode(Open(ch.(highest := 0), s.data).1.value).Some?
  }

  /** A readable frame with a higher counter than any other before it that was sealed for this channel. */
  predicate Foremost<M>(ch: Channel, fs: seq<Signal>, j: nat, r: Reader<M>)
    requires j < |fs|
  {
    ReadableFrame(ch, fs[j], r) && Seen(ch, fs[j]) > ch.highest && forall i :: 0 <= i < j ==> Seen(ch, fs[i]) < Seen(ch, fs[j])
  }

  /** Such frames, if any, come before all others. */
  predicate ForemostFirst<M>(ch: Channel, fs: seq<Signal>, r: Reader<M>) {
    forall i, j :: 0 <= i < j < |fs| && Foremost(ch, fs, j, r) ==> Foremost(ch, fs, i, r)
  }

  /** Whether a frame opens is a matter of its counter. */
  lemma SeenOpens(ch: Channel, s: Signal)
    requires s.SealedSignal?
    ensures Open(ch, s.data) == if Seen(ch, s) > ch.highest
                                then (ch.(highest := Seen(ch, s)), Open(ch.(highest := 0), s.data).1) else (ch, None)
  {
    hide ReadCounter, Decrypt, NonceFor;
  }

  function After(ch: Channel, s: Signal): Channel {
    if Seen(ch, s) > ch.highest then ch.(highest := Seen(ch, s)) else ch
  }

  lemma ReceiveByCounter<M>(c: ControlState<M>, s: Signal, r: Reader<M>)
    requires c.mode.Noop? && !c.asked
    ensures var v := Receive(c, s, r);
            && v.channel == After(c.channel, s) && v.mode.Noop? && !v.asked
            && Opens(c.channel, s, r) == (ReadableFrame(c.channel, s, r) && Seen(c.channel, s) > c.channel.highest)
            && v.closed == (c.closed || !Opens(c.channel, s, r))
  {
    if s.SealedSignal? { SeenOpens(c.channel, s); }
    hide Open, CounterOf;
  }

  lemma SameFrames<M>(ch: Channel, h: nat, s: Signal, r: Reader<M>)
    ensures Seen(ch.(highest := h), s) == Seen(ch, s) && ReadableFrame(ch.(highest := h), s, r) == ReadableFrame(ch, s, r)
  {
    assert ch.(highest := h).(highest := 0) == ch.(highest := 0);
  }

  /** What is foremost in the rest, once the first frame was received. */
  lemma ForemostNext<M>(ch: Channel, fs: seq<Signal>, j: nat, r: Reader<M>)
    requires j + 1 < |fs|
    ensures Foremost(After(ch, fs[0]), fs[1..], j, r) == Foremost(ch, fs, j + 1, r)
  {
    hide Seen, ReadableFrame;
    var h := After(ch, fs[0]).highest;
    forall i | 0 <= i < |fs| ensures Seen(ch.(highest := h), fs[i]) == Seen(ch, fs[i])
      ensures ReadableFrame(ch.(highest := h), fs[i], r) == ReadableFrame(ch, fs[i], r)
    {
      SameFrames(ch, h, fs[i], r);
    }
    assert After(ch, fs[0]) == ch.(highest := h);
    if Foremost(ch.(highest := h), fs[1..], j, r) {
      forall i | 0 <= i < j + 1 ensures Seen(ch, fs[i]) < Seen(ch, fs[j + 1]) {
        if i > 0 { assert fs[1..][i - 1] == fs[i]; }
      }
    }
    if Foremost(ch, fs, j + 1, r) {
      forall i | 0 <= i < j ensures Seen(ch, fs[1..][i]) < Seen(ch, fs[1..][j]) { assert fs[1..][i] == fs[i + 1]; }
    }
  }

  /** Whether a later frame is accepted, told from the frames themselves. */
  lemma {:induction false} AcceptedByCounter<M>(c: ControlState<M>, fs: seq<Signal>, r: Reader<M>)
    requires c.mode.Noop? && !c.asked
    ensures c.closed ==> (NoneAcceptedAfterClose(c, fs, r) <==> forall j :: 0 <= j < |fs| ==> !Foremost(c.channel, fs, j, r))
    ensures !c.closed ==> (NoneAcceptedAfterClose(c, fs, r) <==> ForemostFirst(c.channel, fs, r))
    decreases |fs|
  {
    if fs != [] {
      var c1 := Receive(c, fs[0], r);
      ReceiveByCounter(c, fs[0], r);
      AcceptedByCounter(c1, fs[1..], r);
      hide Opens, Receive, ReadableFrame, Seen, After;
      assert Foremost(c.channel, fs, 0, r) == Opens(c.channel, fs[0], r);
      forall j | 0 <= j < |fs| - 1 ensures Foremost(c1.channel, fs[1..], j, r) == Foremost(c.channel, fs, j + 1, r) {
        ForemostNext(c.channel, fs, j, r);
      }
      hide Foremost;
      ForemostShift(c.channel, c1.channel, fs, r);
    }
  }

  lemma ForemostShift<M>(ch: Channel, ch1: Channel, fs: seq<Signal>, r: Reader<M>)
    requires fs != []
    requires forall j :: 0 <= j < |fs| - 1 ==> Foremost(ch1, fs[1..], j, r) == Foremost(ch, fs, j + 1, r)
    ensures (forall j :: 0 <= j < |fs| ==> !Foremost(ch, fs, j, r)) <==>
              !Foremost(ch, fs, 0, r) && forall j :: 0 <= j < |fs| - 1 ==> !Foremost(ch1, fs[1..], j, r)
    ensures ForemostFirst(ch, fs, r) <==>
              if Foremost(ch, fs, 0, r) then ForemostFirst(ch1, fs[1..], r)
              else forall j :: 0 <= j < |fs| - 1 ==> !Foremost(ch1, fs[1..], j, r)
  {
    hide Foremost;
    forall j | 0 < j < |fs| ensures Foremost(ch, fs, j, r) == Foremost(ch1, fs[1..], j - 1, r) {
      assert j == (j - 1) + 1;
    }
    if ForemostFirst(ch, fs, r) {
      forall j | 0 <= j < |fs| - 1 && !Foremost(ch, fs, 0, r) ensures !Foremost(ch1, fs[1..], j, r) {
        assert !Foremost(ch, fs, j + 1, r);
      }
      forall i, j | 0 <= i < j < |fs| - 1 && Foremost(ch1, fs[1..], j, r) ensures Foremost(ch1, fs[1..], i, r) {
        assert Foremost(ch, fs, j + 1, r) && Foremost(ch, fs, i + 1, r);
      }
    }
  }

  predicate Valid(fs: seq<Signal>) { forall i :: 0 <= i < |fs| ==> !fs[i].InvalidSignal? }

  /** The frames before the first that is no message of the protocol. */
  function ValidPart(fs: seq<Signal>): (v: seq<Signal>)
    ensures v <= fs && Valid(v)
  {
    if fs == [] || fs[0].InvalidSignal? then [] else [fs[0]] + ValidPart(fs[1..])
  }

  lemma {:induction false} QueueIsValidPart(i: InboxState, fs: seq<Signal>)
    requires !i.closed && !i.waiter
    ensures var v := Queued(i, fs);
            v.queue == i.queue + ValidPart(fs) && v.closed == (ValidPart(fs) != fs)
    decreases |fs|
  {
    if fs != [] {
      if fs[0].InvalidSignal? {
        StaysClosed(InboxReceive(i, fs[0]), fs[1..]);
      } else {
        QueueIsValidPart(InboxReceive(i, fs[0]), fs[1..]);
        assert fs == [fs[0]] + fs[1..];
      }
    }
  }

  lemma {:induction false} StaysClosed(i: InboxState, fs: seq<Signal>)
    requires i.closed
    ensures Queued(i, fs) == i
    decreases |fs|
  {
    if fs != [] { StaysClosed(i, fs[1..]); }
  }

  lemma {:induction false} PendingGrows<M>(c: ControlState<M>, fs: seq<Signal>, r: Reader<M>)
    requires c.mode.Noop? && !c.asked
    ensures c.pending <= ReceiveBacklog(c, fs, r).pending && ReceiveBacklog(c, fs, r).mode.Noop?
    ensures c.closed ==> ReceiveBacklog(c, fs, r).closed
    decreases |fs|
  {
    if fs != [] { PendingGrows(Receive(c, fs[0], r), fs[1..], r); }
  }

  lemma {:induction false} ClosedDirect<M>(c: ControlState<M>, fs: seq<Signal>, r: Reader<M>)
    requires c.closed
    ensures Direct(c, fs, r) == c
  {
  }

  /** Of a closed channel the backlog adds nothing if and only if none of it is accepted. */
  lemma {:induction false} AfterClose<M>(c: ControlState<M>, fs: seq<Signal>, r: Reader<M>)
    requires c.closed && c.mode.Noop? && !c.asked
    ensures ReceiveBacklog(c, fs, r).pending == c.pending <==> NoneAcceptedAfterClose(c, fs, r)
    decreases |fs|
  {
    if fs != [] {
      var c1 := Receive(c, fs[0], r);
      PendingGrows(c1, fs[1..], r);
      AfterClose(c1, fs[1..], r);
    }
  }

  lemma {:induction false} BacklogIsDirect<M>(c: ControlState<M>, fs: seq<Signal>, r: Reader<M>)
    requires !c.closed && c.mode.Noop? && !c.asked
    ensures var b, d := ReceiveBacklog(c, fs, r), Direct(c, fs, r);
            && b.closed == d.closed && (!d.closed ==> b == d)
            && (b.pending == d.pending <==> NoneAcceptedAfterClose(c, fs, r))
    decreases |fs|
  {
    if fs != [] {
      var c1 := Receive(c, fs[0], r);
      if c1.closed {
        ClosedDirect(c1, fs[1..], r);
        PendingGrows(c1, fs[1..], r);
        AfterClose(c1, fs[1..], r);
      } else {
        BacklogIsDirect(c1, fs[1..], r);
      }
    }
  }

  lemma {:induction false} DirectSplits<M>(c: ControlState<M>, a: seq<Signal>, b: seq<Signal>, r: Reader<M>)
    ensures Direct(c, a + b, r) == Direct(Direct(c, a, r), b, r)
    decreases |a|
  {
    if a == [] {
      assert a + b == b;
    } else if !c.closed {
      assert (a + b)[1..] == a[1..] + b;
      DirectSplits(Receive(c, a[0], r), a[1..], b, r);
    }
  }

  /** An invalid message closes the channel and changes nothing else. */
  lemma {:induction false} DirectInvalid<M>(c: ControlState<M>, fs: seq<Signal>, r: Reader<M>)
    requires !c.closed && ValidPart(fs) != fs && c.mode.Noop? && !c.asked
    ensures Direct(c, fs, r) == Direct(c, ValidPart(fs), r).(closed := true)
    decreases |fs|
  {
    if fs[0].InvalidSignal? {
      ClosedDirect(Receive(c, fs[0], r), fs[1..], r);
    } else {
      var c1 := Receive(c, fs[0], r);
      assert ValidPart(fs)[1..] == ValidPart(fs[1..]);
      assert fs == [fs[0]] + fs[1..];
      if c1.closed {
        ClosedDirect(c1, fs[1..], r);
        ClosedDirect(c1, ValidPart(fs[1..]), r);
      } else {
        DirectInvalid(c1, fs[1..], r);
      }
    }
  }

  lemma ClosedOrOpen<M>(ch: Channel, fs: seq<Signal>, r: Reader<M>)
    requires ValidPart(fs) != fs
    ensures ReceiveBacklog(NewControl(ch, true), ValidPart(fs), r).pending
              == ReceiveBacklog(NewControl(ch, false), ValidPart(fs), r).pending
  {
    SameWhateverClosed(NewControl(ch, true), NewControl(ch, false), ValidPart(fs), r);
  }

  lemma {:induction false} SameWhateverClosed<M>(c: ControlState<M>, d: ControlState<M>, fs: seq<Signal>, r: Reader<M>)
    requires c.(closed := d.closed) == d && c.mode.Noop? && !c.asked
    ensures ReceiveBacklog(c, fs, r).pending == ReceiveBacklog(d, fs, r).pending
    decreases |fs|
  {
    if fs != [] { SameWhateverClosed(Receive(c, fs[0], r), Receive(d, fs[0], r), fs[1..], r); }
  }

  /** Wherever the handover falls, the link ends open or closed as if the frames had come directly to
      the control channel, and while it is open the channel is in the same state. The messages are the
      same too if and only if, among the queued frames, those that are readable and ahead of all before
      them come first: the backlog is received to its end even when one of its frames has closed the
      link, so one of them after any other frame makes the difference. */
  lemma HandoverIsDirect<M>(ch: Channel, before: seq<Signal>, after: seq<Signal>, r: Reader<M>)
    ensures var h, d := Handover(ch, before, after, r), Direct(NewControl(ch, false), before + after, r);
            && h.closed == d.closed && (!d.closed ==> h == d)
            && (h.pending == d.pending <==> ForemostFirst(ch, ValidPart(before), r))
  {
    HandoverDiffers(ch, before, after, r);
    hide Handover, Direct, ValidPart, ForemostFirst;
    AcceptedByCounter(NewControl<M>(ch, false), ValidPart(before), r);
  }

  lemma HandoverDiffers<M>(ch: Channel, before: seq<Signal>, after: seq<Signal>, r: Reader<M>)
    ensures var h, d := Handover(ch, before, after, r), Direct(NewControl(ch, false), before + after, r);
            && h.closed == d.closed && (!d.closed ==> h == d)
            && (h.pending == d.pending <==> NoneAcceptedAfterClose(NewControl(ch, false), ValidPart(before), r))
  {
    var c := NewControl<M>(ch, false);
    var q := ValidPart(before);
    QueueIsValidPart(EMPTY_INBOX, before);
    var i := Queued(EMPTY_INBOX, before);
    assert i.queue == q;
    BacklogIsDirect(c, q, r);
    DirectSplits(c, before, after, r);
    if i.closed {
      DirectInvalid(c, before, r);
      ClosedOrOpen(ch, before, r);
      PendingGrows(NewControl<M>(ch, true), q, r);
      ClosedDirect(ReceiveBacklog(NewControl<M>(ch, true), q, r), after, r);
      ClosedDirect(Direct(c, before, r), after, r);
    } else {
      var b := ReceiveBacklog(c, q, r);
      if b.closed {
        ClosedDirect(b, after, r);
        ClosedDirect(Direct(c, before, r), after, r);
      }
    }
  }

  // ---- frames that arrive as they were sent ------------------------------------------------------------

  /** The frames of a peer that has sealed these plaintexts, from counter `n` + 1 on. */
  function Frames(s: Channel, n: nat, plains: seq<Data>): seq<Signal>
    decreases |plains|
  {
    if plains == [] then [] else [SealedSignal(FrameOf(s, n + 1, plains[0]))] + Frames(s, n + 1, plains[1..])
  }

  predicate Readable<M>(plains: seq<Data>, r: Reader<M>) { forall i :: 0 <= i < |plains| ==> r.decode(plains[i]).Some? }

  function Messages<M>(plains: seq<Data>, r: Reader<M>): seq<M>
    requires Readable(plains, r)
  {
    seq(|plains|, i requires 0 <= i < |plains| => r.decode(plains[i]).value)
  }

  /** The control channel once it has opened everything up to `highest`, with these messages. */
  function Delivered<M>(c: ControlState<M>, highest: nat, ms: seq<M>): ControlState<M> {
    c.(channel := c.channel.(highest := highest),
       pending := if c.mode.Noop? then c.pending + ms else c.pending,
       given := if c.mode.App? then c.given + ms else c.given)
  }

  predicate Peers(s: Channel, r: Channel) { r.recvKey == s.sendKey && r.prefix == s.prefix }

  lemma {:induction false} AllDelivered<M>(c: ControlState<M>, s: Channel, n: nat, plains: seq<Data>, r: Reader<M>)
    requires !c.closed && !c.mode.Expecting? && Readable(plains, r) && n + |plains| < MAX_COUNTER
    requires Peers(s, c.channel) && c.channel.highest == n
    ensures Direct(c, Frames(s, n, plains), r) == Delivered(c, n + |plains|, Messages(plains, r))
    decreases |plains|
  {
    if plains != [] {
      hide FrameOf, Frames, Receive, Open, Direct, NewChannel;
      var first, rest := [plains[0]], plains[1..];
      assert plains == first + rest;
      ReadableParts(first, rest, r);
      DeliveredTwice(c, n + 1, Messages(first, r), n + |plains|, Messages(rest, r));
      hide Messages, Readable, Delivered;
      var c1 := Delivered(c, n + 1, Messages(first, r));
      FramesStart(s, n, plains);
      DirectStep(c, Frames(s, n, plains), r);
      OneDelivered(c, s, n, plains[0], r);
      AllDelivered(c1, s, n + 1, rest, r);
    } else {
      hide FrameOf, Receive, Open;
      assert Messages(plains, r) == [];
    }
  }

  lemma DeliveredTwice<M>(c: ControlState<M>, n: nat, a: seq<M>, m: nat, b: seq<M>)
    ensures var d := Delivered(c, n, a);
            && Delivered(d, m, b) == Delivered(c, m, a + b)
            && d.closed == c.closed && d.mode == c.mode && d.channel == c.channel.(highest := n)
  {
    assert c.pending + a + b == c.pending + (a + b) && c.given + a + b == c.given + (a + b);
  }

  lemma OneDelivered<M>(c: ControlState<M>, s: Channel, n: nat, plain: Data, r: Reader<M>)
    requires !c.mode.Expecting? && r.decode(plain).Some? && n + 1 < MAX_COUNTER && Peers(s, c.channel) && c.channel.highest == n
    ensures Receive(c, SealedSignal(FrameOf(s, n + 1, plain)), r) == Delivered(c, n + 1, Messages([plain], r))
  {
    hide FrameOf, Open, Receive;
    ReceivesOne(c, s, n + 1, plain, r);
    assert Messages([plain], r) == [r.decode(plain).value];
  }

  lemma DirectStep<M>(c: ControlState<M>, fs: seq<Signal>, r: Reader<M>)
    requires fs != [] && !c.closed
    ensures Direct(c, fs, r) == Direct(Receive(c, fs[0], r), fs[1..], r)
  {
  }

  lemma FramesStart(s: Channel, n: nat, plains: seq<Data>)
    requires plains != []
    ensures var fs := Frames(s, n, plains);
            fs != [] && fs[0] == SealedSignal(FrameOf(s, n + 1, plains[0])) && fs[1..] == Frames(s, n + 1, plains[1..])
  {
  }

  lemma ReceivesOne<M>(c: ControlState<M>, s: Channel, counter: nat, plain: Data, r: Reader<M>)
    requires c.channel.recvKey == s.sendKey && c.channel.prefix == s.prefix && c.channel.highest < counter < MAX_COUNTER
    requires r.decode(plain).Some?
    ensures Receive(c, SealedSignal(FrameOf(s, counter, plain)), r)
              == Dispatch(c.(channel := c.channel.(highest := counter)), r.decode(plain).value, r)
  {
    OpensWhatWasSealed(s, c.channel, counter, plain);
    hide FrameOf, Open;
  }

  lemma {:induction false} FramesSplit(s: Channel, n: nat, a: seq<Data>, b: seq<Data>)
    ensures Frames(s, n, a + b) == Frames(s, n, a) + Frames(s, n + |a|, b)
    decreases |a|
  {
    if a == [] {
      assert a + b == b;
    } else {
      assert (a + b)[1..] == a[1..] + b;
      FramesSplit(s, n + 1, a[1..], b);
    }
  }

  /** Whatever a peer seals and the link delivers, some before the handover, some before the handler is
      set and some after, reaches the handler: every message once, in order, and the link stays open. */
  lemma EverySealedFrameArrives<M>(root: Data, role: Role, queued: seq<Data>, early: seq<Data>, late: seq<Data>, r: Reader<M>)
    requires Readable(queued + early + late, r) && |queued + early + late| < MAX_COUNTER
    ensures var s := NewChannel(root, "control", Other(role));
            var n, k := |queued|, |queued| + |early|;
            var before := Handover(NewChannel(root, "control", role), Frames(s, 0, queued), Frames(s, n, early), r);
            var v := Direct(SetHandler(before), Frames(s, k, late), r);
            v.given == Messages(queued + early + late, r) && v.pending == [] && !v.closed
  {
    hide NewChannel, Frames, Receive, Direct, Handover, NoneAcceptedAfterClose, ValidPart, ReceiveBacklog, Queued, FrameOf, Open, ForemostFirst;
    var s, ch := NewChannel(root, "control", Other(role)), NewChannel(root, "control", role);
    PeerChannels(root, role);
    var n, k := |queued|, |queued| + |early|;
    var c := NewControl<M>(ch, false);
    ReadableParts(queued + early, late, r);
    hide Readable, Messages;
    HandoverIsDirect(ch, Frames(s, 0, queued), Frames(s, n, early), r);
    FramesSplit(s, 0, queued, early);
    AllDelivered(c, s, 0, queued + early, r);
    var before := Handover(ch, Frames(s, 0, queued), Frames(s, n, early), r);
    assert before == Delivered(c, k, Messages(queued + early, r));
    AllDelivered(SetHandler(before), s, k, late, r);
    assert SetHandler(before).given == [] + ([] + Messages(queued + early, r));
  }

  lemma ReadableParts<M>(a: seq<Data>, b: seq<Data>, r: Reader<M>)
    requires Readable(a + b, r)
    ensures Readable(a, r) && Readable(b, r) && Messages(a + b, r) == Messages(a, r) + Messages(b, r)
  {
    forall i | 0 <= i < |a| ensures r.decode(a[i]).Some? { assert a[i] == (a + b)[i]; }
    forall i | 0 <= i < |b| ensures r.decode(b[i]).Some? { assert b[i] == (a + b)[|a| + i]; }
    assert Messages(a + b, r) == Messages(a, r) + Messages(b, r);
  }

  /** The backlog does go on after a bad frame: an error queued before a sealed message closes the
      link, and the message is accepted all the same. */
  lemma BacklogOutlivesTheLink<M>(root: Data, plain: Data, r: Reader<M>)
    requires r.decode(plain).Some?
    ensures var frame := SealedSignal(FrameOf(NewChannel(root, "control", HostRole), 1, plain));
            var ch := NewChannel(root, "control", ViewerRole);
            var late := Handover(ch, [ErrorSignal, frame], [], r);
            var direct := Direct(NewControl(ch, false), [ErrorSignal, frame], r);
            late.closed && direct.closed && late.pending == [r.decode(plain).value] && direct.pending == []
  {
    hide FrameOf, Open, NewChannel, Receive, Direct, ReceiveBacklog, ValidPart, Queued;
    var s, ch := NewChannel(root, "control", HostRole), NewChannel(root, "control", ViewerRole);
    var frame := SealedSignal(FrameOf(s, 1, plain));
    PeerChannels(root, ViewerRole);
    var closed := NewControl<M>(ch, false).(closed := true);
    var fs := [ErrorSignal, frame];
    assert fs[1..] == [frame] && [frame][1..] == [];
    ErrorCloses(NewControl<M>(ch, false), r);
    ReceivesOne(closed, s, 1, plain, r);
    QueueIsValidPart(EMPTY_INBOX, fs);
    BothValid(ErrorSignal, frame);
    BacklogStep(NewControl<M>(ch, false), fs, r);
    BacklogStep(closed, [frame], r);
    DirectStep(NewControl<M>(ch, false), fs, r);
    ClosedDirect(closed, fs[1..], r);
    BacklogEnd(Receive(closed, frame, r), r);
    var end := ReceiveBacklog(NewControl<M>(ch, false), fs, r);
    ClosedDirect(end, [], r);
    assert Queued(EMPTY_INBOX, fs).queue == fs;
    assert Handover(ch, fs, [], r) == end && end.pending == [] + [r.decode(plain).value];
    assert Direct(NewControl<M>(ch, false), fs, r) == closed;
  }

  lemma ErrorCloses<M>(c: ControlState<M>, r: Reader<M>)
    requires !c.asked
    ensures Receive(c, ErrorSignal, r) == c.(closed := true)
  {
  }

  lemma BothValid(a: Signal, b: Signal)
    requires !a.InvalidSignal? && !b.InvalidSignal?
    ensures ValidPart([a, b]) == [a, b]
  {
    assert ValidPart([]) == [] && ValidPart([b]) == [b] && [a, b][1..] == [b];
  }

  /** What one end sends under is what the other receives under. */
  lemma PeerChannels(root: Data, role: Role)
    ensures var s, ch := NewChannel(root, "control", Other(role)), NewChannel(root, "control", role);
            Peers(s, ch) && ch.highest == 0
  {
  }

  lemma BacklogStep<M>(c: ControlState<M>, fs: seq<Signal>, r: Reader<M>)
    requires fs != []
    ensures ReceiveBacklog(c, fs, r) == ReceiveBacklog(Receive(c, fs[0], r), fs[1..], r)
  {
  }

  lemma BacklogEnd<M>(c: ControlState<M>, r: Reader<M>)
    ensures ReceiveBacklog(c, [], r) == c
  {
  }

  // ---- expect ---------------------------------------------------------------------------------------------

  lemma {:induction false} LaterAnswers<M>(c: ControlState<M>, ms: seq<M>, kind: nat, r: Reader<M>)
    requires !c.mode.Expecting? && !c.asked
    ensures var v := AnswerAll(c, ms, kind, r);
            v.answers == c.answers && (ms == [] || v.mode == Noop) && (ms == [] ==> v == c) && v.pending == c.pending
            && v.given == c.given && v.channel == c.channel && !v.asked
            && (v.closed <==> c.closed || exists i :: 0 <= i < |ms| && r.kind(ms[i]) != kind)
    decreases |ms|
  {
    if ms != [] {
      LaterAnswers(Answer(c, ms[0], kind, r), ms[1..], kind, r);
      forall i | 0 < i < |ms| ensures ms[i] == ms[1..][i - 1] {}
    }
  }

  /** `expect` answers with the oldest message and takes all that are pending: what is answered and
      what stays is what was there if and only if at most one message was pending. The link stays open
      exactly when all of them had the type asked for. On a link that has closed it takes them all the
      same, and rejects. */
  lemma ExpectTakesAll<M>(c: ControlState<M>, kind: nat, r: Reader<M>)
    requires !c.asked
    ensures var v := Expect(c, kind, r);
            && v.pending == []
            && (if c.pending == []
                then
                  v == c.(mode := Expecting(kind), asked := !c.closed, answers := if c.closed then c.answers + [None] else c.answers)
                else
                  && v.mode == Noop && !v.asked
                  && v.answers == c.answers + [if !c.closed && r.kind(c.pending[0]) == kind then Some(c.pending[0]) else None]
                  && (v.closed <==> c.closed || exists i :: 0 <= i < |c.pending| && r.kind(c.pending[i]) != kind))
            && (!c.closed ==> (|v.answers| - |c.answers| + |v.pending| == |c.pending| <==> |c.pending| <= 1))
  {
    if c.pending != [] {
      var c1 := Answer(Ask(c).(mode := Expecting(kind), pending := []), c.pending[0], kind, r);
      LaterAnswers(c1, c.pending[1..], kind, r);
      forall i | 0 < i < |c.pending| ensures c.pending[i] == c.pending[1..][i - 1] {}
    }
  }

  /** What can become of an `expect` that waits. */
  datatype Happening<M> = Arrives(s: Signal) | Fires | Closes

  function Afterwards<M>(c: ControlState<M>, x: Happening<M>, r: Reader<M>): ControlState<M> {
    match x
    case Arrives(s) => if c.closed then c else Receive(c, s, r)
    case Fires => TimesOut(c)
    case Closes => Shut(c)
  }

  function AfterAll<M>(c: ControlState<M>, xs: seq<Happening<M>>, r: Reader<M>): ControlState<M>
    decreases |xs|
  {
    if xs == [] then c else AfterAll(Afterwards(c, xs[0], r), xs[1..], r)
  }

  /** It gets one result, and only one, whatever comes first: a message, its timer, or the end of the link. */
  lemma {:induction false} ExpectIsSettledOnce<M>(c: ControlState<M>, xs: seq<Happening<M>>, r: Reader<M>)
    requires c.asked && !c.closed && c.mode.Expecting?
    ensures var v := AfterAll(c, xs, r);
            && |v.answers| == |c.answers| + (if v.asked then 0 else 1) && c.answers <= v.answers
            && (v.asked ==> v == c)
            && (xs != [] ==> !v.asked)
    decreases |xs|
  {
    hide Open;
    if xs != [] {
      SettledIsSettled(Afterwards(c, xs[0], r), xs[1..], r);
    }
  }

  lemma {:induction false} SettledIsSettled<M>(c: ControlState<M>, xs: seq<Happening<M>>, r: Reader<M>)
    requires !c.asked
    ensures !AfterAll(c, xs, r).asked && AfterAll(c, xs, r).answers == c.answers
    decreases |xs|
  {
    hide Open;
    if xs != [] { SettledIsSettled(Afterwards(c, xs[0], r), xs[1..], r); }
  }

  // ---- the inbox ------------------------------------------------------------------------------------------

  datatype Step = Comes(s: Signal) | Asks | Expires | Ends

  /** The inbox, and what its callers got so far. */
  function InboxStep(i: InboxState, got: seq<Signal>, x: Step): (InboxState, seq<Signal>) {
    match x
    case Comes(s) =>
      (InboxReceive(i, s), if i.waiter && !s.InvalidSignal? then got + [s] else got)
    case Asks => (InboxNext(i), if i.queue != [] then got + [i.queue[0]] else got)
    case Expires => (InboxTimesOut(i), got)
    case Ends => (InboxFails(i), got)
  }

  function InboxRun(i: InboxState, got: seq<Signal>, xs: seq<Step>): (InboxState, seq<Signal>)
    decreases |xs|
  {
    if xs == [] then (i, got) else var n := InboxStep(i, got, xs[0]); InboxRun(n.0, n.1, xs[1..])
  }

  /** The messages that came and are messages. */
  function Came(xs: seq<Step>): seq<Signal> {
    if xs == [] then []
    else (if xs[0].Comes? && !xs[0].s.InvalidSignal? then [xs[0].s] else []) + Came(xs[1..])
  }

  /** Nobody waits beside a queue. */
  predicate Tidy(i: InboxState) { i.waiter ==> i.queue == [] }

  /** Whoever asks, gives up or is refused: the messages are handed out once each, in the order in which they
      came, and those that are not are still queued for the control channel. */
  lemma {:induction false} InboxLosesNothing(i: InboxState, got: seq<Signal>, xs: seq<Step>)
    requires Tidy(i)
    ensures var v := InboxRun(i, got, xs);
            Tidy(v.0) && v.1 + v.0.queue == got + i.queue + Came(xs)
    decreases |xs|
  {
    if xs != [] {
      var n := InboxStep(i, got, xs[0]);
      InboxStepKeeps(i, got, xs[0]);
      hide InboxStep, Tidy;
      InboxLosesNothing(n.0, n.1, xs[1..]);
    }
  }

  lemma InboxStepKeeps(i: InboxState, got: seq<Signal>, x: Step)
    requires Tidy(i)
    ensures var n := InboxStep(i, got, x);
            Tidy(n.0) && n.1 + n.0.queue == got + i.queue + if x.Comes? && !x.s.InvalidSignal? then [x.s] else []
  {
    if i.queue != [] { assert i.queue == [i.queue[0]] + i.queue[1..]; }
  }
}
