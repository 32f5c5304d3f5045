/** The control channel of a session, and how it takes over from the handshake's inbox. */
module Control {
  import opened Wrappers
  import opened Bytes
  import opened Channel

  /** What the link hands on: a message of the handshake's kinds, or a value that is none. */
  datatype Signal = SealedSignal(data: Data) | ErrorSignal | OtherSignal | InvalidSignal

  /** How plaintexts are read as control messages, and the type of each. */
  datatype Reader<!M> = Reader(decode: Data -> Option<M>, kind: M -> nat)

  // ---- the inbox --------------------------------------------------------------------------------

  /** `waiter` is a caller of `next` that has not been answered yet. */
  datatype InboxState = InboxState(queue: seq<Signal>, waiter: bool, answer: Option<Signal>, failed: bool, closed: bool)

  const EMPTY_INBOX: InboxState := InboxState([], false, None, false, false)

  function InboxReceive(i: InboxState, s: Signal): InboxState {
    if s.InvalidSignal? then i.(waiter := false, failed := true, closed := true)
    else if i.waiter then i.(waiter := false, answer := Some(s))
    else i.(queue := i.queue + [s])
  }

  /** `next`: the oldest queued message, even after a failure; else a failure; else it waits. */
  function InboxNext(i: InboxState): InboxState {
    if i.queue != [] then i.(queue := i.queue[1..], answer := Some(i.queue[0]))
    else if i.failed then i.(answer := None)
    else i.(waiter := true, answer := None)
  }

  /** The timer of `next` fires: its caller is refused. */
  function InboxTimesOut(i: InboxState): InboxState { i.(waiter := false) }

  /** The link closes. */
  function InboxFails(i: InboxState): InboxState { i.(waiter := false, failed := true, closed := true) }

  class Inbox {
    var queue: seq<Signal>
    var waiter: bool
    var answer: Option<Signal>
    var failed: bool
    var closed: bool

    ghost function View(): InboxState
      reads this
    {
      InboxState(queue, waiter, answer, failed, closed)
    }

    constructor ()
      ensures View() == EMPTY_INBOX
    {
      queue, waiter, answer, failed, closed := [], false, None, false, false;
    }

    method Receive(s: Signal)
      modifies this
      ensures View() == InboxReceive(old(View()), s)
    {
      if s.InvalidSignal? {
        failed, waiter := true, false;
        closed := true;
        return;
      }
      if waiter {
        waiter := false;
        answer := Some(s);
      } else {
        queue := queue + [s];
      }
    }

    method Next()
      modifies this
      ensures View() == InboxNext(old(View()))
    {
      if queue != [] {
        answer := Some(queue[0]);
        queue := queue[1..];
        return;
      }
      answer := None;
      if !failed {
        waiter := true;
      }
    }

    method TimeOut()
      modifies this
      ensures View() == InboxTimesOut(old(View()))
    {
      waiter := false;
    }

    method OnClose()
      modifies this
      ensures View() == InboxFails(old(View()))
    {
      failed, closed := true, true;
      waiter := false;
    }

    method Drain() returns (all: seq<Signal>)
      modifies this
      ensures all == old(queue) && View() == old(View()).(queue := [])
    {
      all, queue := queue, [];
    }
  }

  // ---- the sealed control channel ------------------------------------------------------------------

  datatype Mode = Noop | App | Expecting(kind: nat)

  /** `given` went to the application's handler; `answers` are the results of `expect`, none where it
      rejected, and `asked` says that the last of them is still to come. */
  datatype ControlState<M> = ControlState(
    channel: Channel, closed: bool, mode: Mode, pending: seq<M>, given: seq<M>, asked: bool, answers: seq<Option<M>>)

  /** The result of the last `expect`, if it is still to come. */
  function Result<M>(c: ControlState<M>, result: Option<M>): ControlState<M> {
    if c.asked then c.(asked := false, answers := c.answers + [result]) else c
  }

  /** The link closes, which rejects the `expect` that waits. */
  function Shut<M>(c: ControlState<M>): ControlState<M> { if c.closed then c else Result(c.(closed := true), None) }

  function Dispatch<M>(c: ControlState<M>, m: M, r: Reader<M>): ControlState<M> {
    match c.mode
    case Noop => c.(pending := c.pending + [m])
    case App => c.(given := c.given + [m])
    case Expecting(kind) => Answer(c, m, kind, r)
  }

  /** The handler of `expect`, called with `m`; only its first call decides. */
  function Answer<M>(c: ControlState<M>, m: M, kind: nat, r: Reader<M>): ControlState<M> {
    if r.kind(m) == kind then Result(c.(mode := Noop), Some(m)) else Shut(Result(c.(mode := Noop), None))
  }

  /** The timer of `expect` fires, unless it has its result. */
  function TimesOut<M>(c: ControlState<M>): ControlState<M> {
    if c.asked then Result(c.(mode := Noop), None) else c
  }

  /** A frame, whether or not the link is open: the handler of the link does not look. */
  function Receive<M>(c: ControlState<M>, s: Signal, r: Reader<M>): ControlState<M> {
    if !s.SealedSignal? then Shut(c)
    else
      var o := Open(c.channel, s.data);
      var c1 := c.(channel := o.0);
      if o.1.None? then Shut(c1)
      else
        match r.decode(o.1.value)
        case None => Shut(c1)
        case Some(m) => Dispatch(c1, m, r)
  }

  /** Every frame of the backlog is received, also those after one that closed the link. */
  function ReceiveBacklog<M>(c: ControlState<M>, backlog: seq<Signal>, r: Reader<M>): ControlState<M>
    decreases |backlog|
  {
    if backlog == [] then c else ReceiveBacklog(Receive(c, backlog[0], r), backlog[1..], r)
  }

  function NewControl<M>(channel: Channel, closed: bool): ControlState<M> {
    ControlState(channel, closed, Noop, [], [], false, [])
  }

  function SetHandler<M>(c: ControlState<M>): ControlState<M> {
    c.(mode := App, given := c.given + c.pending, pending := [])
  }

  function AnswerAll<M>(c: ControlState<M>, ms: seq<M>, kind: nat, r: Reader<M>): ControlState<M>
    decreases |ms|
  {
    if ms == [] then c else AnswerAll(Answer(c, ms[0], kind, r), ms[1..], kind, r)
  }

  /** On a closed link it is rejected at once; its handler is set all the same. */
  function Ask<M>(c: ControlState<M>): ControlState<M> { if c.closed then Result(c.(asked := true), None) else c.(asked := true) }

  function Expect<M>(c: ControlState<M>, kind: nat, r: Reader<M>): ControlState<M> {
    AnswerAll(Ask(c).(mode := Expecting(kind), pending := []), c.pending, kind, r)
  }

  class SecureControl<!M> {
    const reader: Reader<M>
    const channel: SealedChannel
    var closed: bool
    var mode: Mode
    var pending: seq<M>
    var given: seq<M>
    var asked: bool
    var answers: seq<Option<M>>

    ghost function View(): ControlState<M>
      reads this, channel
    {
      ControlState(channel.View(), closed, mode, pending, given, asked, answers)
    }

    constructor (root: Data, role: Role, backlog: seq<Signal>, reader: Reader<M>, closed: bool)
      requires |root| == 32
      ensures fresh(channel) && this.reader == reader
      ensures View() == ReceiveBacklog(NewControl(NewChannel(root, "control", role), closed), backlog, reader)
    {
      this.reader := reader;
      channel := new SealedChannel(root, "control", role);
      this.closed, mode, pending, given, asked, answers := closed, Noop, [], [], false, [];
      new;
      var todo := backlog;
      while todo != []
        invariant ReceiveBacklog(View(), todo, reader) ==
                  ReceiveBacklog(NewControl(NewChannel(root, "control", role), closed), backlog, reader)
        invariant fresh(channel)
        decreases |todo|
      {
        ReceiveSignal(todo[0]);
        todo := todo[1..];
      }
    }

    method ReceiveSignal(s: Signal)
      modifies this, channel
      ensures View() == Receive(old(View()), s, reader)
    {
      if !s.SealedSignal? {
        CloseLink();
        return;
      }
      var plain := channel.OpenFrame(s.data);
      if plain.None? {
        CloseLink();
        return;
      }
      var message := reader.decode(plain.value);
      if message.None? {
        CloseLink();
        return;
      }
      match mode {
        case Noop => pending := pending + [message.value];
        case App => given := given + [message.value];
        case Expecting(kind) => AnswerWith(message.value, kind);
      }
    }

    method Settle(result: Option<M>)
      modifies this`asked, this`answers
      ensures View() == Result(old(View()), result)
    {
      if asked {
        asked, answers := false, answers + [result];
      }
    }

    method CloseLink()
      modifies this`closed, this`asked, this`answers
      ensures View() == Shut(old(View()))
    {
      if !closed {
        closed := true;
        Settle(None);
      }
    }

    method AnswerWith(m: M, kind: nat)
      modifies this`mode, this`closed, this`asked, this`answers
      ensures View() == Answer(old(View()), m, kind, reader)
    {
      mode := Noop;
      if reader.kind(m) == kind {
        Settle(Some(m));
      } else {
        Settle(None);
        CloseLink();
      }
    }

    method TimeOut()
      modifies this`mode, this`asked, this`answers
      ensures View() == TimesOut(old(View()))
    {
      if asked {
        mode := Noop;
        Settle(None);
      }
    }

    method OnMessage()
      modifies this
      ensures View() == SetHandler(old(View()))
    {
      mode := App;
      var todo := pending;
      pending := [];
      while todo != []
        invariant View() == old(View()).(mode := App, pending := [], given := given)
        invariant given + todo == old(given + pending)
        decreases |todo|
      {
        given := given + [todo[0]];
        todo := todo[1..];
      }
    }

    method ExpectKind(kind: nat)
      modifies this
      ensures View() == Expect(old(View()), kind, reader)
    {
      asked := true;
      if closed {
        Settle(None);
      }
      mode := Expecting(kind);
      var todo := pending;
      pending := [];
      while todo != []
        invariant AnswerAll(View(), todo, kind, reader) == Expect(old(View()), kind, reader)
        decreases |todo|
      {
        AnswerWith(todo[0], kind);
        todo := todo[1..];
      }
    }

    method Send(plain: Data) returns (frame: Option<Data>)
      modifies channel
      ensures if closed then frame.None? && View() == old(View())
              else (channel.View(), frame) == Seal(old(channel.View()), plain)
    {
      if closed {
        return None;
      }
      frame := channel.SealData(plain);
    }
  }
}
