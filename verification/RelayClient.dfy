/** The client side of the rendezvous: one WebSocket carrying every session of a computer. */
module Relay {
  import opened Wrappers
  import opened Rendezvous
  import opened Signaling

  datatype RelayState = Offline | Connecting | Online

  /** One session's link. `handled` is what its message handler has been given so far and
      `sent` what it was asked to send while it was open. */
  datatype Link = Link(
    conn: Conn, closed: bool, hasHandler: bool, backlog: seq<Payload>, handled: seq<Payload>, sent: seq<Payload>)
  {
    function Taken(): seq<Payload> { handled + backlog }
  }

  /** `sessions` are the registered links; `links` are all there ever were. */
  datatype Client = Client(
    socket: Option<Conn>, state: RelayState, closing: bool,
    sessions: set<Sid>, links: map<Sid, Link>, pending: set<Device>)

  const IDLE: Client := Client(None, Offline, false, {}, map[], {})

  // ---- specification -------------------------------------------------------------------

  function Deliver(k: Link, payload: Payload): Link {
    if k.closed then k
    else if k.hasHandler then k.(handled := k.handled + [payload])
    else k.(backlog := k.backlog + [payload])
  }

  function EndLink(cl: Client, sid: Sid): Client {
    if sid in cl.sessions && sid in cl.links
    then cl.(sessions := cl.sessions - {sid}, links := cl.links[sid := cl.links[sid].(closed := true)])
    else cl.(sessions := cl.sessions - {sid})
  }

  function EndEvery(cl: Client): Client {
    cl.(sessions := {},
        links := map sid | sid in cl.links ::
                   if sid in cl.sessions then cl.links[sid].(closed := true) else cl.links[sid])
  }

  lemma EndLinkSessions(cl: Client, sid: Sid)
    ensures EndLink(cl, sid).sessions == cl.sessions - {sid}
  {
  }

  /** Some of the sessions ended. */
  ghost function EndSome(cl: Client, done: set<Sid>): Client {
    cl.(sessions := cl.sessions - done,
        links := map sid | sid in cl.links ::
                   if sid in cl.sessions && sid in done then cl.links[sid].(closed := true) else cl.links[sid])
  }

  lemma EndSomeMore(cl: Client, done: set<Sid>, sid: Sid)
    requires sid in cl.sessions && sid !in done
    ensures EndSome(cl, done + {sid}) == EndLink(EndSome(cl, done), sid)
  {
    assert cl.sessions - (done + {sid}) == (cl.sessions - done) - {sid};
    assert EndSome(cl, done + {sid}).links == EndLink(EndSome(cl, done), sid).links;
  }

  lemma EndSomeEnds(cl: Client)
    ensures EndSome(cl, {}) == cl && EndSome(cl, cl.sessions) == EndEvery(cl)
  {
    assert EndSome(cl, {}).links == cl.links && EndSome(cl, cl.sessions).links == EndEvery(cl).links;
  }

  /** One message from the server. */
  function Receive(cl: Client, c: Conn, m: ServerMsg): Client {
    match m
    case Ready(_) => cl.(state := Online)
    case SessionOpened(sid, role, peer) =>
      var k := Link(c, false, false, [], [], []);
      var cl1 := cl.(sessions := cl.sessions + {sid}, links := cl.links[sid := k]);
      if role == Viewer then cl1.(pending := cl1.pending - {peer}) else cl1
    case ConnectFailed(target, _) => cl.(pending := cl.pending - {target})
    case Relayed(sid, payload) =>
      if sid in cl.sessions && sid in cl.links
      then cl.(links := cl.links[sid := Deliver(cl.links[sid], payload)]) else cl
    case SessionEnded(sid, _) => EndLink(cl, sid)
    case _ => cl
  }

  function Dial(cl: Client, c: Conn): Client { cl.(state := Connecting, socket := Some(c)) }

  function SocketLost(cl: Client): Client {
    EndEvery(cl).(socket := None, pending := {}, state := Offline)
  }

  function Shut(cl: Client): Client {
    EndEvery(cl).(closing := true, socket := None, state := Offline)
  }

  /** `ready` says whether the socket would take a message: `socket?.readyState === 1`. */
  function LinkSend(cl: Client, sid: Sid, payload: Payload, ready: bool): (Client, seq<ClientMsg>) {
    if sid !in cl.links || cl.links[sid].closed then (cl, [])
    else (cl.(links := cl.links[sid := cl.links[sid].(sent := cl.links[sid].sent + [payload])]),
          if ready then [Frame(sid, payload)] else [])
  }

  function LinkListen(cl: Client, sid: Sid): Client {
    if sid !in cl.links then cl
    else
      var k := cl.links[sid];
      cl.(links := cl.links[sid := k.(hasHandler := true, handled := k.handled + k.backlog, backlog := [])])
  }

  function LinkClose(cl: Client, sid: Sid, ready: bool): (Client, seq<ClientMsg>) {
    if sid !in cl.links || cl.links[sid].closed then (cl, [])
    else (cl.(sessions := cl.sessions - {sid}, links := cl.links[sid := cl.links[sid].(closed := true)]),
          if ready then [Close(sid)] else [])
  }

  function RequestSession(cl: Client, target: Device, ready: bool): (Client, seq<ClientMsg>) {
    if cl.state != Online || cl.socket.None? then (cl, [])
    else (cl.(pending := cl.pending + {target}), if ready then [Connect(target)] else [])
  }

  // ---- the class -----------------------------------------------------------------------

  class RelayClient {
    var socket: Option<Conn>
    var state: RelayState
    var closing: bool
    var sessions: set<Sid>
    var links: map<Sid, Link>
    var pending: set<Device>

    ghost function View(): Client
      reads this
    {
      Client(socket, state, closing, sessions, links, pending)
    }

    constructor ()
      ensures View() == IDLE
    {
      socket, state, closing, sessions, links, pending := None, Offline, false, {}, map[], {};
    }

    method Connected(c: Conn)
      modifies this
      ensures View() == Dial(old(View()), c)
    {
      state := Connecting;
      socket := Some(c);
    }

    method OnMessage(c: Conn, m: ServerMsg)
      modifies this
      ensures View() == Receive(old(View()), c, m)
    {
      match m {
        case Ready(_) =>
          state := Online;
        case SessionOpened(sid, role, peer) =>
          links := links[sid := Link(c, false, false, [], [], [])];
          sessions := sessions + {sid};
          if role == Viewer {
            pending := pending - {peer};
          }
        case ConnectFailed(target, _) =>
          pending := pending - {target};
        case Relayed(sid, payload) =>
          if sid in sessions && sid in links {
            DeliverTo(sid, payload);
          }
        case SessionEnded(sid, _) =>
          EndOne(sid);
        case _ =>
      }
    }

    method DeliverTo(sid: Sid, payload: Payload)
      requires sid in links
      modifies this`links
      ensures links == old(links)[sid := Deliver(old(links[sid]), payload)]
    {
      var k := links[sid];
      if !k.closed {
        if k.hasHandler {
          k := k.(handled := k.handled + [payload]);
        } else {
          k := k.(backlog := k.backlog + [payload]);
        }
      }
      links := links[sid := k];
    }

    method EndOne(sid: Sid)
      modifies this
      ensures View() == EndLink(old(View()), sid)
    {
      if sid in sessions {
        sessions := sessions - {sid};
        if sid in links && !links[sid].closed {
          links := links[sid := links[sid].(closed := true)];
        }
      }
      assert sid in old(sessions) && sid in old(links) ==>
          links == old(links)[sid := old(links[sid]).(closed := true)];
    }

    method EndAll()
      modifies this
      ensures View() == EndEvery(old(View()))
    {
      ghost var cl := View();
      ghost var done: set<Sid> := {};
      EndSomeEnds(cl);
      hide EndSome, EndEvery, EndLink;
      while sessions != {}
        invariant View() == EndSome(cl, done) && done + sessions == cl.sessions && done * sessions == {}
        decreases |sessions|
      {
        var sid :| sid in sessions;
        EndSomeMore(cl, done, sid);
        EndLinkSessions(View(), sid);
        EndOne(sid);
        done := done + {sid};
      }
      assert done == cl.sessions;
    }

    method OnClose()
      modifies this
      ensures View() == SocketLost(old(View()))
    {
      EndAll();
      socket, pending, state := None, {}, Offline;
    }

    method Stop()
      modifies this
      ensures View() == Shut(old(View()))
    {
      EndAll();
      closing, socket, state := true, None, Offline;
    }

    method Send(sid: Sid, payload: Payload, ready: bool) returns (out: seq<ClientMsg>)
      modifies this
      ensures (View(), out) == LinkSend(old(View()), sid, payload, ready)
    {
      out := [];
      if sid in links && !links[sid].closed {
        links := links[sid := links[sid].(sent := links[sid].sent + [payload])];
        if ready {
          out := [Frame(sid, payload)];
        }
      }
    }

    method Listen(sid: Sid)
      modifies this
      ensures View() == LinkListen(old(View()), sid)
    {
      if sid in links {
        var k := links[sid].(hasHandler := true);
        while k.backlog != []
          invariant k.hasHandler && k.conn == old(links[sid]).conn && k.closed == old(links[sid]).closed
          invariant k.sent == old(links[sid]).sent
          invariant k.handled + k.backlog == old(links[sid]).Taken()
          decreases |k.backlog|
        {
          k := k.(handled := k.handled + [k.backlog[0]], backlog := k.backlog[1..]);
        }
        assert k.handled == old(links[sid]).Taken();
        links := links[sid := k];
      }
    }

    method CloseLink(sid: Sid, ready: bool) returns (out: seq<ClientMsg>)
      modifies this
      ensures (View(), out) == LinkClose(old(View()), sid, ready)
    {
      out := [];
      if sid in links && !links[sid].closed {
        links := links[sid := links[sid].(closed := true)];
        if ready {
          out := [Close(sid)];
        }
        sessions := sessions - {sid};
      }
    }

    method Request(target: Device, ready: bool) returns (out: seq<ClientMsg>)
      modifies this
      ensures (View(), out) == RequestSession(old(View()), target, ready)
    {
      out := [];
      if state == Online && socket.Some? {
        pending := pending + {target};
        if ready {
          out := [Connect(target)];
        }
      }
    }
  }
}
