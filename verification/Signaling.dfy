/** The rendezvous: what the server does with each message on each WebSocket. */
module Signaling {
  import opened Wrappers
  import opened Rendezvous

  const MAX_SESSIONS_PER_DEVICE := 4
  const MAX_FRAMES_PER_SECOND := 400

  /** A credential, idealised: nobody holds one for a device that is not theirs. */
  datatype Token = Token(device: Device, serial: nat)

  datatype ClientMsg =
    | Auth(token: Token)
    | Connect(target: Device)
    | Frame(sid: Sid, payload: Payload)
    | Close(sid: Sid)
    | Ping
    | Binary       // a binary WebSocket frame
    | Malformed    // any other text that the message schema refuses

  datatype DeviceRow = DeviceRow(account: Account, approved: bool)

  /** What `authenticateToken` answers: the device is absent for a plain sign-in. */
  datatype Holder = Holder(account: Account, device: Option<Device>)

  /** Everything the handlers ask the account database, at one moment. */
  datatype Registry = Registry(
    devices: map<Device, DeviceRow>, blocked: set<Device>, holders: map<Token, Holder>, refused: set<Token>)

  // ---- specification ---------------------------------------------------------------

  /** A new WebSocket, not authenticated yet. */
  function Accept(s: Server, c: Conn, now: int): Server {
    s.(socks := s.socks[c := Socket(Open, None, 0, now, now, [])])
  }

  /** The message is counted; true when it exceeds the limit and is dropped. */
  predicate OverLimit(k: Socket, now: int) {
    now - k.windowStart <= 1000 && k.frames + 1 > MAX_FRAMES_PER_SECOND
  }

  function Counted(k: Socket, now: int): Socket {
    if now - k.windowStart > 1000 then k.(windowStart := now, frames := 1, lastSeen := now)
    else k.(frames := k.frames + 1, lastSeen := now)
  }

  function Reply(s: Server, c: Conn, m: ServerMsg): Server { s.(socks := SendOn(s.socks, c, m)) }

  function Hangup(s: Server, c: Conn): Server { s.(socks := CloseOn(s.socks, c)) }

  /** Whether the message gets as far as the handlers, past the frame and rate checks. */
  predicate Handled(s: Server, c: Conn, m: ClientMsg, now: int)
    requires c in s.socks
  {
    !m.Binary? && !OverLimit(s.socks[c], now)
  }

  /** Text that the schema refuses: a frame among it when its payload does not fit. */
  predicate Unreadable(m: ClientMsg) { m.Malformed? || (m.Frame? && !m.payload.fits) }

  function OnMessage(s: Server, c: Conn, m: ClientMsg, now: int, reg: Registry, uuid: Sid): Server
    requires c in s.socks
  {
    if m.Binary? then Hangup(s.(socks := s.socks[c := s.socks[c].(lastSeen := now)]), c)
    else
      var s1 := s.(socks := s.socks[c := Counted(s.socks[c], now)]);
      if OverLimit(s.socks[c], now) then Hangup(s1, c)
      else if Unreadable(m) then Hangup(Reply(s1, c, Error), c)
      else if m.Auth? then OnAuth(s1, c, m.token, now, reg)
      else if s1.socks[c].caller.None? then Hangup(s1, c)
      else match m
        case Ping => Reply(s1, c, Pong)
        case Connect(target) => OnConnect(s1, c, target, reg, uuid)
        case Frame(sid, payload) => OnFrame(s1, c, sid, payload)
        case Close(sid) => if Peer(s1, sid, c).Some? then EndSession(s1, sid, "closed") else s1
  }

  function OnAuth(s: Server, c: Conn, token: Token, now: int, reg: Registry): Server
    requires c in s.socks
  {
    if s.socks[c].caller.Some? || token in reg.refused then Hangup(s, c)
    else if token !in reg.holders || reg.holders[token].device.None? then Hangup(s, c)
    else
      var d := reg.holders[token].device.value;
      if d !in reg.devices || !reg.devices[d].approved then Hangup(s, c)
      else
        var k := s.socks[c].(caller := Some(Caller(d, reg.holders[token].account)));
        Reply(Add(s.(socks := s.socks[c := k]), c, now), c, Ready(d))
  }

  /** Why an introduction is refused, or None when it goes ahead. */
  function Refusal(s: Server, c: Conn, target: Device, reg: Registry): Option<string>
    requires c in s.socks && s.socks[c].caller.Some?
  {
    var me := s.socks[c].caller.value;
    if target !in reg.devices || reg.devices[target].account != me.account then Some("not-found")
    else if target == me.device then Some("same-device")
    else if target !in s.online || target in reg.blocked then Some("offline")
    else if |SessionsOf(s, c)| >= MAX_SESSIONS_PER_DEVICE
         || |SessionsOf(s, s.online[target])| >= MAX_SESSIONS_PER_DEVICE then Some("busy")
    else None
  }

  function OnConnect(s: Server, c: Conn, target: Device, reg: Registry, uuid: Sid): Server
    requires c in s.socks && s.socks[c].caller.Some?
  {
    var me := s.socks[c].caller.value;
    if me.device in reg.blocked then Hangup(s, c)
    else match Refusal(s, c, target, reg)
      case Some(reason) => Reply(s, c, ConnectFailed(target, reason))
      case None =>
        var s1 := OpenSession(s, uuid, c, s.online[target]);
        var s2 := Reply(s1, s.online[target], SessionOpened(uuid, Host, me.device));
        Reply(s2, c, SessionOpened(uuid, Viewer, target))
  }

  function OnFrame(s: Server, c: Conn, sid: Sid, payload: Payload): Server {
    match Peer(s, sid, c)
    case None => Reply(s, c, SessionEnded(sid, "unknown-session"))
    case Some(p) => Reply(s, p, Relayed(sid, payload))
  }

  /** The 'close' event of a WebSocket. */
  function OnClose(s: Server, c: Conn, order: seq<Sid>, now: int): Server
    requires c in s.socks
  {
    var s1 := s.(socks := s.socks[c := s.socks[c].(ws := Closed)]);
    if s1.socks[c].caller.Some? then Remove(s1, c, order, now) else s1
  }

  predicate Struck(s: Server, reg: Registry, c: Conn) {
    && c in s.online.Values && c in s.socks && s.socks[c].caller.Some?
    && s.socks[c].caller.value.device in reg.blocked
  }

  /** The sweep: every online device that has been blocked since it connected is hung up on. */
  function DropBlocked(s: Server, reg: Registry): Server {
    s.(socks := map c | c in s.socks ::
         if Struck(s, reg, c) then CloseOn(s.socks, c)[c] else s.socks[c])
  }

  lemma StruckOfUntouched(s: Server, reg: Registry)
    ensures DropBlocked(s, reg).online == s.online && DropBlocked(s, reg).sessions == s.sessions
  {
  }

  /** The sweep as far as it has come. */
  ghost function StruckOf(s: Server, reg: Registry, done: set<Conn>): Server {
    s.(socks := map c | c in s.socks ::
         if Struck(s, reg, c) && c in done then CloseOn(s.socks, c)[c] else s.socks[c])
  }

  lemma StruckOfMore(s: Server, reg: Registry, done: set<Conn>, c: Conn)
    requires c in s.online.Values && c !in done
    ensures StruckOf(s, reg, done + {c}).socks ==
            if Struck(s, reg, c) then CloseOn(StruckOf(s, reg, done).socks, c) else StruckOf(s, reg, done).socks
    ensures c in StruckOf(s, reg, done).socks <==> c in s.socks
    ensures c in s.socks ==> StruckOf(s, reg, done).socks[c] == s.socks[c]
  {
  }

  lemma StruckOfEnds(s: Server, reg: Registry)
    ensures StruckOf(s, reg, {}) == s && StruckOf(s, reg, s.online.Values) == DropBlocked(s, reg)
  {
    assert StruckOf(s, reg, {}).socks == s.socks;
    assert StruckOf(s, reg, s.online.Values).socks == DropBlocked(s, reg).socks;
  }

  // ---- the class -------------------------------------------------------------------

  class SignalingServer {
    const net: Network
    const presence: Presence

    ghost function View(): Server
      reads net, presence, presence.net
    {
      Server(net.socks, presence.online, presence.sessions)
    }

    ghost predicate Valid()
      reads presence
    {
      presence.net == net
    }

    constructor ()
      ensures Valid() && fresh(net) && fresh(presence)
      ensures View() == Server(map[], map[], map[])
    {
      var sockets := new Network();
      net := sockets;
      presence := new Presence(sockets);
    }

    method AcceptSocket(c: Conn, now: int)
      requires Valid()
      modifies net
      ensures View() == Accept(old(View()), c, now)
    {
      net.socks := net.socks[c := Socket(Open, None, 0, now, now, [])];
    }

    method Message(c: Conn, m: ClientMsg, now: int, reg: Registry, uuid: Sid)
      requires Valid() && c in net.socks
      modifies net, presence
      ensures View() == OnMessage(old(View()), c, m, now, reg, uuid)
    {
      var k := net.socks[c].(lastSeen := now);
      if m.Binary? {
        net.socks := net.socks[c := k];
        net.Close(c);
        return;
      }
      if now - k.windowStart > 1000 {
        k := k.(windowStart := now, frames := 0);
      }
      k := k.(frames := k.frames + 1);
      net.socks := net.socks[c := k];
      if k.frames > MAX_FRAMES_PER_SECOND {
        net.Close(c);
        return;
      }
      if Unreadable(m) {
        net.Send(c, Error);
        net.Close(c);
        return;
      }
      if m.Auth? {
        Authenticate(c, m.token, now, reg);
        return;
      }
      if k.caller.None? {
        net.Close(c);
        return;
      }
      match m
      case Ping =>
        net.Send(c, Pong);
      case Connect(target) =>
        Introduce(c, target, reg, uuid);
      case Frame(sid, payload) =>
        if sid in presence.sessions && presence.sessions[sid].Joins(c) {
          net.Send(presence.sessions[sid].Other(c), Relayed(sid, payload));
        } else {
          net.Send(c, SessionEnded(sid, "unknown-session"));
        }
      case Close(sid) =>
        if sid in presence.sessions && presence.sessions[sid].Joins(c) {
          presence.EndOne(sid, "closed");
        }
    }

    method Authenticate(c: Conn, token: Token, now: int, reg: Registry)
      requires Valid() && c in net.socks
      modifies net, presence
      ensures View() == OnAuth(old(View()), c, token, now, reg)
    {
      if net.socks[c].caller.Some? || token in reg.refused {
        net.Close(c);
        return;
      }
      if token !in reg.holders || reg.holders[token].device.None? {
        net.Close(c);
        return;
      }
      var d := reg.holders[token].device.value;
      if d !in reg.devices || !reg.devices[d].approved {
        net.Close(c);
        return;
      }
      net.socks := net.socks[c := net.socks[c].(caller := Some(Caller(d, reg.holders[token].account)))];
      presence.AddConnection(c, now);
      net.Send(c, Ready(d));
    }

    method Introduce(c: Conn, target: Device, reg: Registry, uuid: Sid)
      requires Valid() && c in net.socks && net.socks[c].caller.Some?
      modifies net, presence
      ensures View() == OnConnect(old(View()), c, target, reg, uuid)
    {
      var me := net.socks[c].caller.value;
      if me.device in reg.blocked {
        net.Close(c);
        return;
      }
      if target !in reg.devices || reg.devices[target].account != me.account {
        net.Send(c, ConnectFailed(target, "not-found"));
        return;
      }
      if target == me.device {
        net.Send(c, ConnectFailed(target, "same-device"));
        return;
      }
      if target !in presence.online || target in reg.blocked {
        net.Send(c, ConnectFailed(target, "offline"));
        return;
      }
      var peer := presence.online[target];
      var mine := presence.CountSessions(c);
      var theirs := presence.CountSessions(peer);
      if mine >= MAX_SESSIONS_PER_DEVICE || theirs >= MAX_SESSIONS_PER_DEVICE {
        net.Send(c, ConnectFailed(target, "busy"));
        return;
      }
      presence.sessions := presence.sessions[uuid := Session(c, peer)];
      net.Send(peer, SessionOpened(uuid, Host, me.device));
      net.Send(c, SessionOpened(uuid, Viewer, target));
    }

    method SocketClosed(c: Conn, now: int) returns (ghost order: seq<Sid>)
      requires Valid() && c in net.socks
      modifies net, presence
      ensures old(net.socks[c].caller.Some?) ==> Lists(order, SessionsOf(old(View()), c))
      ensures View() == OnClose(old(View()), c, order, now)
    {
      net.socks := net.socks[c := net.socks[c].(ws := Closed)];
      order := [];
      if net.socks[c].caller.Some? {
        assert SessionsOf(View(), c) == SessionsOf(old(View()), c);
        order := presence.RemoveConnection(c, now);
      }
    }

    method Sweep(reg: Registry)
      requires Valid()
      modifies net
      ensures View() == DropBlocked(old(View()), reg)
    {
      ghost var s0 := View();
      var todo := presence.online.Values;
      StruckOfEnds(s0, reg);
      hide StruckOf, DropBlocked;
      assert presence.online.Values - todo == {};
      while todo != {}
        invariant todo <= presence.online.Values
        invariant net.socks == StruckOf(s0, reg, presence.online.Values - todo).socks
        decreases |todo|
      {
        var c :| c in todo;
        StruckOfMore(s0, reg, presence.online.Values - todo, c);
        if c in net.socks && net.socks[c].caller.Some? && net.socks[c].caller.value.device in reg.blocked {
          net.Close(c);
        }
        assert presence.online.Values - (todo - {c}) == (presence.online.Values - todo) + {c};
        todo := todo - {c};
      }
      assert presence.online.Values - todo == presence.online.Values;
      StruckOfUntouched(s0, reg);
    }
  }
}
