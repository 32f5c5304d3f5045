/** Which devices are connected right now, and the sessions relayed between them. */
module Rendezvous {
  import opened Wrappers

  type Device = nat
  type Account = nat
  type Conn = nat      // one server-side connection, that is, one WebSocket
  type Sid = nat

  /** What a frame carries; `fits` says whether the schema of a relayed frame accepts it. */
  datatype Payload = Payload(content: string, fits: bool)

  datatype Role = Host | Viewer

  datatype ServerMsg =
    | Ready(device: Device)
    | Pong
    | Error
    | SessionOpened(sid: Sid, role: Role, peer: Device)
    | ConnectFailed(target: Device, reason: string)
    | Relayed(sid: Sid, payload: Payload)
    | SessionEnded(sid: Sid, reason: string)
    | Announced(device: Device, isOnline: bool, lastSeen: int)

  datatype WsState = Open | Closing | Closed

  datatype Caller = Caller(device: Device, account: Account)

  /** A WebSocket as the server sees it. `sent` is everything it ever put on the wire;
      `caller` is `connection` of the accept handler, null until authenticated. */
  datatype Socket = Socket(
    ws: WsState, caller: Option<Caller>, frames: nat, windowStart: int, lastSeen: int, sent: seq<ServerMsg>)

  type Sockets = map<Conn, Socket>

  datatype Session = Session(a: Conn, b: Conn)
  {
    predicate Joins(c: Conn) { c == a || c == b }
    function Other(c: Conn): Conn { if c == a then b else a }
  }

  datatype Server = Server(socks: Sockets, online: map<Device, Conn>, sessions: map<Sid, Session>)

  // ---- sockets -----------------------------------------------------------------

  /** `send` does nothing unless the socket is open. */
  function SendOn(socks: Sockets, c: Conn, m: ServerMsg): Sockets {
    if c in socks && socks[c].ws == Open then socks[c := socks[c].(sent := socks[c].sent + [m])] else socks
  }

  /** `ws.close()`: the socket stops sending, but goes on reading until it is closed. */
  function CloseOn(socks: Sockets, c: Conn): Sockets {
    if c in socks && socks[c].ws == Open then socks[c := socks[c].(ws := Closing)] else socks
  }

  // ---- specification of the registry ----------------------------------------------

  predicate Hears(s: Server, c: Conn, speaker: Conn) {
    && c in s.socks && speaker in s.socks && c != speaker
    && s.socks[c].caller.Some? && s.socks[speaker].caller.Some?
    && s.socks[c].caller.value.account == s.socks[speaker].caller.value.account
  }

  /** The announcement goes to every online connection of the same account but the speaker. */
  function Announce(s: Server, c: Conn, isOnline: bool, now: int): Server
    requires c in s.socks && s.socks[c].caller.Some?
  {
    var m := Announced(s.socks[c].caller.value.device, isOnline, now);
    s.(socks := map x | x in s.socks ::
         if x in s.online.Values && Hears(s, x, c) then SendOn(s.socks, x, m)[x] else s.socks[x])
  }

  function Add(s: Server, c: Conn, now: int): Server
    requires c in s.socks && s.socks[c].caller.Some?
  {
    var d := s.socks[c].caller.value.device;
    var s1 := if d in s.online && s.online[d] != c then s.(socks := CloseOn(s.socks, s.online[d])) else s;
    var s2 := s1.(online := s1.online[d := c]);
    if d in s.online then s2 else Announce(s2, c, true, now)
  }

  function SessionsOf(s: Server, c: Conn): set<Sid> {
    set sid | sid in s.sessions && s.sessions[sid].Joins(c)
  }

  function Peer(s: Server, sid: Sid, c: Conn): Option<Conn> {
    if sid in s.sessions && s.sessions[sid].Joins(c) then Some(s.sessions[sid].Other(c)) else None
  }

  function OpenSession(s: Server, sid: Sid, a: Conn, b: Conn): Server {
    s.(sessions := s.sessions[sid := Session(a, b)])
  }

  function EndSession(s: Server, sid: Sid, reason: string): Server {
    if sid !in s.sessions then s
    else
      var e := s.sessions[sid];
      var m := SessionEnded(sid, reason);
      s.(sessions := s.sessions - {sid}, socks := SendOn(SendOn(s.socks, e.a, m), e.b, m))
  }

  /** Ends the listed sessions, first to last. */
  function EndAll(s: Server, order: seq<Sid>, reason: string): Server {
    if order == [] then s
    else EndSession(EndAll(s, order[..|order| - 1], reason), order[|order| - 1], reason)
  }

  ghost predicate Lists(order: seq<Sid>, sids: set<Sid>) {
    forall sid :: sid in order <==> sid in sids
  }

  /** The close of one connection; `order` is the order in which its sessions are met. */
  function Remove(s: Server, c: Conn, order: seq<Sid>, now: int): Server
    requires c in s.socks && s.socks[c].caller.Some?
  {
    var d := s.socks[c].caller.value.device;
    var wasHere := d in s.online && s.online[d] == c;
    var s1 := if wasHere then s.(online := s.online - {d}) else s;
    EndAllKeepsSockets(s1, order, "peer-disconnected");
    var s2 := EndAll(s1, order, "peer-disconnected");
    if wasHere then Announce(s2, c, false, now) else s2
  }

  lemma {:induction false} EndAllKeepsSockets(s: Server, order: seq<Sid>, reason: string)
    ensures EndAll(s, order, reason).socks.Keys == s.socks.Keys
    ensures EndAll(s, order, reason).online == s.online
    ensures forall c :: c in s.socks ==> EndAll(s, order, reason).socks[c].caller == s.socks[c].caller
    ensures forall c :: c in s.socks ==> EndAll(s, order, reason).socks[c].ws == s.socks[c].ws
    ensures EndAll(s, order, reason).sessions.Keys == s.sessions.Keys - (set sid | sid in order)
    ensures forall sid :: sid in EndAll(s, order, reason).sessions ==>
              EndAll(s, order, reason).sessions[sid] == s.sessions[sid]
  {
    if order != [] {
      EndAllKeepsSockets(s, order[..|order| - 1], reason);
      assert order == order[..|order| - 1] + [order[|order| - 1]];
    }
  }

  // ---- the class -------------------------------------------------------------------

  /** The sockets behind the connections. */
  class Network {
    var socks: Sockets

    constructor ()
      ensures socks == map[]
    {
      socks := map[];
    }

    method Send(c: Conn, m: ServerMsg)
      modifies this
      ensures socks == SendOn(old(socks), c, m)
    {
      if c in socks && socks[c].ws == Open {
        socks := socks[c := socks[c].(sent := socks[c].sent + [m])];
      }
    }

    method Close(c: Conn)
      modifies this
      ensures socks == CloseOn(old(socks), c)
    {
      if c in socks && socks[c].ws == Open {
        socks := socks[c := socks[c].(ws := Closing)];
      }
    }
  }

  class Presence {
    const net: Network
    var online: map<Device, Conn>
    var sessions: map<Sid, Session>

    ghost function View(): Server
      reads this, net
    {
      Server(net.socks, online, sessions)
    }

    constructor (net: Network)
      ensures this.net == net && online == map[] && sessions == map[]
    {
      this.net := net;
      online, sessions := map[], map[];
    }

    method AddConnection(c: Conn, now: int)
      requires c in net.socks && net.socks[c].caller.Some?
      modifies this, net
      ensures View() == Add(old(View()), c, now)
    {
      var d := net.socks[c].caller.value.device;
      var existing := d in online;
      if existing && online[d] != c {
        net.Close(online[d]);
      }
      online := online[d := c];
      if !existing {
        AnnounceConnection(c, true, now);
      }
    }

    method RemoveConnection(c: Conn, now: int) returns (ghost order: seq<Sid>)
      requires c in net.socks && net.socks[c].caller.Some?
      modifies this, net
      ensures Lists(order, SessionsOf(old(View()), c))
      ensures View() == Remove(old(View()), c, order, now)
    {
      hide EndSession, Announce;
      var d := net.socks[c].caller.value.device;
      var wasHere := d in online && online[d] == c;
      if wasHere {
        online := online - {d};
      }
      ghost var s1 := View();
      var todo := sessions.Keys;
      order := [];
      while todo != {}
        invariant todo <= s1.sessions.Keys
        invariant View() == EndAll(s1, order, "peer-disconnected")
        invariant forall sid :: sid in order <==> sid in s1.sessions && sid !in todo && s1.sessions[sid].Joins(c)
        decreases |todo|
      {
        var sid :| sid in todo;
        EndAllKeepsSockets(s1, order, "peer-disconnected");
        assert sid in sessions && sessions[sid] == s1.sessions[sid];
        if sessions[sid].Joins(c) {
          EndOne(sid, "peer-disconnected");
          assert (order + [sid])[..|order|] == order;
          order := order + [sid];
        }
        todo := todo - {sid};
      }
      EndAllKeepsSockets(s1, order, "peer-disconnected");
      if wasHere && d !in online {
        AnnounceConnection(c, false, now);
      }
    }

    method AnnounceConnection(c: Conn, isOnline: bool, now: int)
      requires c in net.socks && net.socks[c].caller.Some?
      modifies net
      ensures View() == Announce(old(View()), c, isOnline, now)
    {
      var me := net.socks[c].caller.value;
      var m := Announced(me.device, isOnline, now);
      ghost var s0 := View();
      var todo := online.Values;
      while todo != {}
        invariant todo <= online.Values
        invariant net.socks.Keys == s0.socks.Keys
        invariant forall x | x in s0.socks ::
                    net.socks[x] == if x in s0.online.Values && x !in todo && Hears(s0, x, c)
                                    then SendOn(s0.socks, x, m)[x] else s0.socks[x]
        decreases |todo|
      {
        var x :| x in todo;
        if x != c && x in net.socks && net.socks[x].caller.Some? && net.socks[x].caller.value.account == me.account {
          net.Send(x, m);
        }
        todo := todo - {x};
      }
      assert net.socks == Announce(s0, c, isOnline, now).socks;
    }

    method EndOne(sid: Sid, reason: string)
      modifies this, net
      ensures View() == EndSession(old(View()), sid, reason)
    {
      if sid in sessions {
        var e := sessions[sid];
        sessions := sessions - {sid};
        net.Send(e.a, SessionEnded(sid, reason));
        net.Send(e.b, SessionEnded(sid, reason));
      }
    }

    method CountSessions(c: Conn) returns (n: nat)
      ensures n == |SessionsOf(View(), c)|
    {
      var todo := sessions.Keys;
      ghost var seen: set<Sid> := {};
      n := 0;
      while todo != {}
        invariant todo <= sessions.Keys
        invariant seen == set sid | sid in sessions && sid !in todo && sessions[sid].Joins(c)
        invariant n == |seen|
        decreases |todo|
      {
        var sid :| sid in todo;
        if sessions[sid].Joins(c) {
          n := n + 1;
          seen := seen + {sid};
        }
        todo := todo - {sid};
      }
      assert seen == SessionsOf(View(), c);
    }
  }
}
