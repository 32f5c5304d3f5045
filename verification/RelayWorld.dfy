/** Many relay clients, one server, and the sockets between them: what a session's link delivers. */
module RelayWorld {
  import opened Wrappers
  import opened Rendezvous
  import opened Signaling
  import opened ServerInvariants
  import opened ServerRouting
  import opened RateLimit
  import Relay

  /** The client's end of a WebSocket. */
  datatype Ready = Dialing | Up | Down | Gone

  /** A WebSocket, accepted at `since`: `up` is everything the client put on it, of which the server
      has read as many messages as there are `times`, each at its time; what the server put on it is
      `sent` of its socket, of which the client has read `downRead`. */
  datatype Wire = Wire(
    owner: Device, ready: Ready, up: seq<ClientMsg>, since: int, times: seq<int>, downRead: nat)

  /** Devices in `clients` run the relay client; all others may send anything. `known` are all
      sessions there ever were. */
  datatype World = World(
    server: Server, clients: map<Device, Relay.Client>, wires: map<Conn, Wire>,
    known: map<Sid, Session>)

  datatype Happening =
    | Dialled(d: Device, c: Conn, now: int)
    | Established(c: Conn, serial: nat)
    | Fades(c: Conn)
    | Lapses(c: Conn)
    | Sends(d: Device, sid: Sid, payload: Payload)
    | Listens(d: Device, sid: Sid)
    | Closes(d: Device, sid: Sid)
    | Requests(d: Device, target: Device)
    | Pings(d: Device)
    | Shuts(d: Device)
    | Reads(c: Conn)
    | StrangerSends(c: Conn, m: ClientMsg)
    | Serves(c: Conn, now: int, reg: Registry, uuid: Sid)
    | Drops(c: Conn, order: seq<Sid>, now: int)
    | HangsUp(c: Conn)
    | Sweeps(reg: Registry)

  // ---- steps -----------------------------------------------------------------------------

  predicate Honest(w: World, c: Conn) { c in w.wires && w.wires[c].owner in w.clients }

  predicate CanSend(w: World, d: Device)
    requires d in w.clients
  {
    w.clients[d].socket.Some? && w.clients[d].socket.value in w.wires
    && w.wires[w.clients[d].socket.value].ready == Up
  }

  ghost predicate Can(w: World, e: Happening) {
    match e
    case Dialled(d, c, _) =>
      c !in w.wires && c !in w.server.socks
      && (d in w.clients ==> w.clients[d].socket.None? && !w.clients[d].closing)
    case Established(c, _) => c in w.wires && w.wires[c].ready == Dialing
    case Fades(c) => c in w.wires && (w.wires[c].ready == Up || w.wires[c].ready == Dialing)
    case Lapses(c) => c in w.wires && w.wires[c].ready != Gone
    case Sends(d, _, _) => d in w.clients
    case Listens(d, _) => d in w.clients
    case Closes(d, _) => d in w.clients
    case Requests(d, _) => d in w.clients
    case Pings(d) => d in w.clients
    case Shuts(d) => d in w.clients
    case Reads(c) =>
      c in w.wires && c in w.server.socks && w.wires[c].ready == Up && w.wires[c].downRead < |w.server.socks[c].sent|
    case StrangerSends(c, _) => c in w.wires && !Honest(w, c)
    case Serves(c, _, reg, uuid) =>
      && c in w.wires && c in w.server.socks && w.server.socks[c].ws != Closed
      && |w.wires[c].times| < |w.wires[c].up| && Sound(reg, w.server)
      && uuid !in w.known && uuid !in w.server.sessions
    case Drops(c, order, _) =>
      c in w.server.socks && w.server.socks[c].ws != Closed && Lists(order, SessionsOf(w.server, c))
    case HangsUp(c) => c in w.server.socks
    case Sweeps(_) => true
  }

  /** The client of `d` becomes `cl` and puts `out` on its socket. */
  function Acts(w: World, d: Device, cl: Relay.Client, out: seq<ClientMsg>): World
    requires d in w.clients
  {
    var c := w.clients[d].socket;
    var wires := if c.Some? && c.value in w.wires
                 then w.wires[c.value := w.wires[c.value].(up := w.wires[c.value].up + out)] else w.wires;
    w.(clients := w.clients[d := cl], wires := wires)
  }

  function DialStep(w: World, d: Device, c: Conn, now: int): World {
    var w1 := w.(server := Accept(w.server, c, now), wires := w.wires[c := Wire(d, Dialing, [], now, [], 0)]);
    if d in w.clients then w1.(clients := w.clients[d := Relay.Dial(w.clients[d], c)]) else w1
  }

  function EstablishStep(w: World, c: Conn, serial: nat): World
    requires c in w.wires
  {
    w.(wires := w.wires[c := w.wires[c].(ready := Up, up := w.wires[c].up + [Auth(Token(w.wires[c].owner, serial))])])
  }

  function StrangerStep(w: World, c: Conn, m: ClientMsg): World
    requires c in w.wires
  {
    w.(wires := w.wires[c := w.wires[c].(up := w.wires[c].up + [m])])
  }

  function FadeStep(w: World, c: Conn): World
    requires c in w.wires
  {
    w.(wires := w.wires[c := w.wires[c].(ready := Down)])
  }

  function LapseStep(w: World, c: Conn): World
    requires c in w.wires
  {
    var d := w.wires[c].owner;
    var w1 := w.(wires := w.wires[c := w.wires[c].(ready := Gone)]);
    if d in w.clients then w1.(clients := w.clients[d := Relay.SocketLost(w.clients[d])]) else w1
  }

  function ShutStep(w: World, d: Device): World
    requires d in w.clients
  {
    var c := w.clients[d].socket;
    var wires := if c.Some? && c.value in w.wires && w.wires[c.value].ready != Gone
                 then w.wires[c.value := w.wires[c.value].(ready := Down)] else w.wires;
    w.(clients := w.clients[d := Relay.Shut(w.clients[d])], wires := wires)
  }

  function ReadStep(w: World, c: Conn): World
    requires c in w.wires && c in w.server.socks && w.wires[c].downRead < |w.server.socks[c].sent|
  {
    var d := w.wires[c].owner;
    var m := w.server.socks[c].sent[w.wires[c].downRead];
    var w1 := w.(wires := w.wires[c := w.wires[c].(downRead := w.wires[c].downRead + 1)]);
    if d in w.clients then w1.(clients := w.clients[d := Relay.Receive(w.clients[d], c, m)]) else w1
  }

  function ServeStep(w: World, c: Conn, now: int, reg: Registry, uuid: Sid): World
    requires c in w.wires && c in w.server.socks && |w.wires[c].times| < |w.wires[c].up|
  {
    var m := w.wires[c].up[|w.wires[c].times|];
    var t := OnMessage(w.server, c, m, now, reg, uuid);
    w.(server := t,
       wires := w.wires[c := w.wires[c].(times := w.wires[c].times + [now])],
       known := if uuid in t.sessions then w.known[uuid := t.sessions[uuid]] else w.known)
  }

  ghost function Next(w: World, e: Happening): World
    requires Can(w, e)
  {
    match e
    case Dialled(d, c, now) => DialStep(w, d, c, now)
    case Established(c, serial) => EstablishStep(w, c, serial)
    case Fades(c) => FadeStep(w, c)
    case Lapses(c) => LapseStep(w, c)
    case Sends(d, sid, payload) =>
      var r := Relay.LinkSend(w.clients[d], sid, payload, CanSend(w, d)); Acts(w, d, r.0, r.1)
    case Listens(d, sid) => Acts(w, d, Relay.LinkListen(w.clients[d], sid), [])
    case Closes(d, sid) =>
      var r := Relay.LinkClose(w.clients[d], sid, CanSend(w, d)); Acts(w, d, r.0, r.1)
    case Requests(d, target) =>
      var r := Relay.RequestSession(w.clients[d], target, CanSend(w, d)); Acts(w, d, r.0, r.1)
    case Pings(d) => Acts(w, d, w.clients[d], if CanSend(w, d) then [Ping] else [])
    case Shuts(d) => ShutStep(w, d)
    case Reads(c) => ReadStep(w, c)
    case StrangerSends(c, m) => StrangerStep(w, c, m)
    case Serves(c, now, reg, uuid) => ServeStep(w, c, now, reg, uuid)
    case Drops(c, order, now) => w.(server := OnClose(w.server, c, order, now))
    case HangsUp(c) => w.(server := Hangup(w.server, c))
    case Sweeps(reg) => w.(server := DropBlocked(w.server, reg))
  }

  // ---- what travels ------------------------------------------------------------------------

  function LinkAt(w: World, c: Conn, sid: Sid): Option<Relay.Link> {
    if Honest(w, c) && sid in w.clients[w.wires[c].owner].links && w.clients[w.wires[c].owner].links[sid].conn == c
    then Some(w.clients[w.wires[c].owner].links[sid]) else None
  }

  /** The payloads a session's link has taken at one end. */
  function TakenAt(w: World, c: Conn, sid: Sid): seq<Payload> {
    if LinkAt(w, c, sid).Some? then LinkAt(w, c, sid).value.Taken() else []
  }

  /** The payloads a session's link was given to send at one end. */
  function SentAt(w: World, c: Conn, sid: Sid): seq<Payload> {
    if LinkAt(w, c, sid).Some? then LinkAt(w, c, sid).value.sent else []
  }

  // ---- the invariant -------------------------------------------------------------------------

  predicate SessionLive(s: Server, sid: Sid, c: Conn) {
    sid in s.sessions && s.sessions[sid].Joins(c) && c in s.socks && s.socks[c].ws == Open
  }

  /** No introduction to the session repeats an earlier one. */
  ghost predicate OpensOnce(h: seq<ServerMsg>, sid: Sid) {
    forall i :: 0 <= i < |h| && h[i].SessionOpened? && h[i].sid == sid ==> Accepts(h[..i], sid).None?
  }

  /** Only the ends of a session are told of it, once, and an open end of a live one has been. */
  ghost predicate Told(s: Server, known: map<Sid, Session>, sid: Sid, c: Conn)
    requires c in s.socks
  {
    var h := s.socks[c].sent;
    && (Accepts(h, sid).Some? ==> sid in known && known[sid].Joins(c))
    && OpensOnce(h, sid)
    && (SessionLive(s, sid, c) ==> Accepts(h, sid).Some?)
  }

  /** What passed of a session's frames that the server has read on a connection. */
  function HeardFrom(w: World, from: Conn, sid: Sid): seq<Payload>
    requires WiresInv(w) && from in w.wires
  {
    Heard(w.wires[from].since, w.wires[from].up, w.wires[from].times, sid)
  }

  /** The server has relayed to the other end what passed of what it has read from this one. */
  predicate Routed(w: World, sid: Sid, from: Conn)
    requires WiresInv(w) && from in w.wires && sid in w.known
  {
    var to := w.known[sid].Other(from);
    to in w.server.socks && Accepts(w.server.socks[to].sent, sid).Some? ==>
      var relayed := Accepts(w.server.socks[to].sent, sid).value;
      && relayed <= HeardFrom(w, from, sid)
      && (SessionLive(w.server, sid, to) ==> relayed == HeardFrom(w, from, sid))
  }

  /** Whoever sends: what was relayed to the other end is, in order, some of what was read here. */
  ghost predicate Drawn(w: World, sid: Sid, from: Conn)
    requires WiresInv(w) && from in w.wires && sid in w.known
  {
    var to := w.known[sid].Other(from);
    to in w.server.socks && Accepts(w.server.socks[to].sent, sid).Some? ==>
      Subseq(Accepts(w.server.socks[to].sent, sid).value, Offered(w.wires[from].up[..|w.wires[from].times|], sid))
  }

  /** The link has taken what its client has read for it. */
  predicate LinkTakes(w: World, sid: Sid, c: Conn)
    requires c in w.wires && c in w.server.socks && w.wires[c].downRead <= |w.server.socks[c].sent|
  {
    match Accepts(w.server.socks[c].sent[..w.wires[c].downRead], sid)
    case None => LinkAt(w, c, sid).None?
    case Some(read) =>
      && LinkAt(w, c, sid).Some? && TakenAt(w, c, sid) <= read
      && (!LinkAt(w, c, sid).value.closed ==> TakenAt(w, c, sid) == read)
  }

  /** What the link sent is on the wire. */
  predicate LinkQueues(w: World, sid: Sid, c: Conn)
    requires c in w.wires
  {
    Offered(w.wires[c].up, sid) <= SentAt(w, c, sid)
    && (w.wires[c].ready == Up ==> Offered(w.wires[c].up, sid) == SentAt(w, c, sid))
  }

  ghost predicate EndInv(w: World, sid: Sid, c: Conn)
    requires WiresInv(w) && c in w.wires
  {
    && Told(w.server, w.known, sid, c)
    && (Honest(w, c) ==> LinkTakes(w, sid, c) && LinkQueues(w, sid, c))
    && (sid in w.known && w.known[sid].Joins(c) ==> Drawn(w, sid, c) && (Honest(w, c) ==> Routed(w, sid, c)))
  }

  ghost predicate SidInv(w: World, sid: Sid)
    requires WiresInv(w)
  {
    forall c :: c in w.wires ==> EndInv(w, sid, c)
  }

  predicate WiresInv(w: World) {
    && w.wires.Keys == w.server.socks.Keys
    && forall c :: c in w.wires ==>
         |w.wires[c].times| <= |w.wires[c].up| && w.wires[c].downRead <= |w.server.socks[c].sent|
  }

  /** An honest connection authenticates as its own device. */
  predicate NamesInv(w: World) {
    forall c :: c in w.wires && c in w.server.socks && Honest(w, c) ==>
      && (w.server.socks[c].caller.Some? ==> w.server.socks[c].caller.value.device == w.wires[c].owner)
      && (forall i :: 0 <= i < |w.wires[c].up| && w.wires[c].up[i].Auth? ==>
            w.wires[c].up[i].token.device == w.wires[c].owner)
  }

  /** A relay client has one socket, and its open links are on it. */
  predicate ClientInv(w: World, d: Device)
    requires d in w.clients
  {
    var cl := w.clients[d];
    && (cl.socket.Some? ==> cl.socket.value in w.wires && w.wires[cl.socket.value].owner == d)
    && (forall c :: c in w.wires && w.wires[c].owner == d && w.wires[c].ready != Gone ==>
          cl.socket == Some(c) || (cl.socket.None? && cl.closing && w.wires[c].ready == Down))
    && (cl.socket.None? ==> cl.sessions == {})
    && cl.sessions <= cl.links.Keys
    && (forall sid :: sid in cl.links ==> LinkInv(w, d, sid))
  }

  predicate LinkInv(w: World, d: Device, sid: Sid)
    requires d in w.clients && sid in w.clients[d].links
  {
    var cl := w.clients[d];
    var k := cl.links[sid];
    && k.conn in w.wires && w.wires[k.conn].owner == d && w.wires[k.conn].ready != Dialing
    && (k.closed <==> sid !in cl.sessions) && (k.hasHandler ==> k.backlog == [])
    && (!k.closed ==> cl.socket == Some(k.conn))
  }

  /** Every session ever opened joins two known connections of different devices. */
  predicate OpenedInv(w: World) {
    && (forall sid :: sid in w.server.sessions ==> sid in w.known && w.known[sid] == w.server.sessions[sid])
    && (forall sid :: sid in w.known ==> Apart(w.server, w.known[sid]))
  }

  predicate Apart(s: Server, e: Session) {
    && e.a != e.b && e.a in s.socks && e.b in s.socks
    && s.socks[e.a].caller.Some? && s.socks[e.b].caller.Some?
    && s.socks[e.a].caller.value.device != s.socks[e.b].caller.value.device
  }

  /** The server's counter of each connection follows from what was read on it and when; and nothing
      of what was read on an open one was refused. */
  predicate MetersInv(w: World)
    requires WiresInv(w)
  {
    forall c :: c in w.wires ==> Metered(w.wires[c], w.server.socks[c])
  }

  predicate Metered(x: Wire, k: Socket)
    requires |x.times| <= |x.up|
  {
    && MeterOf(k) == MeterAfter(x.since, x.up, x.times)
    && (k.ws == Open ==> Clean(x.since, x.up, x.times))
  }

  ghost predicate WorldInv(w: World) {
    && WiresInv(w) && Inv(w.server) && NamesInv(w) && OpenedInv(w) && MetersInv(w)
    && (forall d :: d in w.clients ==> ClientInv(w, d))
    && (forall sid :: SidInv(w, sid))
  }

  // ---- the theorems about one state ------------------------------------------------------------

  /** Delivered payloads are, in order, the first of those sent on the other end's link that passed. */
  lemma DeliveredInOrder(w: World, sid: Sid, from: Conn, to: Conn)
    requires WorldInv(w) && from in w.wires && Honest(w, to)
    requires sid in w.known && w.known[sid].Joins(from) && to == w.known[sid].Other(from)
    ensures Subseq(TakenAt(w, to, sid), Offered(w.wires[from].up, sid))
    ensures Honest(w, from) ==> TakenAt(w, to, sid) <= HeardFrom(w, from, sid)
    ensures Honest(w, from) ==> Offered(w.wires[from].up, sid) <= SentAt(w, from, sid)
  {
    assert SidInv(w, sid) && EndInv(w, sid, from) && EndInv(w, sid, to);
    hide SidInv, MetersInv, Inv, NamesInv, OpenedInv, ClientInv, Told, WorldInv, Heard, HeardFrom, Subseq;
    AcceptsGrows(w.server.socks[to].sent, w.wires[to].downRead, sid);
    var relayed := Accepts(w.server.socks[to].sent, sid);
    var offered := Offered(w.wires[from].up[..|w.wires[from].times|], sid);
    OfferedGrows(w.wires[from].up, |w.wires[from].times|, sid);
    hide Accepts, Offered;
    assert relayed.None? ==> TakenAt(w, to, sid) == [];
    hide LinkQueues;
    if relayed.None? {
      SubseqNone(Offered(w.wires[from].up, sid));
    } else {
      assert TakenAt(w, to, sid) <= relayed.value;
      SubseqPrefix(relayed.value, offered, TakenAt(w, to, sid));
      SubseqOfPrefix(TakenAt(w, to, sid), offered, Offered(w.wires[from].up, sid));
    }
  }

  /** What is relayed of an open session is what was read of it and passed. */
  lemma RelayedIsHeard(w: World, sid: Sid, from: Conn, to: Conn)
    requires WorldInv(w) && Honest(w, from)
    requires sid in w.server.sessions && w.server.sessions[sid].Joins(from) && to == w.server.sessions[sid].Other(from)
    requires to in w.server.socks && w.server.socks[to].ws == Open
    ensures Accepts(w.server.socks[to].sent, sid) == Some(HeardFrom(w, from, sid))
  {
    hide MetersInv, Inv, NamesInv, ClientInv, Accepts, Heard, LinkTakes, LinkQueues, Drawn, OpensOnce, Told, Routed;
    assert sid in w.known && w.known[sid] == w.server.sessions[sid] && Apart(w.server, w.known[sid]);
    assert SidInv(w, sid) && EndInv(w, sid, from) && EndInv(w, sid, to);
    hide SidInv, OpenedInv, WorldInv, EndInv, Apart;
    LiveIsHeard(w, sid, from, to);
  }

  lemma LiveIsHeard(w: World, sid: Sid, from: Conn, to: Conn)
    requires WiresInv(w) && from in w.wires && sid in w.known && to == w.known[sid].Other(from)
    requires SessionLive(w.server, sid, to) && Routed(w, sid, from) && Told(w.server, w.known, sid, to)
    ensures Accepts(w.server.socks[to].sent, sid) == Some(HeardFrom(w, from, sid))
  {
    hide Accepts, HeardFrom, WiresInv;
  }

  /** Nothing is taken on a session by anyone but its two ends. */
  lemma NothingCrosses(w: World, sid: Sid, c: Conn)
    requires WorldInv(w) && TakenAt(w, c, sid) != []
    ensures sid in w.known && w.known[sid].Joins(c)
    ensures var from := w.known[sid].Other(c);
            from in w.wires && from != c && w.known[sid].Joins(from) && w.known[sid].Other(from) == c
  {
    assert SidInv(w, sid) && EndInv(w, sid, c);
    AcceptsGrows(w.server.socks[c].sent, w.wires[c].downRead, sid);
    assert Apart(w.server, w.known[sid]);
  }

  /** What the server has put on a socket for a session and the client has not read yet. */
  function InFlightDown(w: World, c: Conn, sid: Sid): seq<Payload>
    requires WiresInv(w) && c in w.wires
  {
    var all := Accepts(w.server.socks[c].sent, sid);
    var read := Accepts(w.server.socks[c].sent[..w.wires[c].downRead], sid);
    if all.None? then []
    else if read.None? then all.value
    else if |read.value| <= |all.value| then all.value[|read.value|..] else []
  }

  /** What the client has put on a socket for a session and the server has not read yet. */
  function InFlightUp(w: World, c: Conn, sid: Sid): seq<Payload>
    requires WiresInv(w) && c in w.wires
  {
    var read := Offered(w.wires[c].up[..|w.wires[c].times|], sid);
    var all := Offered(w.wires[c].up, sid);
    if |read| <= |all| then all[|read|..] else []
  }

  /** While the session, its links and both sockets are open, nothing is lost: what was sent
      is what was delivered, then what is on its way down, then what is on its way up. */
  lemma NothingLost(w: World, sid: Sid, from: Conn, to: Conn)
    requires WorldInv(w) && Honest(w, from) && Honest(w, to)
    requires sid in w.server.sessions && w.server.sessions[sid].Joins(from) && to == w.server.sessions[sid].Other(from)
    requires w.server.socks[from].ws == Open && w.server.socks[to].ws == Open && w.wires[from].ready == Up
    requires LinkAt(w, to, sid).Some? ==> !LinkAt(w, to, sid).value.closed
    ensures SentAt(w, from, sid) == TakenAt(w, to, sid) + InFlightDown(w, to, sid) + InFlightUp(w, from, sid)
  {
    hide Inv, NamesInv, ClientInv;
    assert sid in w.known && w.known[sid] == w.server.sessions[sid] && Apart(w.server, w.known[sid]);
    assert SidInv(w, sid) && EndInv(w, sid, from) && EndInv(w, sid, to);
    assert Metered(w.wires[from], w.server.socks[from]);
    CleanIsHeard(w.wires[from].since, w.wires[from].up, w.wires[from].times, sid);
    hide OpenedInv, SidInv, WorldInv, Apart, MetersInv, Metered, Heard, Clean, MeterAfter;
    SuffixesAdd(w, sid, from, to);
  }

  lemma SuffixesAdd(w: World, sid: Sid, from: Conn, to: Conn)
    requires WiresInv(w) && from in w.wires && to in w.wires && sid in w.known && to == w.known[sid].Other(from)
    requires LinkTakes(w, sid, to) && LinkQueues(w, sid, from)
    requires Accepts(w.server.socks[to].sent, sid).Some? && w.wires[from].ready == Up
    requires Accepts(w.server.socks[to].sent, sid).value == Offered(w.wires[from].up[..|w.wires[from].times|], sid)
    requires LinkAt(w, to, sid).Some? ==> !LinkAt(w, to, sid).value.closed
    ensures SentAt(w, from, sid) == TakenAt(w, to, sid) + InFlightDown(w, to, sid) + InFlightUp(w, from, sid)
  {
    AcceptsGrows(w.server.socks[to].sent, w.wires[to].downRead, sid);
    OfferedGrows(w.wires[from].up, |w.wires[from].times|, sid);
    var relayed := Accepts(w.server.socks[to].sent, sid).value;
    var read := Accepts(w.server.socks[to].sent[..w.wires[to].downRead], sid);
    var up := Offered(w.wires[from].up[..|w.wires[from].times|], sid);
    var taken := if read.Some? then read.value else [];
    assert TakenAt(w, to, sid) == taken && SentAt(w, from, sid) == Offered(w.wires[from].up, sid) && up == relayed;
    hide Accepts, Offered, LinkAt, WiresInv, LinkTakes, LinkQueues, TakenAt, SentAt;
    Rest(taken, relayed);
    Rest(up, Offered(w.wires[from].up, sid));
  }

  lemma Rest(a: seq<Payload>, b: seq<Payload>)
    requires a <= b
    ensures b == a + b[|a|..]
  {
  }
}
