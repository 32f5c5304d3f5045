/** The relay world invariant holds in every run, and with it in-order delivery without loss. */
module RelayTheorems {
  import opened Wrappers
  import opened Rendezvous
  import opened Signaling
  import opened ServerInvariants
  import opened ServerRouting
  import opened RateLimit
  import opened RelayWorld
  import opened RelayRuns
  import Relay

  // ---- the clients' part ---------------------------------------------------------------------

  lemma OthersKeepClient(w: World, v: World, d: Device)
    requires SameEnds(w, v) && d in w.clients && d in v.clients && v.clients[d] == w.clients[d] && ClientInv(w, d)
    ensures ClientInv(v, d)
  {
    forall sid | sid in v.clients[d].links ensures LinkInv(v, d, sid) {
      assert LinkInv(w, d, sid);
    }
  }

  /** A client that closes, listens or writes keeps its links consistent. */
  lemma ActKeepsClient(w: World, v: World, d: Device)
    requires SameEnds(w, v) && d in w.clients && d in v.clients && ClientInv(w, d)
    requires var cl, after := w.clients[d], v.clients[d];
             && after.socket == cl.socket && after.closing == cl.closing && after.links.Keys == cl.links.Keys && after.sessions <= cl.sessions
             && forall sid :: sid in cl.links ==>
                  && after.links[sid].conn == cl.links[sid].conn
                  && (after.links[sid].closed <==> sid !in after.sessions)
                  && (after.links[sid].hasHandler ==> after.links[sid].backlog == [])
    ensures ClientInv(v, d)
  {
    forall sid | sid in v.clients[d].links ensures LinkInv(v, d, sid) {
      assert LinkInv(w, d, sid);
    }
  }

  lemma ActsKeepsClients(w: World, d: Device, cl: Relay.Client, out: seq<ClientMsg>, x: Device)
    requires WiresInv(w) && d in w.clients && x in w.clients && ClientInv(w, x) && ClientInv(w, d)
    requires var before := w.clients[d];
             && cl.socket == before.socket && cl.closing == before.closing && cl.links.Keys == before.links.Keys && cl.sessions <= before.sessions
             && forall sid :: sid in before.links ==>
                  && cl.links[sid].conn == before.links[sid].conn
                  && (cl.links[sid].closed <==> sid !in cl.sessions)
                  && (cl.links[sid].hasHandler ==> cl.links[sid].backlog == [])
    ensures ClientInv(Acts(w, d, cl, out), x)
  {
    var v := Acts(w, d, cl, out);
    assert SameEnds(w, v);
    if x == d {
      ActKeepsClient(w, v, d);
    } else {
      OthersKeepClient(w, v, x);
    }
  }

  lemma SendsKeepsClients(w: World, d: Device, sid: Sid, payload: Payload, x: Device)
    requires WiresInv(w) && d in w.clients && x in w.clients && ClientInv(w, x) && ClientInv(w, d)
    ensures var r := Relay.LinkSend(w.clients[d], sid, payload, CanSend(w, d)); ClientInv(Acts(w, d, r.0, r.1), x)
  {
    var r := Relay.LinkSend(w.clients[d], sid, payload, CanSend(w, d));
    forall y | y in w.clients[d].links ensures LinkInv(w, d, y) {}
    ActsKeepsClients(w, d, r.0, r.1, x);
  }

  lemma DialKeepsClients(w: World, d: Device, c: Conn, now: int, x: Device)
    requires c !in w.wires && x in w.clients && ClientInv(w, x)
    requires d in w.clients ==> w.clients[d].socket.None? && !w.clients[d].closing && ClientInv(w, d)
    ensures ClientInv(DialStep(w, d, c, now), x)
  {
    var v := DialStep(w, d, c, now);
    forall sid | sid in v.clients[x].links ensures LinkInv(v, x, sid) {
      assert LinkInv(w, x, sid);
    }
  }

  lemma EstablishKeepsClients(w: World, c: Conn, serial: nat, x: Device)
    requires c in w.wires && w.wires[c].ready == Dialing && x in w.clients && ClientInv(w, x)
    ensures ClientInv(EstablishStep(w, c, serial), x)
  {
    var v := EstablishStep(w, c, serial);
    forall sid | sid in v.clients[x].links ensures LinkInv(v, x, sid) {
      assert LinkInv(w, x, sid);
    }
  }

  lemma FadesKeepsClients(w: World, c: Conn, x: Device)
    requires c in w.wires && w.wires[c].ready != Gone && x in w.clients && ClientInv(w, x)
    ensures ClientInv(FadeStep(w, c), x)
  {
    var v := FadeStep(w, c);
    forall sid | sid in v.clients[x].links ensures LinkInv(v, x, sid) {
      assert LinkInv(w, x, sid);
    }
  }

  lemma EndEveryCloses(cl: Relay.Client, sid: Sid)
    requires sid in cl.links && (cl.links[sid].closed <==> sid !in cl.sessions)
    ensures var after := Relay.EndEvery(cl);
            && after.links.Keys == cl.links.Keys && after.sessions == {} && after.socket == cl.socket && after.closing == cl.closing
            && after.links[sid] == cl.links[sid].(closed := true)
  {
  }

  /** A socket is gone for good only when it was the client's, or the client has stopped. */
  lemma LapseKeepsClients(w: World, c: Conn, x: Device)
    requires c in w.wires && x in w.clients && ClientInv(w, x)
    requires w.wires[c].ready != Gone
    ensures ClientInv(LapseStep(w, c), x)
  {
    var v := LapseStep(w, c);
    forall sid | sid in v.clients[x].links ensures LinkInv(v, x, sid) {
      assert LinkInv(w, x, sid);
      EndEveryCloses(w.clients[x], sid);
    }
  }

  lemma ShutKeepsClients(w: World, d: Device, x: Device)
    requires d in w.clients && x in w.clients && ClientInv(w, x) && ClientInv(w, d)
    ensures ClientInv(ShutStep(w, d), x)
  {
    var v := ShutStep(w, d);
    forall sid | sid in v.clients[x].links ensures LinkInv(v, x, sid) {
      assert LinkInv(w, x, sid);
      EndEveryCloses(w.clients[x], sid);
    }
  }

  lemma ReadKeepsClients(w: World, c: Conn, x: Device)
    requires WiresInv(w) && c in w.wires && w.wires[c].ready == Up && w.wires[c].downRead < |w.server.socks[c].sent|
    requires x in w.clients && ClientInv(w, x)
    ensures ClientInv(ReadStep(w, c), x)
  {
    var v := ReadStep(w, c);
    ReadEnds(w, c);
    hide ReadStep, WiresInv, SameEnds, ClientInv;
    if w.wires[c].owner != x {
      OthersKeepClient(w, v, x);
    } else {
      ReceiveKeepsClient(w, v, c, w.server.socks[c].sent[w.wires[c].downRead]);
    }
  }

  lemma ReadEnds(w: World, c: Conn)
    requires WiresInv(w) && c in w.wires && w.wires[c].downRead < |w.server.socks[c].sent|
    ensures var v := ReadStep(w, c);
            var d := w.wires[c].owner;
            && SameEnds(w, v) && c in w.server.socks
            && (forall x :: x in w.clients && x != d ==> x in v.clients && v.clients[x] == w.clients[x])
            && (d in w.clients ==>
                  d in v.clients
                  && v.clients[d] == Relay.Receive(w.clients[d], c, w.server.socks[c].sent[w.wires[c].downRead]))
  {
    hide Relay.Receive;
  }

  lemma ReceiveKeepsClient(w: World, v: World, c: Conn, m: ServerMsg)
    requires SameEnds(w, v) && Honest(w, c) && w.wires[c].ready == Up && ClientInv(w, w.wires[c].owner)
    requires w.wires[c].owner in v.clients
    requires v.clients[w.wires[c].owner] == Relay.Receive(w.clients[w.wires[c].owner], c, m)
    ensures ClientInv(v, w.wires[c].owner)
  {
    hide Relay.Receive;
    var x := w.wires[c].owner;
    ReceiveSessions(w.clients[x], c, m);
    forall sid | sid in v.clients[x].links ensures LinkInv(v, x, sid) {
      if sid in w.clients[x].links { assert LinkInv(w, x, sid); }
      ReceiveFollows(w.clients[x], c, m, sid);
    }
    forall sid | sid in v.clients[x].sessions ensures sid in v.clients[x].links {
      ReceiveFollows(w.clients[x], c, m, sid);
    }
    ReceiveFollows(w.clients[x], c, m, 0);
  }

  lemma ReceiveSessions(cl: Relay.Client, c: Conn, m: ServerMsg)
    ensures Relay.Receive(cl, c, m).sessions ==
            if m.SessionOpened? then cl.sessions + {m.sid}
            else if m.SessionEnded? then cl.sessions - {m.sid} else cl.sessions
  {
  }

  // ---- the server's part ---------------------------------------------------------------------

  /** A connection becomes a caller only by its own credential. */
  lemma CallersAfter(s: Server, c: Conn, m: ClientMsg, now: int, reg: Registry, uuid: Sid, x: Conn)
    requires c in s.socks && Sound(reg, s) && x in s.socks
    ensures var t := OnMessage(s, c, m, now, reg, uuid);
            && t.socks.Keys == s.socks.Keys
            && (t.socks[x].caller == s.socks[x].caller
                || (x == c && m.Auth? && t.socks[x].caller.Some? && t.socks[x].caller.value.device == m.token.device))
  {
    hide OnAuth, OnConnect;
    var s1 := s.(socks := s.socks[c := Counted(s.socks[c], now)]);
    if Handled(s, c, m, now) && m.Auth? {
      AuthShape(s1, c, m.token, now, reg);
    } else if Handled(s, c, m, now) && m.Connect? && s.socks[c].caller.Some? {
      ConnectShape(s1, c, m.target, reg, uuid);
    } else {
      OtherShape(s, c, m, now, reg, uuid);
    }
  }

  /** A message that does not pass is a socket's last while it is open, and closed sockets stay so. */
  lemma ShutAfter(s: Server, c: Conn, m: ClientMsg, now: int, reg: Registry, uuid: Sid, x: Conn)
    requires c in s.socks && x in s.socks
    ensures var t := OnMessage(s, c, m, now, reg, uuid);
            && t.socks.Keys == s.socks.Keys
            && (t.socks[x].ws == Open ==> s.socks[x].ws == Open)
  {
    hide OnMessage, Introduces, Routes;
    if Introduces(s, c, m, now, reg) {
      IntroductionWs(s, c, m, now, reg, uuid);
    } else if Routes(s, c, m, now) {
      RouteEffect(s, c, m, now, reg, uuid);
    } else {
      PlainMessage(s, c, m, now, reg, uuid);
    }
  }

  lemma RefusedShuts(s: Server, c: Conn, m: ClientMsg, now: int, reg: Registry, uuid: Sid)
    requires c in s.socks && !Passes(MeterOf(s.socks[c]), m, now)
    ensures var t := OnMessage(s, c, m, now, reg, uuid); c in t.socks && t.socks[c].ws != Open
  {
    hide OnAuth, OnConnect, OnFrame;
  }

  lemma IntroductionWs(s: Server, c: Conn, m: ClientMsg, now: int, reg: Registry, uuid: Sid)
    requires c in s.socks && Introduces(s, c, m, now, reg)
    ensures var t := OnMessage(s, c, m, now, reg, uuid);
            && t.socks.Keys == s.socks.Keys
            && forall x :: x in s.socks ==> t.socks[x].ws == s.socks[x].ws && t.socks[x].caller == s.socks[x].caller
  {
    IntroductionEffect(s, c, m, now, reg, uuid);
  }

  lemma ApartStays(s: Server, t: Server, e: Session)
    requires Apart(s, e) && s.socks.Keys <= t.socks.Keys
    requires forall x :: x in s.socks && s.socks[x].caller.Some? ==> t.socks[x].caller == s.socks[x].caller
    ensures Apart(t, e)
  {
  }

  lemma CallersStay(s: Server, c: Conn, m: ClientMsg, now: int, reg: Registry, uuid: Sid)
    requires c in s.socks
    ensures var t := OnMessage(s, c, m, now, reg, uuid);
            && t.socks.Keys == s.socks.Keys
            && forall x :: x in s.socks && s.socks[x].caller.Some? ==> t.socks[x].caller == s.socks[x].caller
  {
    hide OnMessage, Introduces, Routes;
    if Introduces(s, c, m, now, reg) {
      IntroductionWs(s, c, m, now, reg, uuid);
    } else if Routes(s, c, m, now) {
      RouteEffect(s, c, m, now, reg, uuid);
    } else {
      PlainMessage(s, c, m, now, reg, uuid);
    }
  }

  lemma ServesKeepsKnown(w: World, c: Conn, now: int, reg: Registry, uuid: Sid)
    requires OpenedInv(w) && OnlineLive(w.server) && c in w.wires && c in w.server.socks
    requires |w.wires[c].times| < |w.wires[c].up| && uuid !in w.known && uuid !in w.server.sessions
    ensures OpenedInv(ServeStep(w, c, now, reg, uuid))
  {
    hide OnMessage, OnlineLive, Introduces, Routes, Plain;
    var s, m := w.server, Message(w, c);
    var v := ServeStep(w, c, now, reg, uuid);
    CallersStay(s, c, m, now, reg, uuid);
    if Introduces(s, c, m, now, reg) {
      IntroducedPeer(s, c, m, now, reg);
      IntroductionEffect(s, c, m, now, reg, uuid);
    } else if Routes(s, c, m, now) {
      RouteEffect(s, c, m, now, reg, uuid);
    } else {
      PlainMessage(s, c, m, now, reg, uuid);
      PlainKeepsSessions(s, OnMessage(s, c, m, now, reg, uuid));
    }
    forall sid | sid in v.known ensures Apart(v.server, v.known[sid]) {
      if sid in w.known && v.known[sid] == w.known[sid] {
        ApartStays(s, v.server, w.known[sid]);
      } else {
        ApartStays(s, v.server, v.known[sid]);
      }
    }
  }

  lemma PlainKeepsSessions(s: Server, t: Server)
    requires Plain(s, t)
    ensures t.socks.Keys == s.socks.Keys
    ensures forall sid :: sid in t.sessions ==> sid in s.sessions && t.sessions[sid] == s.sessions[sid]
  {
  }

  lemma ServesKeepsNames(w: World, c: Conn, now: int, reg: Registry, uuid: Sid)
    requires WiresInv(w) && NamesInv(w) && Sound(reg, w.server)
    requires c in w.wires && |w.wires[c].times| < |w.wires[c].up|
    ensures NamesInv(ServeStep(w, c, now, reg, uuid))
  {
    hide OnMessage, Sound;
    var s, m := w.server, Message(w, c);
    var v := ServeStep(w, c, now, reg, uuid);
    forall x | x in w.wires && Honest(v, x)
      ensures x in v.server.socks
      ensures v.server.socks[x].caller.Some? ==> v.server.socks[x].caller.value.device == v.wires[x].owner
    {
      CallersAfter(s, c, m, now, reg, uuid, x);
    }
  }

  lemma ServesKeepsMeters(w: World, c: Conn, now: int, reg: Registry, uuid: Sid)
    requires WiresInv(w) && MetersInv(w) && c in w.wires && |w.wires[c].times| < |w.wires[c].up|
    requires WiresInv(ServeStep(w, c, now, reg, uuid))
    ensures MetersInv(ServeStep(w, c, now, reg, uuid))
  {
    hide OnMessage, MeterAfter, Clean, Tick, Passes;
    var s, m := w.server, Message(w, c);
    var v := ServeStep(w, c, now, reg, uuid);
    MessageMeters(s, c, m, now, reg, uuid);
    forall x | x in v.wires ensures Metered(v.wires[x], v.server.socks[x]) {
      assert Metered(w.wires[x], s.socks[x]);
      ShutAfter(s, c, m, now, reg, uuid, x);
      if x == c {
        ReadOne(w.wires[c].since, w.wires[c].up, w.wires[c].times, now, 0);
        if !Passes(MeterOf(s.socks[c]), m, now) { RefusedShuts(s, c, m, now, reg, uuid); }
      }
    }
  }

  lemma ServesKeepsWires(w: World, c: Conn, now: int, reg: Registry, uuid: Sid)
    requires WiresInv(w) && c in w.wires && |w.wires[c].times| < |w.wires[c].up|
    ensures WiresInv(ServeStep(w, c, now, reg, uuid))
  {
    hide OnMessage, Introduces, Routes;
    var s, m := w.server, Message(w, c);
    if Introduces(s, c, m, now, reg) {
      IntroductionLonger(s, c, m, now, reg, uuid);
    } else if Routes(s, c, m, now) {
      RouteEffect(s, c, m, now, reg, uuid);
    } else {
      PlainMessage(s, c, m, now, reg, uuid);
    }
  }

  lemma IntroductionLonger(s: Server, c: Conn, m: ClientMsg, now: int, reg: Registry, uuid: Sid)
    requires c in s.socks && Introduces(s, c, m, now, reg)
    ensures var t := OnMessage(s, c, m, now, reg, uuid);
            && t.socks.Keys == s.socks.Keys
            && forall x :: x in s.socks ==> |s.socks[x].sent| <= |t.socks[x].sent|
  {
  }

  /** A step of the server alone: a close, a hang-up, a sweep. */
  lemma AloneKeeps(w: World, t: Server)
    requires WiresInv(w) && Plain(w.server, t) && NamesInv(w) && MetersInv(w) && OpenedInv(w) && SameMeters(w.server, t)
    requires forall c :: c in w.server.socks ==> t.socks[c].caller == w.server.socks[c].caller
    ensures var v := w.(server := t); WiresInv(v) && NamesInv(v) && MetersInv(v) && OpenedInv(v)
  {
    AloneKeepsWires(w, t);
    AloneKeepsNames(w, t);
    assert forall c :: c in w.server.socks && t.socks[c].ws == Open ==> w.server.socks[c].ws == Open;
    hide Plain, NamesInv, OpenedInv, WiresInv;
    AloneKeepsMeters(w, t);
  }

  lemma AloneKeepsWires(w: World, t: Server)
    requires WiresInv(w) && Plain(w.server, t)
    ensures WiresInv(w.(server := t))
  {
  }

  lemma AloneKeepsNames(w: World, t: Server)
    requires WiresInv(w) && Plain(w.server, t) && NamesInv(w) && OpenedInv(w)
    requires forall c :: c in w.server.socks ==> t.socks[c].caller == w.server.socks[c].caller
    ensures NamesInv(w.(server := t)) && OpenedInv(w.(server := t))
  {
    hide Plain;
    var v := w.(server := t);
    PlainKeepsSessions(w.server, t);
    forall sid | sid in v.known ensures Apart(t, v.known[sid]) {
      ApartStays(w.server, t, w.known[sid]);
    }
  }

  lemma AloneKeepsMeters(w: World, t: Server)
    requires WiresInv(w) && MetersInv(w) && SameMeters(w.server, t) && WiresInv(w.(server := t))
    requires forall c :: c in w.server.socks && t.socks[c].ws == Open ==> w.server.socks[c].ws == Open
    ensures MetersInv(w.(server := t))
  {
    hide Clean, MeterAfter;
    var v := w.(server := t);
    forall c | c in v.wires ensures Metered(v.wires[c], t.socks[c]) {
      assert Metered(w.wires[c], w.server.socks[c]);
    }
  }

  lemma AloneKeepsSid(w: World, t: Server, sid: Sid)
    requires WiresInv(w) && Plain(w.server, t) && SidInv(w, sid) && WiresInv(w.(server := t))
    ensures SidInv(w.(server := t), sid)
  {
    var v := w.(server := t);
    assert ServerStep(w, v) && v.wires.Keys == w.wires.Keys;
    hide EndInv, Plain, WiresInv, Quiet, ServerStep;
    PlainIsQuiet(w.server, t, sid);
    forall c | c in v.wires ensures EndInv(v, sid, c) {
      assert EndInv(w, sid, c);
      QuietEnd(w, v, sid, c);
    }
  }

  lemma AloneKeepsAll(w: World, t: Server)
    requires WorldInv(w) && Plain(w.server, t) && Inv(t) && SameMeters(w.server, t)
    requires forall c :: c in w.server.socks ==> t.socks[c].caller == w.server.socks[c].caller
    ensures WorldInv(w.(server := t))
  {
    hide EndInv, SidInv, NamesInv, OpenedInv, MetersInv, WiresInv, ClientInv, Inv, Plain, SameMeters;
    var v := w.(server := t);
    AloneKeeps(w, t);
    forall sid ensures SidInv(v, sid) { assert SidInv(w, sid); AloneKeepsSid(w, t, sid); }
    assert SameEnds(w, v);
    hide SameEnds;
    forall d | d in v.clients ensures ClientInv(v, d) { OthersKeepClient(w, v, d); }
  }

  // ---- one step ------------------------------------------------------------------------------

  lemma ServeShape(w: World, c: Conn, now: int, reg: Registry, uuid: Sid)
    requires c in w.wires && c in w.server.socks && |w.wires[c].times| < |w.wires[c].up|
    ensures var v := ServeStep(w, c, now, reg, uuid);
            SameEnds(w, v) && v.clients == w.clients && v.server == OnMessage(w.server, c, Message(w, c), now, reg, uuid)
  {
    hide OnMessage;
  }

  lemma ServesKeepsAll(w: World, c: Conn, now: int, reg: Registry, uuid: Sid)
    requires WorldInv(w) && c in w.wires && c in w.server.socks && w.server.socks[c].ws != Closed
    requires |w.wires[c].times| < |w.wires[c].up| && Sound(reg, w.server) && uuid !in w.known && uuid !in w.server.sessions
    ensures WorldInv(ServeStep(w, c, now, reg, uuid))
  {
    assert OnlineLive(w.server);
    hide ServeStep, OnMessage, SidInv, NamesInv, OpenedInv, MetersInv, WiresInv, ClientInv, Inv, OnlineLive, Sound, SameEnds;
    var v := ServeStep(w, c, now, reg, uuid);
    ServeShape(w, c, now, reg, uuid);
    ServesKeepsWires(w, c, now, reg, uuid);
    ServesKeepsNames(w, c, now, reg, uuid);
    ServesKeepsMeters(w, c, now, reg, uuid);
    ServesKeepsKnown(w, c, now, reg, uuid);
    MessageKeepsInv(w.server, c, Message(w, c), now, reg, uuid);
    ServesKeepsRest(w, c, now, reg, uuid);
  }

  lemma ServesKeepsRest(w: World, c: Conn, now: int, reg: Registry, uuid: Sid)
    requires WorldInv(w) && c in w.wires && c in w.server.socks && |w.wires[c].times| < |w.wires[c].up|
    requires uuid !in w.known && uuid !in w.server.sessions && WiresInv(ServeStep(w, c, now, reg, uuid))
    ensures var v := ServeStep(w, c, now, reg, uuid);
            (forall sid :: SidInv(v, sid)) && forall d :: d in v.clients ==> ClientInv(v, d)
  {
    assert OnlineLive(w.server);
    hide ServeStep, OnMessage, SidInv, NamesInv, OpenedInv, MetersInv, WiresInv, ClientInv, Inv, OnlineLive, SameEnds;
    var v := ServeStep(w, c, now, reg, uuid);
    ServeShape(w, c, now, reg, uuid);
    forall sid ensures SidInv(v, sid) { assert SidInv(w, sid); ServesKeepsSid(w, c, now, reg, uuid, sid); }
    forall d | d in v.clients ensures ClientInv(v, d) { OthersKeepClient(w, v, d); }
  }

  /** A client step that changes no server state, known session or connection owner. */
  lemma ClientKeepsGlobals(w: World, v: World)
    requires WiresInv(w) && WiresInv(v) && ClientStep(w, v) && NamesInv(w) && OpenedInv(w) && MetersInv(w)
    requires forall c :: c in w.wires && Honest(w, c) ==>
               forall i :: |w.wires[c].up| <= i < |v.wires[c].up| && v.wires[c].up[i].Auth? ==>
                 v.wires[c].up[i].token.device == w.wires[c].owner
    ensures NamesInv(v) && OpenedInv(v) && MetersInv(v)
  {
    hide Heard, MeterAfter, Clean;
    forall c | c in v.wires ensures Metered(v.wires[c], v.server.socks[c]) {
      assert Metered(w.wires[c], w.server.socks[c]);
      WrittenLater(w.wires[c].since, w.wires[c].up, v.wires[c].up, w.wires[c].times, 0);
    }
  }

  lemma ActsGlobals(w: World, d: Device, cl: Relay.Client, out: seq<ClientMsg>)
    requires WiresInv(w) && d in w.clients && NamesInv(w) && OpenedInv(w) && MetersInv(w)
    requires forall m :: m in out ==> !m.Auth?
    ensures var v := Acts(w, d, cl, out); WiresInv(v) && NamesInv(v) && OpenedInv(v) && MetersInv(v)
  {
    ActsStep(w, d, cl, out);
    ClientKeepsGlobals(w, Acts(w, d, cl, out));
  }

  lemma ActsKeepsAll(w: World, d: Device, cl: Relay.Client, out: seq<ClientMsg>)
    requires WorldInv(w) && d in w.clients && Idles(w, d, cl, out)
    requires cl.closing == w.clients[d].closing && cl.sessions <= w.clients[d].sessions
    requires forall sid :: sid in cl.links ==>
               && (cl.links[sid].closed <==> sid !in cl.sessions)
               && (cl.links[sid].hasHandler ==> cl.links[sid].backlog == [])
    requires forall m :: m in out ==> !m.Auth?
    ensures WorldInv(Acts(w, d, cl, out))
  {
    var v := Acts(w, d, cl, out);
    ActsGlobals(w, d, cl, out);
    forall sid ensures SidInv(v, sid) { assert SidInv(w, sid); IdlesKeepsSid(w, d, cl, out, sid); }
    forall x | x in v.clients ensures ClientInv(v, x) {
      assert ClientInv(w, x) && ClientInv(w, d);
      ActsKeepsClients(w, d, cl, out, x);
    }
  }

  lemma ListensKeepsAll(w: World, d: Device, sid: Sid)
    requires WorldInv(w) && d in w.clients
    ensures WorldInv(Acts(w, d, Relay.LinkListen(w.clients[d], sid), []))
  {
    hide SidInv, EndInv, NamesInv, OpenedInv, MetersInv, Inv, WiresInv;
    assert ClientInv(w, d);
    forall x | x in w.clients[d].links ensures LinkInv(w, d, x) {}
    hide WorldInv, ClientInv;
    ListenIdles(w, d, sid);
    hide Relay.LinkListen, Idles;
    ActsKeepsAll(w, d, Relay.LinkListen(w.clients[d], sid), []);
  }

  lemma ListenIdles(w: World, d: Device, sid: Sid)
    requires d in w.clients && forall x :: x in w.clients[d].links ==> LinkInv(w, d, x)
    ensures var cl := Relay.LinkListen(w.clients[d], sid);
            && Idles(w, d, cl, []) && cl.closing == w.clients[d].closing && cl.sessions <= w.clients[d].sessions
            && forall x :: x in cl.links ==>
                 && (cl.links[x].closed <==> x !in cl.sessions)
                 && (cl.links[x].hasHandler ==> cl.links[x].backlog == [])
  {
    forall x | x in w.clients[d].links ensures LinkInv(w, d, x) {}
  }

  lemma ClosesKeepsAll(w: World, d: Device, sid: Sid)
    requires WorldInv(w) && d in w.clients
    ensures var r := Relay.LinkClose(w.clients[d], sid, CanSend(w, d)); WorldInv(Acts(w, d, r.0, r.1))
  {
    assert ClientInv(w, d);
    forall x | x in w.clients[d].links ensures LinkInv(w, d, x) {}
    hide WorldInv, ClientInv;
    var r := Relay.LinkClose(w.clients[d], sid, CanSend(w, d));
    CloseIdles(w, d, sid);
    hide Relay.LinkClose, Idles;
    ActsKeepsAll(w, d, r.0, r.1);
  }

  lemma CloseIdles(w: World, d: Device, sid: Sid)
    requires d in w.clients && forall x :: x in w.clients[d].links ==> LinkInv(w, d, x)
    ensures var r := Relay.LinkClose(w.clients[d], sid, CanSend(w, d));
            var cl := r.0;
            && Idles(w, d, cl, r.1) && cl.closing == w.clients[d].closing && cl.sessions <= w.clients[d].sessions
            && (forall x :: x in cl.links ==>
                  && (cl.links[x].closed <==> x !in cl.sessions)
                  && (cl.links[x].hasHandler ==> cl.links[x].backlog == []))
            && forall m :: m in r.1 ==> !m.Auth?
  {
    forall x | x in w.clients[d].links ensures LinkInv(w, d, x) {}
  }

  /** Asking for a session, or a heartbeat: no link is touched. */
  lemma AsksKeepsAll(w: World, d: Device, cl: Relay.Client, out: seq<ClientMsg>)
    requires WorldInv(w) && d in w.clients && cl == w.clients[d].(pending := cl.pending)
    requires out == [] || (|out| == 1 && (out[0].Connect? || out[0].Ping?))
    ensures WorldInv(Acts(w, d, cl, out))
  {
    assert ClientInv(w, d);
    forall x | x in w.clients[d].links ensures LinkInv(w, d, x) {}
    hide WorldInv;
    ActsKeepsAll(w, d, cl, out);
  }

  lemma SendsKeepsAll(w: World, d: Device, sid0: Sid, payload: Payload)
    requires WorldInv(w) && d in w.clients
    ensures var r := Relay.LinkSend(w.clients[d], sid0, payload, CanSend(w, d)); WorldInv(Acts(w, d, r.0, r.1))
  {
    var r := Relay.LinkSend(w.clients[d], sid0, payload, CanSend(w, d));
    var v := Acts(w, d, r.0, r.1);
    ActsGlobals(w, d, r.0, r.1);
    forall sid ensures SidInv(v, sid) {
      assert SidInv(w, sid) && ClientInv(w, d);
      SendsKeepsSid(w, d, sid0, payload, sid);
    }
    forall x | x in v.clients ensures ClientInv(v, x) {
      assert ClientInv(w, x) && ClientInv(w, d);
      SendsKeepsClients(w, d, sid0, payload, x);
    }
  }

  /** A client step given piece by piece. */
  lemma ClientKeepsAll(w: World, v: World)
    requires WorldInv(w) && WiresInv(v) && ClientStep(w, v)
    requires forall c :: c in w.wires && Honest(w, c) ==>
               forall i :: |w.wires[c].up| <= i < |v.wires[c].up| && v.wires[c].up[i].Auth? ==>
                 v.wires[c].up[i].token.device == w.wires[c].owner
    requires forall d :: d in v.clients ==> ClientInv(v, d)
    requires forall sid :: SidInv(v, sid)
    ensures WorldInv(v)
  {
    ClientKeepsGlobals(w, v);
  }

  /** A client step that writes nothing to any socket. */
  lemma SilentKeepsAll(w: World, v: World, d: Device)
    requires WorldInv(w) && Fading(w, v, d)
    requires forall x :: x in v.clients ==> ClientInv(v, x)
    ensures WorldInv(v)
  {
    hide WiresInv, SidInv, Inv, ClientInv, NamesInv, OpenedInv, MetersInv;
    forall sid ensures SidInv(v, sid) { assert SidInv(w, sid); FadingKeepsSid(w, v, d, sid); }
    assert forall c :: c in w.wires ==> v.wires[c].up == w.wires[c].up;
    hide ClientStep;
    ClientKeepsAll(w, v);
  }

  lemma FadesKeepsAll(w: World, c: Conn)
    requires WorldInv(w) && c in w.wires && w.wires[c].ready != Gone
    ensures WorldInv(FadeStep(w, c))
  {
    var v := FadeStep(w, c);
    FadeFading(w, c);
    assert v.clients == w.clients;
    hide Inv, NamesInv, OpenedInv, MetersInv, WiresInv, ClientStep, Fading, FadeStep, SidInv, ClientInv;
    forall x | x in v.clients ensures ClientInv(v, x) { assert ClientInv(w, x); FadesKeepsClients(w, c, x); }
    SilentKeepsAll(w, v, w.wires[c].owner);
  }

  lemma FadeFading(w: World, c: Conn)
    requires WiresInv(w) && c in w.wires
    ensures Fading(w, FadeStep(w, c), w.wires[c].owner)
  {
  }

  lemma LapseFading(w: World, c: Conn)
    requires WiresInv(w) && c in w.wires
    ensures Fading(w, LapseStep(w, c), w.wires[c].owner)
  {
    LapseWires(w, c);
    var d := w.wires[c].owner;
    if d in w.clients { LostLinks(w.clients[d]); }
    hide Relay.SocketLost, WiresInv;
  }

  lemma LapseWires(w: World, c: Conn)
    requires WiresInv(w) && c in w.wires
    ensures WiresInv(LapseStep(w, c)) && ClientStep(w, LapseStep(w, c))
  {
    LapseShape(w, c);
    hide LapseStep;
  }

  lemma LapseShape(w: World, c: Conn)
    requires c in w.wires
    ensures var v := LapseStep(w, c);
            && v.server == w.server && v.known == w.known && v.clients.Keys == w.clients.Keys
            && v.wires == w.wires[c := w.wires[c].(ready := Gone)]
  {
    hide Relay.SocketLost;
  }

  lemma LostLinks(cl: Relay.Client)
    ensures var after := Relay.SocketLost(cl);
            && after.links.Keys == cl.links.Keys
            && forall x :: x in cl.links ==> after.links[x] == cl.links[x] || after.links[x] == cl.links[x].(closed := true)
  {
  }

  lemma ShutFading(w: World, d: Device)
    requires WiresInv(w) && d in w.clients
    ensures Fading(w, ShutStep(w, d), d)
  {
  }

  lemma LapsesKeepsAll(w: World, c: Conn)
    requires WorldInv(w) && c in w.wires && w.wires[c].ready != Gone
    ensures WorldInv(LapseStep(w, c))
  {
    var v := LapseStep(w, c);
    LapseFading(w, c);
    assert v.clients.Keys == w.clients.Keys;
    hide Inv, NamesInv, OpenedInv, MetersInv, WiresInv, ClientStep, Fading, LapseStep, SidInv, ClientInv;
    forall x | x in v.clients ensures ClientInv(v, x) { assert ClientInv(w, x); LapseKeepsClients(w, c, x); }
    SilentKeepsAll(w, v, w.wires[c].owner);
  }

  lemma ShutsKeepsAll(w: World, d: Device)
    requires WorldInv(w) && d in w.clients
    ensures WorldInv(ShutStep(w, d))
  {
    var v := ShutStep(w, d);
    ShutFading(w, d);
    assert v.clients.Keys == w.clients.Keys;
    hide Inv, NamesInv, OpenedInv, MetersInv, WiresInv, ClientStep, Fading, ShutStep, SidInv, ClientInv;
    forall x | x in v.clients ensures ClientInv(v, x) {
      assert ClientInv(w, x) && ClientInv(w, d);
      ShutKeepsClients(w, d, x);
    }
    SilentKeepsAll(w, v, d);
  }

  lemma StrangerKeepsAll(w: World, c: Conn, m: ClientMsg)
    requires WorldInv(w) && Can(w, StrangerSends(c, m))
    ensures WorldInv(StrangerStep(w, c, m))
  {
    var v := StrangerStep(w, c, m);
    StrangerShape(w, c, m);
    hide Inv, NamesInv, OpenedInv, MetersInv, WiresInv, ClientStep, Fading, EndInv, SidInv, ClientInv, StrangerStep;
    forall x | x in v.clients ensures ClientInv(v, x) { assert ClientInv(w, x); OthersKeepClient(w, v, x); }
    forall sid ensures SidInv(v, sid) { assert SidInv(w, sid); StrangerKeepsSid(w, c, m, sid); }
    ClientKeepsAll(w, v);
  }

  lemma EstablishKeepsAll(w: World, c: Conn, serial: nat)
    requires WorldInv(w) && Can(w, Established(c, serial))
    ensures WorldInv(EstablishStep(w, c, serial))
  {
    var v := EstablishStep(w, c, serial);
    hide Inv, NamesInv, OpenedInv, MetersInv, WiresInv, ClientStep, Fading, EndInv, SidInv, ClientInv, EstablishStep;
    EstablishShape(w, c, serial);
    forall x | x in v.clients ensures ClientInv(v, x) { assert ClientInv(w, x); EstablishKeepsClients(w, c, serial, x); }
    forall sid ensures SidInv(v, sid) { assert SidInv(w, sid); EstablishKeepsSid(w, c, serial, sid); }
    ClientKeepsAll(w, v);
  }

  lemma ReadsKeepsAll(w: World, c: Conn)
    requires WorldInv(w) && Can(w, Reads(c))
    ensures WorldInv(ReadStep(w, c))
  {
    assert c in w.wires && c in w.server.socks && w.wires[c].ready == Up && w.wires[c].downRead < |w.server.socks[c].sent|;
    hide Can, ReadStep, EndInv, SidInv, NamesInv, OpenedInv, MetersInv, WiresInv, ClientInv, Inv;
    var v := ReadStep(w, c);
    ReadClientStep(w, c);
    ReadSameUp(w, c);
    forall x | x in v.clients ensures ClientInv(v, x) { assert ClientInv(w, x); ReadKeepsClients(w, c, x); }
    forall sid ensures SidInv(v, sid) { assert SidInv(w, sid); ReadsKeepsSid(w, c, sid); }
    ClientKeepsAll(w, v);
  }

  lemma ReadSameUp(w: World, c: Conn)
    requires c in w.wires && c in w.server.socks && w.wires[c].downRead < |w.server.socks[c].sent|
    ensures var v := ReadStep(w, c); forall x :: x in w.wires ==> x in v.wires && v.wires[x].up == w.wires[x].up
  {
    hide Relay.Receive;
  }

  lemma DialKeepsAll(w: World, d: Device, c: Conn, now: int)
    requires WorldInv(w) && Can(w, Dialled(d, c, now))
    ensures WorldInv(DialStep(w, d, c, now))
  {
    assert SessionsProper(w.server);
    AcceptKeepsInv(w.server, c, now);
    hide EndInv, SidInv, NamesInv, OpenedInv, MetersInv, WiresInv, ClientInv, Inv, SessionsProper;
    var v := DialStep(w, d, c, now);
    DialKeepsGlobals(w, d, c, now);
    assert v.server == Accept(w.server, c, now) && v.clients.Keys == w.clients.Keys;
    hide DialStep, Accept;
    forall x | x in v.clients ensures ClientInv(v, x) {
      assert ClientInv(w, x) && (d in w.clients ==> ClientInv(w, d));
      DialKeepsClients(w, d, c, now, x);
    }
    forall sid ensures SidInv(v, sid) { assert SidInv(w, sid); DialKeepsSid(w, d, c, now, sid); }
  }

  lemma DialKeepsGlobals(w: World, d: Device, c: Conn, now: int)
    requires WiresInv(w) && NamesInv(w) && OpenedInv(w) && MetersInv(w) && c !in w.wires && c !in w.server.socks
    ensures var v := DialStep(w, d, c, now); WiresInv(v) && NamesInv(v) && OpenedInv(v) && MetersInv(v)
  {
    DialWires(w, d, c, now);
    DialKeepsKnown(w, d, c, now);
    DialKeepsNames(w, d, c, now);
    hide DialStep, NamesInv, OpenedInv, WiresInv;
  }

  lemma DialKeepsNames(w: World, d: Device, c: Conn, now: int)
    requires WiresInv(w) && NamesInv(w) && MetersInv(w) && c !in w.wires && c !in w.server.socks
    requires WiresInv(DialStep(w, d, c, now))
    ensures var v := DialStep(w, d, c, now); NamesInv(v) && MetersInv(v)
  {
    DialShape(w, d, c, now);
    DialKeepsMeters(w, d, c, now);
    hide DialStep, MetersInv;
  }

  lemma DialKeepsMeters(w: World, d: Device, c: Conn, now: int)
    requires WiresInv(w) && MetersInv(w) && c !in w.wires && c !in w.server.socks && WiresInv(DialStep(w, d, c, now))
    ensures MetersInv(DialStep(w, d, c, now))
  {
    assert w.wires.Keys == w.server.socks.Keys;
    hide Metered, WiresInv, DialStep;
    var v := DialStep(w, d, c, now);
    DialShape(w, d, c, now);
    MeteredNew(d, now);
    forall x | x in w.wires ensures Metered(v.wires[x], v.server.socks[x]) {
      assert Metered(w.wires[x], w.server.socks[x]);
    }
  }

  lemma DialShape(w: World, d: Device, c: Conn, now: int)
    requires w.wires.Keys == w.server.socks.Keys && c !in w.wires
    ensures var v := DialStep(w, d, c, now);
            && v.wires.Keys == v.server.socks.Keys == w.wires.Keys + {c} && v.clients.Keys == w.clients.Keys
            && v.wires[c] == Wire(d, Dialing, [], now, [], 0) && v.server.socks[c] == Socket(Open, None, 0, now, now, [])
            && forall x :: x in w.wires ==> v.wires[x] == w.wires[x] && v.server.socks[x] == w.server.socks[x]
  {
  }

  lemma MeteredNew(d: Device, now: int)
    ensures Metered(Wire(d, Dialing, [], now, [], 0), Socket(Open, None, 0, now, now, []))
  {
  }

  lemma DialKeepsKnown(w: World, d: Device, c: Conn, now: int)
    requires OpenedInv(w) && c !in w.server.socks
    ensures OpenedInv(DialStep(w, d, c, now))
  {
    var v := DialStep(w, d, c, now);
    forall sid | sid in v.known ensures Apart(v.server, v.known[sid]) {
      ApartStays(w.server, v.server, w.known[sid]);
    }
  }

  /** Every step of the world keeps its invariant. */
  lemma NextKeepsAll(w: World, e: Happening)
    requires WorldInv(w) && Can(w, e)
    ensures WorldInv(Next(w, e))
  {
    hide WorldInv;
    match e
    case Dialled(d, c, now) => DialKeepsAll(w, d, c, now);
    case Reads(c) => ReadsKeepsAll(w, c);
    case Serves(c, now, reg, uuid) => ServesKeepsAll(w, c, now, reg, uuid);
    case Drops(c, order, now) => DropsKeepsAll(w, c, order, now);
    case HangsUp(c) => HangsUpKeepsAll(w, c);
    case Sweeps(reg) => SweepsKeepsAll(w, reg);
    case Sends(d, sid, payload) => SendsKeepsAll(w, d, sid, payload);
    case Listens(d, sid) => ListensKeepsAll(w, d, sid);
    case Closes(d, sid) => ClosesKeepsAll(w, d, sid);
    case Requests(d, target) =>
      var r := Relay.RequestSession(w.clients[d], target, CanSend(w, d));
      AsksKeepsAll(w, d, r.0, r.1);
    case Pings(d) => AsksKeepsAll(w, d, w.clients[d], if CanSend(w, d) then [Ping] else []);
    case Fades(c) => FadesKeepsAll(w, c);
    case Lapses(c) => LapsesKeepsAll(w, c);
    case Shuts(d) => ShutsKeepsAll(w, d);
    case StrangerSends(c, m) => StrangerKeepsAll(w, c, m);
    case Established(c, serial) => EstablishKeepsAll(w, c, serial);
  }

  lemma DropsKeepsAll(w: World, c: Conn, order: seq<Sid>, now: int)
    requires WorldInv(w) && Can(w, Drops(c, order, now))
    ensures WorldInv(w.(server := OnClose(w.server, c, order, now)))
  {
    assert Inv(w.server) && c in w.server.socks && Lists(order, SessionsOf(w.server, c));
    hide WorldInv, Can, Inv, OnClose, Lists;
    CloseKeepsInv(w.server, c, order, now);
    CloseShape(w.server, c, order, now);
    PlainClose(w.server, c, order, now);
    CloseSameMeters(w.server, c, order, now);
    hide Plain, SameMeters;
    AloneKeepsAll(w, OnClose(w.server, c, order, now));
  }

  lemma HangsUpKeepsAll(w: World, c: Conn)
    requires WorldInv(w)
    ensures WorldInv(w.(server := Hangup(w.server, c)))
  {
    assert Inv(w.server);
    hide WorldInv, Inv;
    HangupShape(w.server, c);
    hide Hangup, Plain, SameMeters;
    AloneKeepsAll(w, Hangup(w.server, c));
  }

  lemma HangupShape(s: Server, c: Conn)
    ensures var t := Hangup(s, c);
            Plain(s, t) && SameMeters(s, t) && forall x :: x in s.socks ==> t.socks[x].caller == s.socks[x].caller
    ensures Inv(s) ==> Inv(Hangup(s, c))
  {
    hide Inv;
    PlainHangup(s, c);
    ReplySameMeters(s, c, Pong);
    CalmHangup(s, c);
    if Inv(s) { CalmKeepsInv(s, Hangup(s, c)); }
  }

  lemma SweepsKeepsAll(w: World, reg: Registry)
    requires WorldInv(w)
    ensures WorldInv(w.(server := DropBlocked(w.server, reg)))
  {
    assert Inv(w.server);
    hide WorldInv, Inv;
    SweepShape(w.server, reg);
    hide DropBlocked;
    StepKeepsInv(w.server, Swept(reg));
    hide Plain, SameMeters;
    AloneKeepsAll(w, DropBlocked(w.server, reg));
  }

  lemma SweepShape(s: Server, reg: Registry)
    ensures var t := DropBlocked(s, reg);
            Plain(s, t) && SameMeters(s, t) && forall x :: x in s.socks ==> t.socks[x].caller == s.socks[x].caller
  {
  }

  // ---- every run -----------------------------------------------------------------------------

  ghost predicate Reaches(w: World, es: seq<Happening>, v: World)
    decreases |es|
  {
    if es == [] then v == w
    else Can(w, es[0]) && Reaches(Next(w, es[0]), es[1..], v)
  }

  /** The start: an empty server, and the relay clients of some devices, not connected. */
  predicate Start(w: World) {
    && w.server == Server(map[], map[], map[]) && w.wires == map[] && w.known == map[]
    && forall d :: d in w.clients ==> w.clients[d] == Relay.IDLE
  }

  lemma {:induction false} ReachesKeeps(w: World, es: seq<Happening>, v: World)
    requires WorldInv(w) && Reaches(w, es, v)
    ensures WorldInv(v)
    decreases |es|
  {
    if es != [] {
      NextKeepsAll(w, es[0]);
      ReachesKeeps(Next(w, es[0]), es[1..], v);
    }
  }

  lemma StartHolds(w: World)
    requires Start(w)
    ensures WorldInv(w)
  {
    forall c ensures WithinCap(w.server, c) {
      assert SessionsOf(w.server, c) == {};
    }
  }

  /** End to end, in every run: on each session, what one end's link has taken is, in order and each
      at most once, some of what the other end's link sent: the first of those that the server did
      not refuse. */
  lemma InOrderEverywhere(w: World, es: seq<Happening>, v: World, sid: Sid, from: Conn, to: Conn)
    requires Start(w) && Reaches(w, es, v)
    requires sid in v.known && v.known[sid].Joins(from) && to == v.known[sid].Other(from)
    requires Honest(v, from) && Honest(v, to)
    ensures WiresInv(v)
    ensures Subseq(TakenAt(v, to, sid), SentAt(v, from, sid))
    ensures TakenAt(v, to, sid) <= HeardFrom(v, from, sid)
  {
    StartHolds(w);
    ReachesKeeps(w, es, v);
    hide SidInv, MetersInv, Inv, NamesInv, OpenedInv, ClientInv, Subseq, WiresInv, Reaches;
    DeliveredInOrder(v, sid, from, to);
    SubseqOfPrefix(TakenAt(v, to, sid), Offered(v.wires[from].up, sid), SentAt(v, from, sid));
  }

  /** While the session and the receiver's socket are open, what the server has put on that socket for
      it is exactly what it has read from the sender and not refused. */
  lemma RelayedExactly(w: World, es: seq<Happening>, v: World, sid: Sid, from: Conn, to: Conn)
    requires Start(w) && Reaches(w, es, v)
    requires sid in v.server.sessions && v.server.sessions[sid].Joins(from) && to == v.server.sessions[sid].Other(from)
    requires Honest(v, from) && to in v.server.socks && v.server.socks[to].ws == Open
    ensures WiresInv(v)
    ensures Accepts(v.server.socks[to].sent, sid) == Some(HeardFrom(v, from, sid))
  {
    StartHolds(w);
    ReachesKeeps(w, es, v);
    hide Reaches;
    RelayedIsHeard(v, sid, from, to);
  }

  /** Of the frames of a session that the server has read on a connection, which it let pass. */
  function PassedAt(w: World, from: Conn, sid: Sid): seq<bool>
    requires WiresInv(w) && from in w.wires
  {
    Flags(w.wires[from].since, w.wires[from].up, w.wires[from].times, sid)
  }

  /** It is the very beginning of what was sent if the server let pass the frames there, whatever
      else it refused; and where no two payloads are alike, only then. */
  lemma PrefixExactly(w: World, es: seq<Happening>, v: World, sid: Sid, from: Conn, to: Conn)
    requires Start(w) && Reaches(w, es, v)
    requires sid in v.known && v.known[sid].Joins(from) && to == v.known[sid].Other(from)
    requires Honest(v, from) && Honest(v, to)
    ensures WiresInv(v) && |TakenAt(v, to, sid)| <= |PassedAt(v, from, sid)|
    ensures var passed := PassedAt(v, from, sid)[..|TakenAt(v, to, sid)|];
            && (false !in passed ==> TakenAt(v, to, sid) <= SentAt(v, from, sid))
            && (Different(SentAt(v, from, sid)) ==>
                  (TakenAt(v, to, sid) <= SentAt(v, from, sid) <==> false !in passed))
  {
    InOrderEverywhere(w, es, v, sid, from, to);
    StartHolds(w);
    ReachesKeeps(w, es, v);
    hide SidInv, MetersInv, Inv, NamesInv, OpenedInv, ClientInv, Subseq, Reaches, Offered, Heard, Flags, TakenAt, SentAt;
    DeliveredInOrder(v, sid, from, to);
    hide WorldInv, WiresInv, HeardFrom;
    FirstOfHeard(v, sid, from, TakenAt(v, to, sid), SentAt(v, from, sid));
  }

  lemma FirstOfHeard(v: World, sid: Sid, from: Conn, taken: seq<Payload>, sent: seq<Payload>)
    requires WiresInv(v) && from in v.wires && taken <= HeardFrom(v, from, sid) && Offered(v.wires[from].up, sid) <= sent
    ensures |taken| <= |PassedAt(v, from, sid)|
    ensures var passed := PassedAt(v, from, sid)[..|taken|];
            && (false !in passed ==> taken <= sent)
            && (Different(sent) ==> (taken <= sent <==> false !in passed))
  {
    hide Offered, Heard, Flags, Different;
    var x := v.wires[from];
    OfferedGrows(x.up, |x.times|, sid);
    HeardPrefix(x.since, x.up, x.times, sid, |taken|);
    assert HeardFrom(v, from, sid)[..|taken|] == taken;
    PrefixOfSome(taken, Offered(x.up[..|x.times|], sid), sent);
    NoFalse(PassedAt(v, from, sid), |taken|);
    if Different(sent) { DifferentPrefix(Offered(x.up[..|x.times|], sid), sent); }
  }

  lemma PrefixOfSome(a: seq<Payload>, b: seq<Payload>, c: seq<Payload>)
    requires b <= c && |a| <= |b|
    ensures a <= b <==> a <= c
  {
  }

  lemma DifferentPrefix(a: seq<Payload>, b: seq<Payload>)
    requires a <= b && Different(b)
    ensures Different(a)
  {
  }

  lemma NoFalse(flags: seq<bool>, k: nat)
    requires k <= |flags|
    ensures false !in flags[..k] <==> forall i :: 0 <= i < k ==> flags[i]
  {
    if forall i :: 0 <= i < k ==> flags[i] {
      assert false !in flags[..k];
    }
    if false !in flags[..k] {
      forall i | 0 <= i < k ensures flags[i] { assert flags[..k][i] == flags[i]; }
    }
  }

  /** And while the session, its links and its sockets are open, nothing of it is lost. */
  lemma NothingLostEverywhere(w: World, es: seq<Happening>, v: World, sid: Sid, from: Conn, to: Conn)
    requires Start(w) && Reaches(w, es, v)
    requires sid in v.server.sessions && v.server.sessions[sid].Joins(from) && to == v.server.sessions[sid].Other(from)
    requires Honest(v, from) && Honest(v, to) && v.wires[from].ready == Up
    requires from in v.server.socks && v.server.socks[from].ws == Open
    requires to in v.server.socks && v.server.socks[to].ws == Open
    requires LinkAt(v, to, sid).Some? ==> !LinkAt(v, to, sid).value.closed
    ensures WiresInv(v)
    ensures SentAt(v, from, sid) == TakenAt(v, to, sid) + InFlightDown(v, to, sid) + InFlightUp(v, from, sid)
  {
    StartHolds(w);
    ReachesKeeps(w, es, v);
    hide Reaches;
    NothingLost(v, sid, from, to);
  }

  /** Whoever sends what: a payload taken on a session is taken by one of its two ends, and was put on
      its socket, for that very session, by the other; in the order and at most as often as it was put there. */
  lemma NothingCrossesEverywhere(w: World, es: seq<Happening>, v: World, sid: Sid, c: Conn)
    requires Start(w) && Reaches(w, es, v) && TakenAt(v, c, sid) != []
    ensures sid in v.known && v.known[sid].Joins(c)
    ensures var from := v.known[sid].Other(c);
            from in v.wires && from != c && Subseq(TakenAt(v, c, sid), Offered(v.wires[from].up, sid))
  {
    StartHolds(w);
    ReachesKeeps(w, es, v);
    hide Reaches;
    NothingCrosses(v, sid, c);
    hide WorldInv;
    DeliveredInOrder(v, sid, v.known[sid].Other(c), c);
  }
}
