/** Every step of the relay world keeps its invariant, so every run has the delivery properties. */
module RelayRuns {
  import opened Wrappers
  import opened Rendezvous
  import opened Signaling
  import opened ServerInvariants
  import opened ServerRouting
  import opened RateLimit
  import opened RelayWorld
  import Relay

  // ---- steps of the server ---------------------------------------------------------------

  lemma PlainIsQuiet(s: Server, t: Server, sid: Sid)
    requires Plain(s, t)
    ensures Quiet(s, t, sid)
  {
  }

  lemma QuietTold(s: Server, t: Server, known: map<Sid, Session>, more: map<Sid, Session>, sid: Sid, c: Conn)
    requires Quiet(s, t, sid) && c in s.socks && Told(s, known, sid, c)
    requires sid in known ==> sid in more && more[sid] == known[sid]
    ensures Told(t, more, sid, c)
  {
    var h, g := s.socks[c].sent, t.socks[c].sent;
    AcceptsQuiet(h, g, sid);
    forall i | 0 <= i < |g| && g[i].SessionOpened? && g[i].sid == sid ensures Accepts(g[..i], sid).None? {
      assert About(g[i], sid);
      assert g[..i] == h[..i];
    }
  }

  lemma OpensOnceNext(h: seq<ServerMsg>, m: ServerMsg, sid: Sid)
    requires OpensOnce(h, sid) && (m.SessionOpened? && m.sid == sid ==> Accepts(h, sid).None?)
    ensures OpensOnce(h + [m], sid)
  {
    var g := h + [m];
    forall i | 0 <= i < |g| && g[i].SessionOpened? && g[i].sid == sid ensures Accepts(g[..i], sid).None? {
      assert g[..i] == h[..i];
      assert h[..|h|] == h;
    }
  }

  /** A server step: clients and what they wrote stay, at most one message is read. */
  ghost predicate ServerStep(w: World, v: World) {
    && v.clients == w.clients && v.wires.Keys == w.wires.Keys
    && forall c :: c in w.wires ==>
         && v.wires[c] == w.wires[c].(times := v.wires[c].times)
         && (v.wires[c].times == w.wires[c].times || ReadsAny(w, v, c))
  }

  predicate ReadsAny(w: World, v: World, c: Conn)
    requires c in w.wires && c in v.wires
  {
    && |v.wires[c].times| == |w.wires[c].times| + 1 && w.wires[c].times == v.wires[c].times[..|w.wires[c].times|]
    && |w.wires[c].times| < |w.wires[c].up|
  }

  predicate ReadsFrame(w: World, v: World, sid: Sid, c: Conn)
    requires c in w.wires && c in v.wires
  {
    ReadsAny(w, v, c) && IsFrame(w.wires[c].up[|w.wires[c].times|], sid)
  }

  /** The message read on this connection passed. */
  predicate ReadPassed(w: World, v: World, c: Conn)
    requires c in w.wires && c in v.wires && ReadsAny(w, v, c)
  {
    var x := w.wires[c];
    Passes(MeterAfter(x.since, x.up, x.times), x.up[|x.times|], v.wires[c].times[|x.times|])
  }

  lemma ReadSoFar(w: World, v: World, sid: Sid, c: Conn)
    requires WiresInv(w) && WiresInv(v) && ServerStep(w, v) && c in w.wires
    ensures Offered(v.wires[c].up[..|v.wires[c].times|], sid) ==
            Offered(w.wires[c].up[..|w.wires[c].times|], sid) +
            if ReadsFrame(w, v, sid, c) then [w.wires[c].up[|w.wires[c].times|].payload] else []
    ensures HeardFrom(v, c, sid) ==
            HeardFrom(w, c, sid) +
            if ReadsFrame(w, v, sid, c) && ReadPassed(w, v, c) then [w.wires[c].up[|w.wires[c].times|].payload] else []
  {
    var x := w.wires[c];
    if ReadsAny(w, v, c) {
      var k := |x.times|;
      assert x.up[..k + 1] == x.up[..k] + [x.up[k]];
      OfferedNext(x.up[..k], x.up[k], sid);
      ReadOne(x.since, x.up, x.times, v.wires[c].times[k], sid);
      assert v.wires[c].times == x.times + [v.wires[c].times[k]];
    }
    hide Offered, Heard, MeterAfter;
  }

  /** What was relayed of a session, before and after reading one more message for it. */
  lemma DrawnGoesOn(relayed: seq<Payload>, offered: seq<Payload>, more: seq<Payload>)
    requires Subseq(relayed, offered)
    ensures Subseq(relayed, offered + more)
    ensures |more| == 1 ==> Subseq(relayed + more, offered + more)
  {
    SubseqMore(relayed, offered, more);
    if |more| == 1 {
      SubseqBoth(relayed, offered, more[0]);
      assert more == [more[0]];
    }
  }

  lemma LinksStay(w: World, v: World, sid: Sid, c: Conn)
    requires WiresInv(w) && WiresInv(v) && ServerStep(w, v) && c in w.wires
    requires w.server.socks[c].sent <= v.server.socks[c].sent
    requires Honest(w, c) ==> LinkTakes(w, sid, c) && LinkQueues(w, sid, c)
    ensures Honest(v, c) ==> LinkTakes(v, sid, c) && LinkQueues(v, sid, c)
  {
    assert v.server.socks[c].sent[..w.wires[c].downRead] == w.server.socks[c].sent[..w.wires[c].downRead];
  }

  /** Quiet steps keep what is known of a session at each end, provided no frame of a live session
      that passes is read in vain. */
  lemma QuietEnd(w: World, v: World, sid: Sid, c: Conn)
    requires WiresInv(w) && WiresInv(v) && ServerStep(w, v) && Quiet(w.server, v.server, sid) && c in w.wires
    requires sid in w.known ==> sid in v.known && v.known[sid] == w.known[sid]
    requires sid in v.known ==> sid in w.known
    requires EndInv(w, sid, c)
    requires ReadsFrame(w, v, sid, c) && sid in w.known && w.known[sid].Joins(c) ==>
               !ReadPassed(w, v, c) || sid !in v.server.sessions
    ensures EndInv(v, sid, c)
  {
    QuietTold(w.server, v.server, w.known, v.known, sid, c);
    LinksStay(w, v, sid, c);
    hide Told, LinkTakes, LinkQueues;
    if sid in v.known && v.known[sid].Joins(c) {
      QuietRouted(w, v, sid, c);
    }
  }

  lemma QuietRouted(w: World, v: World, sid: Sid, c: Conn)
    requires WiresInv(w) && WiresInv(v) && ServerStep(w, v) && Quiet(w.server, v.server, sid) && c in w.wires
    requires sid in w.known && sid in v.known && v.known[sid] == w.known[sid]
    requires Drawn(w, sid, c) && (Honest(w, c) ==> Routed(w, sid, c))
    requires ReadsFrame(w, v, sid, c) ==> !ReadPassed(w, v, c) || sid !in v.server.sessions
    ensures Drawn(v, sid, c) && (Honest(v, c) ==> Routed(v, sid, c))
  {
    ReadSoFar(w, v, sid, c);
    var to := w.known[sid].Other(c);
    if to in v.server.socks {
      AcceptsQuiet(w.server.socks[to].sent, v.server.socks[to].sent, sid);
      if Accepts(v.server.socks[to].sent, sid).Some? {
        DrawnGoesOn(Accepts(w.server.socks[to].sent, sid).value, Offered(w.wires[c].up[..|w.wires[c].times|], sid),
                    if ReadsFrame(w, v, sid, c) then [w.wires[c].up[|w.wires[c].times|].payload] else []);
      }
    }
    hide Accepts, Offered, HeardFrom, ReadPassed, ReadsAny, WiresInv, Subseq;
  }

  // ---- the server reads a message ------------------------------------------------------------

  lemma {:induction false} FrameUnheard(w: World, sid: Sid, c: Conn)
    requires WiresInv(w) && sid !in w.known && c in w.wires && Honest(w, c) && EndInv(w, sid, c)
    ensures HeardFrom(w, c, sid) == []
  {
    AcceptsGrows(w.server.socks[c].sent, w.wires[c].downRead, sid);
    OfferedGrows(w.wires[c].up, |w.wires[c].times|, sid);
    HeardAtTrues(w.wires[c].since, w.wires[c].up, w.wires[c].times, sid);
  }

  /** A new session starts with nothing relayed and nothing read for it. */
  lemma IntroducedEnd(w: World, v: World, sid: Sid, e: Session, c: Conn)
    requires WiresInv(w) && WiresInv(v) && ServerStep(w, v) && c in w.wires
    requires sid !in w.known && v.known == w.known[sid := e]
    requires v.server.sessions == w.server.sessions[sid := e]
    requires EndInv(w, sid, c) && e.Other(c) in w.wires && EndInv(w, sid, e.Other(c))
    requires Introduced(w.server.socks, v.server.socks, sid, e, c)
    requires e.Joins(c) ==> Introduced(w.server.socks, v.server.socks, sid, e, e.Other(c)) && e.Joins(e.Other(c))
    requires !ReadsFrame(w, v, sid, c)
    ensures EndInv(v, sid, c)
  {
    hide LinkTakes, LinkQueues, Told, Drawn, Routed, ServerStep, ReadsFrame;
    LinksStay(w, v, sid, c);
    IntroducedTold(w.server, v.server, w.known, sid, e, c);
    if e.Joins(c) {
      IntroducedTold(w.server, v.server, w.known, sid, e, e.Other(c));
      IntroducedRouted(w, v, sid, e, c);
    }
  }

  lemma IntroducedRouted(w: World, v: World, sid: Sid, e: Session, c: Conn)
    requires WiresInv(w) && WiresInv(v) && ServerStep(w, v) && c in w.wires && EndInv(w, sid, c)
    requires sid !in w.known && v.known == w.known[sid := e] && !ReadsFrame(w, v, sid, c)
    requires e.Other(c) in v.server.socks
    requires var relayed := Accepts(v.server.socks[e.Other(c)].sent, sid); relayed.Some? ==> relayed.value == []
    ensures Drawn(v, sid, c) && (Honest(v, c) ==> Routed(v, sid, c))
  {
    hide EndInv, Accepts, Offered, HeardFrom, Subseq, ReadPassed, ReadsAny;
    ReadSoFar(w, v, sid, c);
    if Honest(w, c) { FrameUnheard(w, sid, c); }
    SubseqNone(Offered(v.wires[c].up[..|v.wires[c].times|], sid));
    hide WiresInv;
  }

  /** An end of the new session whose socket is open is told; nobody else is. */
  predicate Introduced(s: Sockets, t: Sockets, sid: Sid, e: Session, x: Conn) {
    && x in s && x in t && t[x].ws == s[x].ws
    && if e.Joins(x) && s[x].ws == Open
       then
         && |t[x].sent| == |s[x].sent| + 1 && t[x].sent[..|s[x].sent|] == s[x].sent
         && t[x].sent[|s[x].sent|].SessionOpened? && t[x].sent[|s[x].sent|].sid == sid
       else t[x].sent == s[x].sent
  }

  lemma IntroducedTold(s: Server, t: Server, known: map<Sid, Session>, sid: Sid, e: Session, x: Conn)
    requires Introduced(s.socks, t.socks, sid, e, x) && sid !in known && Told(s, known, sid, x)
    requires t.sessions == s.sessions[sid := e]
    ensures Told(t, known[sid := e], sid, x)
    ensures Accepts(t.socks[x].sent, sid).Some? ==> Accepts(t.socks[x].sent, sid).value == []
  {
    var h, g := s.socks[x].sent, t.socks[x].sent;
    if g != h {
      var m := g[|h|];
      assert g == h + [m];
      AcceptsNext(h, m, sid);
      OpensOnceNext(h, m, sid);
    }
  }

  /** A routed frame is read at one end and put on the other. */
  lemma RoutedEnd(w: World, v: World, sid: Sid, from: Conn, payload: Payload, c: Conn)
    requires WiresInv(w) && WiresInv(v) && ServerStep(w, v) && c in w.wires && v.known == w.known
    requires sid in w.known && sid in w.server.sessions && w.server.sessions[sid] == w.known[sid]
    requires w.known[sid].a != w.known[sid].b && w.known[sid].Joins(from) && from in w.wires
    requires |w.wires[from].times| < |w.wires[from].up| && Message(w, from) == Frame(sid, payload)
    requires EndInv(w, sid, c) && v.server.sessions == w.server.sessions
    requires Carried(w.server.socks, v.server.socks, w.known[sid].Other(from), Relayed(sid, payload), c)
    requires w.known[sid].Joins(c) ==>
               Carried(w.server.socks, v.server.socks, w.known[sid].Other(from), Relayed(sid, payload), w.known[sid].Other(c))
    requires (ReadsFrame(w, v, sid, c) <==> c == from) && (c == from ==> ReadPassed(w, v, c))
    ensures EndInv(v, sid, c)
  {
    var m := Relayed(sid, payload);
    LinksStay(w, v, sid, c);
    RoutedTold(w.server, v.server, w.known, sid, c, m);
    if v.known[sid].Joins(c) {
      CarriedRouted(w, v, sid, from, payload, c);
    }
    hide Told, LinkTakes, LinkQueues, Drawn, Routed;
  }

  lemma CarriedRouted(w: World, v: World, sid: Sid, from: Conn, payload: Payload, c: Conn)
    requires WiresInv(w) && WiresInv(v) && ServerStep(w, v) && c in w.wires && v.known == w.known
    requires sid in w.known && w.known[sid].Joins(c) && w.known[sid].Joins(from) && w.known[sid].a != w.known[sid].b
    requires sid in w.server.sessions && v.server.sessions == w.server.sessions && w.server.sessions[sid] == w.known[sid]
    requires from in w.wires && |w.wires[from].times| < |w.wires[from].up| && Message(w, from) == Frame(sid, payload)
    requires Told(w.server, w.known, sid, c)
    requires Drawn(w, sid, c) && (Honest(w, c) ==> Routed(w, sid, c))
    requires Carried(w.server.socks, v.server.socks, w.known[sid].Other(from), Relayed(sid, payload), w.known[sid].Other(c))
    requires (ReadsFrame(w, v, sid, c) <==> c == from) && (c == from ==> ReadPassed(w, v, c))
    ensures Drawn(v, sid, c) && (Honest(v, c) ==> Routed(v, sid, c))
  {
    var to := w.known[sid].Other(c);
    ReadSoFar(w, v, sid, c);
    AcceptsNext(w.server.socks[to].sent, Relayed(sid, payload), sid);
    if Accepts(w.server.socks[to].sent, sid).Some? {
      DrawnGoesOn(Accepts(w.server.socks[to].sent, sid).value, Offered(w.wires[c].up[..|w.wires[c].times|], sid),
                  if c == from then [payload] else []);
    }
    hide Told, Accepts, Offered, HeardFrom, ReadPassed, ReadsAny, WiresInv, Subseq;
  }

  /** Message `m` goes to `to`, if its socket is open; here is what that makes of socket `x`. */
  predicate Carried(s: Sockets, t: Sockets, to: Conn, m: ServerMsg, x: Conn) {
    && x in s && x in t && t[x].ws == s[x].ws
    && t[x].sent == if x == to && s[x].ws == Open then s[x].sent + [m] else s[x].sent
  }

  lemma RoutedTold(s: Server, t: Server, known: map<Sid, Session>, sid: Sid, c: Conn, m: ServerMsg)
    requires c in s.socks && c in t.socks && Told(s, known, sid, c) && m.Relayed?
    requires t.sessions == s.sessions && t.socks[c].ws == s.socks[c].ws
    requires t.socks[c].sent == s.socks[c].sent || t.socks[c].sent == s.socks[c].sent + [m]
    ensures Told(t, known, sid, c)
  {
    AcceptsNext(s.socks[c].sent, m, sid);
    OpensOnceNext(s.socks[c].sent, m, sid);
  }

  // ---- the server reads a message ------------------------------------------------------------

  function Message(w: World, c0: Conn): ClientMsg
    requires c0 in w.wires && |w.wires[c0].times| < |w.wires[c0].up|
  {
    w.wires[c0].up[|w.wires[c0].times|]
  }

  /** What reading one message does outside the server. */
  ghost predicate Served(w: World, v: World, c0: Conn, now: int, uuid: Sid) {
    && c0 in w.wires && c0 in w.server.socks && |w.wires[c0].times| < |w.wires[c0].up| && ServerStep(w, v)
    && v.known == (if uuid in v.server.sessions then w.known[uuid := v.server.sessions[uuid]] else w.known)
    && v.wires[c0].times == w.wires[c0].times + [now]
    && forall c, sid :: c in w.wires ==>
         (ReadsFrame(w, v, sid, c) <==> c == c0 && Message(w, c0).Frame? && Message(w, c0).sid == sid)
  }

  lemma ServeStepServes(w: World, c0: Conn, now: int, reg: Registry, uuid: Sid)
    requires WiresInv(w) && c0 in w.wires && |w.wires[c0].times| < |w.wires[c0].up|
    ensures Served(w, ServeStep(w, c0, now, reg, uuid), c0, now, uuid)
  {
    hide OnMessage;
  }

  /** The message passes exactly if the server acts on it. */
  lemma ServedPasses(w: World, v: World, c0: Conn, now: int, uuid: Sid)
    requires WiresInv(w) && MetersInv(w) && Served(w, v, c0, now, uuid)
    ensures ReadsAny(w, v, c0)
    ensures ReadPassed(w, v, c0) <==> Handled(w.server, c0, Message(w, c0), now) && !Unreadable(Message(w, c0))
  {
    assert Metered(w.wires[c0], w.server.socks[c0]);
    PassesIsHandled(w.server, c0, Message(w, c0), now);
    hide Passes, Handled, MeterAfter, Clean;
  }

  lemma IntroducedPeer(s: Server, c: Conn, m: ClientMsg, now: int, reg: Registry)
    requires c in s.socks && OnlineLive(s) && Introduces(s, c, m, now, reg)
    ensures m.target in s.online && s.online[m.target] != c && s.online[m.target] in s.socks
    ensures Apart(s, Session(c, s.online[m.target]))
  {
  }

  lemma IntroductionIsQuiet(s: Server, c: Conn, m: ClientMsg, now: int, reg: Registry, uuid: Sid, sid: Sid)
    requires c in s.socks && OnlineLive(s) && Introduces(s, c, m, now, reg) && sid != uuid
    ensures Quiet(s, OnMessage(s, c, m, now, reg, uuid), sid)
  {
    hide OnMessage, Introduces, OnlineLive;
    IntroducedPeer(s, c, m, now, reg);
    IntroductionEffect(s, c, m, now, reg, uuid);
  }

  lemma IntroductionTells(s: Server, c: Conn, m: ClientMsg, now: int, reg: Registry, uuid: Sid, x: Conn)
    requires c in s.socks && OnlineLive(s) && Introduces(s, c, m, now, reg) && x in s.socks
    ensures m.target in s.online
    ensures var t := OnMessage(s, c, m, now, reg, uuid);
            var e := Session(c, s.online[m.target]);
            && Introduced(s.socks, t.socks, uuid, e, x) && t.sessions == s.sessions[uuid := e]
  {
    hide OnMessage, Introduces, OnlineLive;
    IntroducedPeer(s, c, m, now, reg);
    IntroductionEffect(s, c, m, now, reg, uuid);
  }

  lemma IntroducesKeepsEnd(w: World, v: World, c0: Conn, now: int, reg: Registry, uuid: Sid, sid: Sid, c: Conn)
    requires WiresInv(w) && WiresInv(v) && Served(w, v, c0, now, uuid) && OnlineLive(w.server) && SidInv(w, sid)
    requires uuid !in w.known && uuid !in w.server.sessions
    requires Introduces(w.server, c0, Message(w, c0), now, reg) && c in w.wires
    requires v.server == OnMessage(w.server, c0, Message(w, c0), now, reg, uuid)
    ensures EndInv(v, sid, c)
  {
    hide OnMessage, EndInv, OnlineLive, Quiet, Introduced;
    var m := Message(w, c0);
    IntroducedPeer(w.server, c0, m, now, reg);
    assert !ReadsFrame(w, v, sid, c);
    assert EndInv(w, sid, c);
    hide Introduces;
    var p := w.server.online[m.target];
    var e := Session(c0, p);
    IntroductionTells(w.server, c0, m, now, reg, uuid, c);
    if sid == uuid {
      assert EndInv(w, sid, e.Other(c));
      IntroductionTells(w.server, c0, m, now, reg, uuid, e.Other(c));
      IntroducedEnd(w, v, sid, e, c);
    } else {
      IntroductionIsQuiet(w.server, c0, m, now, reg, uuid, sid);
      QuietEnd(w, v, sid, c);
    }
  }

  lemma RouteIsQuiet(s: Server, c: Conn, m: ClientMsg, now: int, reg: Registry, uuid: Sid, sid: Sid)
    requires c in s.socks && Routes(s, c, m, now) && sid != m.sid
    ensures Quiet(s, OnMessage(s, c, m, now, reg, uuid), sid)
  {
    hide OnMessage, Routes;
    RouteEffect(s, c, m, now, reg, uuid);
  }

  lemma RouteCarries(s: Server, c: Conn, m: ClientMsg, now: int, reg: Registry, uuid: Sid, x: Conn)
    requires c in s.socks && Routes(s, c, m, now) && x in s.socks
    ensures var t := OnMessage(s, c, m, now, reg, uuid);
            && t.sessions == s.sessions
            && Carried(s.socks, t.socks, s.sessions[m.sid].Other(c), Relayed(m.sid, m.payload), x)
  {
    hide OnMessage;
    RouteEffect(s, c, m, now, reg, uuid);
  }

  /** A routed frame passed, and its session is known. */
  lemma RoutedSession(w: World, v: World, c0: Conn, now: int, uuid: Sid)
    requires WiresInv(w) && MetersInv(w) && Served(w, v, c0, now, uuid) && OpenedInv(w)
    requires Routes(w.server, c0, Message(w, c0), now)
    ensures ReadsAny(w, v, c0) && ReadPassed(w, v, c0)
    ensures var sid := Message(w, c0).sid;
            && sid in w.known && sid in w.server.sessions && w.known[sid] == w.server.sessions[sid]
            && w.known[sid].Joins(c0) && w.known[sid].a != w.known[sid].b
            && forall c :: w.known[sid].Joins(c) ==> w.known[sid].Other(c) in w.server.socks
  {
    hide ReadPassed, ServerStep, WiresInv, MetersInv;
    ServedPasses(w, v, c0, now, uuid);
    assert Apart(w.server, w.known[Message(w, c0).sid]);
  }

  lemma RoutesKeepsEnd(w: World, v: World, c0: Conn, now: int, reg: Registry, uuid: Sid, sid: Sid, c: Conn)
    requires WiresInv(w) && MetersInv(w) && WiresInv(v) && Served(w, v, c0, now, uuid) && OpenedInv(w) && SidInv(w, sid)
    requires uuid !in w.server.sessions
    requires Routes(w.server, c0, Message(w, c0), now) && c in w.wires
    requires v.server == OnMessage(w.server, c0, Message(w, c0), now, reg, uuid)
    ensures EndInv(v, sid, c)
  {
    assert c in w.server.socks;
    hide OnMessage, EndInv, Carried, Quiet, ReadPassed, MetersInv, WiresInv, Routes, OpenedInv, ServerStep, ReadsFrame, ReadsAny;
    var m := Message(w, c0);
    assert EndInv(w, sid, c);
    hide SidInv;
    RouteCarries(w.server, c0, m, now, reg, uuid, c);
    if sid == m.sid {
      RoutedSession(w, v, c0, now, uuid);
      RoutesOwnEnd(w, v, c0, now, reg, uuid, c);
    } else {
      RouteIsQuiet(w.server, c0, m, now, reg, uuid, sid);
      QuietEnd(w, v, sid, c);
    }
  }

  /** The ends of the session the frame is of. */
  lemma RoutesOwnEnd(w: World, v: World, c0: Conn, now: int, reg: Registry, uuid: Sid, c: Conn)
    requires WiresInv(w) && WiresInv(v) && Served(w, v, c0, now, uuid) && c in w.wires
    requires Routes(w.server, c0, Message(w, c0), now) && v.known == w.known
    requires v.server == OnMessage(w.server, c0, Message(w, c0), now, reg, uuid)
    requires ReadsAny(w, v, c0) && ReadPassed(w, v, c0)
    requires var sid := Message(w, c0).sid;
             && sid in w.known && sid in w.server.sessions && w.known[sid] == w.server.sessions[sid]
             && w.known[sid].Joins(c0) && w.known[sid].a != w.known[sid].b && EndInv(w, sid, c)
             && (w.known[sid].Joins(c) ==> w.known[sid].Other(c) in w.server.socks)
    ensures EndInv(v, Message(w, c0).sid, c)
  {
    assert c in w.server.socks && Message(w, c0).Frame?;
    hide OnMessage, EndInv, Carried, Quiet, ReadPassed, WiresInv, Routes, ServerStep, ReadsFrame, ReadsAny;
    var m := Message(w, c0);
    RouteCarries(w.server, c0, m, now, reg, uuid, c);
    if w.known[m.sid].Joins(c) {
      RouteCarries(w.server, c0, m, now, reg, uuid, w.known[m.sid].Other(c));
    }
    RoutedEnd(w, v, m.sid, c0, m.payload, c);
  }

  lemma PlainKeepsUnknown(s: Server, t: Server, sid: Sid)
    requires Plain(s, t) && sid !in s.sessions
    ensures sid !in t.sessions
  {
  }

  /** A frame that passes and is not routed belongs to no open session. */
  lemma PlainReads(w: World, v: World, c0: Conn, now: int, reg: Registry, uuid: Sid, sid: Sid)
    requires WiresInv(w) && MetersInv(w) && Served(w, v, c0, now, uuid) && OpenedInv(w)
    requires !Routes(w.server, c0, Message(w, c0), now) && Plain(w.server, v.server)
    requires IsFrame(Message(w, c0), sid) && sid in w.known && w.known[sid].Joins(c0)
    ensures ReadsAny(w, v, c0) && (!ReadPassed(w, v, c0) || sid !in v.server.sessions)
  {
    ServedPasses(w, v, c0, now, uuid);
    assert Apart(w.server, w.known[sid]) && (sid in w.server.sessions ==> w.server.sessions[sid] == w.known[sid]);
    hide ReadPassed, MetersInv, WiresInv, ServerStep, Plain, OpenedInv;
    if ReadPassed(w, v, c0) { PlainKeepsUnknown(w.server, v.server, sid); }
  }

  lemma PlainKeepsEnd(w: World, v: World, c0: Conn, now: int, reg: Registry, uuid: Sid, sid: Sid, c: Conn)
    requires WiresInv(w) && MetersInv(w) && WiresInv(v) && Served(w, v, c0, now, uuid) && OpenedInv(w) && SidInv(w, sid)
    requires uuid !in w.server.sessions
    requires !Routes(w.server, c0, Message(w, c0), now) && !Introduces(w.server, c0, Message(w, c0), now, reg)
    requires c in w.wires && v.server == OnMessage(w.server, c0, Message(w, c0), now, reg, uuid)
    ensures EndInv(v, sid, c)
  {
    hide OnMessage, EndInv, Introduces, Routes, Quiet, Plain, ReadPassed, OpenedInv, MetersInv, WiresInv;
    PlainMessage(w.server, c0, Message(w, c0), now, reg, uuid);
    PlainKeepsUnknown(w.server, v.server, uuid);
    PlainIsQuiet(w.server, v.server, sid);
    assert EndInv(w, sid, c);
    hide SidInv;
    if c == c0 && IsFrame(Message(w, c0), sid) && sid in w.known && w.known[sid].Joins(c) {
      PlainReads(w, v, c0, now, reg, uuid, sid);
    }
    QuietEnd(w, v, sid, c);
  }

  lemma ServesKeepsSid(w: World, c0: Conn, now: int, reg: Registry, uuid: Sid, sid: Sid)
    requires WiresInv(w) && MetersInv(w) && OnlineLive(w.server) && OpenedInv(w) && SidInv(w, sid)
    requires c0 in w.wires && |w.wires[c0].times| < |w.wires[c0].up|
    requires uuid !in w.known && uuid !in w.server.sessions
    requires WiresInv(ServeStep(w, c0, now, reg, uuid))
    ensures SidInv(ServeStep(w, c0, now, reg, uuid), sid)
  {
    hide EndInv, OnlineLive, OpenedInv, OnMessage, Introduces, Routes;
    var v := ServeStep(w, c0, now, reg, uuid);
    ServeStepServes(w, c0, now, reg, uuid);
    forall c | c in v.wires ensures EndInv(v, sid, c) {
      if Introduces(w.server, c0, Message(w, c0), now, reg) {
        IntroducesKeepsEnd(w, v, c0, now, reg, uuid, sid, c);
      } else if Routes(w.server, c0, Message(w, c0), now) {
        RoutesKeepsEnd(w, v, c0, now, reg, uuid, sid, c);
      } else {
        PlainKeepsEnd(w, v, c0, now, reg, uuid, sid, c);
      }
    }
  }

  // ---- steps of the clients ------------------------------------------------------------------

  /** The server side stands still; clients may write more. */
  ghost predicate ClientStep(w: World, v: World) {
    && v.server == w.server && v.known == w.known && v.wires.Keys == w.wires.Keys
    && v.clients.Keys == w.clients.Keys
    && forall c :: c in w.wires ==>
         && v.wires[c].owner == w.wires[c].owner && v.wires[c].since == w.wires[c].since
         && v.wires[c].times == w.wires[c].times && w.wires[c].up <= v.wires[c].up
  }

  /** For an end whose link and wire are the client's business, only those need proof. */
  lemma ClientEnd(w: World, v: World, sid: Sid, c: Conn)
    requires WiresInv(w) && WiresInv(v) && ClientStep(w, v) && c in w.wires && EndInv(w, sid, c)
    requires Honest(w, c) ==> LinkTakes(v, sid, c) && LinkQueues(v, sid, c)
    ensures EndInv(v, sid, c)
  {
    assert v.wires[c].up[..|w.wires[c].times|] == w.wires[c].up[..|w.wires[c].times|];
    WrittenLater(w.wires[c].since, w.wires[c].up, v.wires[c].up, w.wires[c].times, sid);
    hide Accepts, Offered, Heard, Subseq;
  }

  lemma ClientSid(w: World, v: World, sid: Sid)
    requires WiresInv(w) && WiresInv(v) && ClientStep(w, v) && SidInv(w, sid)
    requires forall c :: c in w.wires && Honest(w, c) ==> LinkTakes(v, sid, c) && LinkQueues(v, sid, c)
    ensures SidInv(v, sid)
  {
    assert v.wires.Keys == w.wires.Keys;
    hide LinkTakes, LinkQueues, EndInv, ClientStep, WiresInv;
    forall c | c in v.wires ensures EndInv(v, sid, c) {
      assert EndInv(w, sid, c);
      ClientEnd(w, v, sid, c);
    }
  }

  /** An end whose link and wire did not change. */
  lemma SameEnd(w: World, v: World, sid: Sid, c: Conn)
    requires WiresInv(w) && WiresInv(v) && c in w.wires && c in v.wires && v.server.socks[c] == w.server.socks[c]
    requires LinkTakes(w, sid, c) && LinkQueues(w, sid, c)
    requires LinkAt(v, c, sid) == LinkAt(w, c, sid)
    requires v.wires[c].downRead == w.wires[c].downRead && v.wires[c].up == w.wires[c].up
    requires v.wires[c].ready == Up ==> w.wires[c].ready == Up
    ensures LinkTakes(v, sid, c) && LinkQueues(v, sid, c)
  {
    hide LinkAt, Accepts, Offered;
  }

  /** An end whose link was at most closed, or listened to, and whose client wrote no frame of the session. */
  lemma IdleEnd(w: World, v: World, sid: Sid, c: Conn)
    requires WiresInv(w) && WiresInv(v) && c in w.wires && c in v.wires && v.server == w.server
    requires LinkTakes(w, sid, c) && LinkQueues(w, sid, c)
    requires LinkAt(v, c, sid).Some? <==> LinkAt(w, c, sid).Some?
    requires TakenAt(v, c, sid) == TakenAt(w, c, sid) && SentAt(v, c, sid) == SentAt(w, c, sid)
    requires LinkAt(v, c, sid).Some? && LinkAt(w, c, sid).value.closed ==> LinkAt(v, c, sid).value.closed
    requires v.wires[c].downRead == w.wires[c].downRead
    requires Offered(v.wires[c].up, sid) == Offered(w.wires[c].up, sid)
    requires v.wires[c].ready == Up ==> w.wires[c].ready == Up
    ensures LinkTakes(v, sid, c) && LinkQueues(v, sid, c)
  {
    hide LinkAt, Accepts, Offered;
  }

  lemma ActsStep(w: World, d: Device, cl: Relay.Client, out: seq<ClientMsg>)
    requires WiresInv(w) && d in w.clients
    ensures ClientStep(w, Acts(w, d, cl, out)) && WiresInv(Acts(w, d, cl, out))
  {
  }

  /** The client of `d` keeps what its links took and sent, and writes at most one message, no frame. */
  ghost predicate Idles(w: World, d: Device, cl: Relay.Client, out: seq<ClientMsg>)
    requires d in w.clients
  {
    && cl.socket == w.clients[d].socket && cl.links.Keys == w.clients[d].links.Keys
    && (forall sid :: sid in cl.links ==>
          && cl.links[sid].conn == w.clients[d].links[sid].conn
          && cl.links[sid].Taken() == w.clients[d].links[sid].Taken()
          && cl.links[sid].sent == w.clients[d].links[sid].sent
          && (w.clients[d].links[sid].closed ==> cl.links[sid].closed))
    && (out == [] || (|out| == 1 && !out[0].Frame?))
  }

  lemma IdlesKeepsSid(w: World, d: Device, cl: Relay.Client, out: seq<ClientMsg>, sid: Sid)
    requires WiresInv(w) && d in w.clients && Idles(w, d, cl, out) && SidInv(w, sid)
    requires WiresInv(Acts(w, d, cl, out))
    ensures SidInv(Acts(w, d, cl, out), sid)
  {
    var v := Acts(w, d, cl, out);
    ActsStep(w, d, cl, out);
    forall c | c in w.wires && Honest(w, c) ensures LinkTakes(v, sid, c) && LinkQueues(v, sid, c) {
      assert EndInv(w, sid, c);
      if out != [] {
        OfferedNext(w.wires[c].up, out[0], sid);
        assert out == [out[0]];
      }
      assert w.wires[c].up + [] == w.wires[c].up;
      IdleEnd(w, v, sid, c);
    }
    ClientSid(w, v, sid);
  }

  lemma SendsKeepsSid(w: World, d: Device, sid0: Sid, payload: Payload, sid: Sid)
    requires WiresInv(w) && d in w.clients && ClientInv(w, d) && SidInv(w, sid)
    ensures var r := Relay.LinkSend(w.clients[d], sid0, payload, CanSend(w, d));
            WiresInv(Acts(w, d, r.0, r.1)) && SidInv(Acts(w, d, r.0, r.1), sid)
  {
    var r := Relay.LinkSend(w.clients[d], sid0, payload, CanSend(w, d));
    var v := Acts(w, d, r.0, r.1);
    ActsStep(w, d, r.0, r.1);
    forall c | c in w.wires && Honest(w, c) ensures LinkTakes(v, sid, c) && LinkQueues(v, sid, c) {
      assert EndInv(w, sid, c);
      SendsEnd(w, d, sid0, payload, sid, c);
    }
    ClientSid(w, v, sid);
  }

  lemma SendsEnd(w: World, d: Device, sid0: Sid, payload: Payload, sid: Sid, c: Conn)
    requires WiresInv(w) && d in w.clients && ClientInv(w, d) && c in w.wires
    requires LinkTakes(w, sid, c) && LinkQueues(w, sid, c)
    ensures var r := Relay.LinkSend(w.clients[d], sid0, payload, CanSend(w, d));
            var v := Acts(w, d, r.0, r.1);
            WiresInv(v) && LinkTakes(v, sid, c) && LinkQueues(v, sid, c)
  {
    var cl := w.clients[d];
    var r := Relay.LinkSend(cl, sid0, payload, CanSend(w, d));
    var v := Acts(w, d, r.0, r.1);
    ActsStep(w, d, r.0, r.1);
    if sid0 !in cl.links || cl.links[sid0].closed {
      assert w.wires[c].up + [] == w.wires[c].up;
      assert v.wires[c] == w.wires[c] && LinkAt(v, c, sid) == LinkAt(w, c, sid);
      hide Acts, Relay.LinkSend, CanSend, LinkTakes, LinkQueues, LinkAt, WiresInv, ClientInv;
      SameEnd(w, v, sid, c);
    } else {
      assert LinkInv(w, d, sid0);
      SentOn(w, d, sid0, payload, sid, c);
    }
  }

  /** An open link sends: its own end has one payload more, on the wire if that is up. */
  lemma SentOn(w: World, d: Device, sid0: Sid, payload: Payload, sid: Sid, c: Conn)
    requires WiresInv(w) && d in w.clients && c in w.wires
    requires sid0 in w.clients[d].links && !w.clients[d].links[sid0].closed && LinkInv(w, d, sid0)
    requires LinkTakes(w, sid, c) && LinkQueues(w, sid, c)
    ensures var r := Relay.LinkSend(w.clients[d], sid0, payload, CanSend(w, d));
            var v := Acts(w, d, r.0, r.1);
            WiresInv(v) && LinkTakes(v, sid, c) && LinkQueues(v, sid, c)
  {
    var cl := w.clients[d];
    var c0 := cl.links[sid0].conn;
    var r := Relay.LinkSend(cl, sid0, payload, CanSend(w, d));
    var v := Acts(w, d, r.0, r.1);
    ActsStep(w, d, r.0, r.1);
    SentWire(w, d, sid0, payload, c);
    OfferedNext(w.wires[c].up, Frame(sid0, payload), sid);
    SentLinks(w, d, sid0, payload, sid, c);
    hide Acts, Relay.LinkSend, Offered, CanSend, WiresInv, LinkInv, ClientStep, LinkTakes, LinkQueues, LinkAt;
    if c != c0 {
      SameEnd(w, v, sid, c);
    } else if sid != sid0 {
      IdleEnd(w, v, sid, c);
    } else {
      SentOwn(w, v, sid, c, payload);
    }
  }

  lemma SentLinks(w: World, d: Device, sid0: Sid, payload: Payload, sid: Sid, c: Conn)
    requires WiresInv(w) && d in w.clients && c in w.wires
    requires sid0 in w.clients[d].links && !w.clients[d].links[sid0].closed && LinkInv(w, d, sid0)
    ensures var cl := w.clients[d];
            var r := Relay.LinkSend(cl, sid0, payload, CanSend(w, d));
            LinkAt(Acts(w, d, r.0, r.1), c, sid) ==
            if sid == sid0 && c == cl.links[sid0].conn && LinkAt(w, c, sid).Some?
            then Some(LinkAt(w, c, sid).value.(sent := SentAt(w, c, sid) + [payload])) else LinkAt(w, c, sid)
    ensures sid == sid0 && c == w.clients[d].links[sid0].conn ==> LinkAt(w, c, sid).Some?
  {
    SentWire(w, d, sid0, payload, c);
    hide Acts, Relay.LinkSend, CanSend, WiresInv;
  }

  lemma SentOwn(w: World, v: World, sid: Sid, c: Conn, payload: Payload)
    requires WiresInv(w) && WiresInv(v) && c in w.wires && c in v.wires && v.server == w.server
    requires LinkTakes(w, sid, c) && LinkQueues(w, sid, c)
    requires LinkAt(w, c, sid).Some?
    requires LinkAt(v, c, sid) == Some(LinkAt(w, c, sid).value.(sent := SentAt(w, c, sid) + [payload]))
    requires v.wires[c] == if w.wires[c].ready == Up then w.wires[c].(up := w.wires[c].up + [Frame(sid, payload)]) else w.wires[c]
    ensures LinkTakes(v, sid, c) && LinkQueues(v, sid, c)
  {
    hide LinkTakes, Accepts, Offered;
    assert TakenAt(v, c, sid) == TakenAt(w, c, sid) && SentAt(v, c, sid) == SentAt(w, c, sid) + [payload];
    SameTakes(w, v, sid, c);
    hide LinkAt, SentAt, TakenAt, WiresInv;
    if w.wires[c].ready == Up {
      OfferedNext(w.wires[c].up, Frame(sid, payload), sid);
    } else {
      assert Offered(v.wires[c].up, sid) <= SentAt(w, c, sid) <= SentAt(v, c, sid);
    }
  }

  /** A link that took nothing more and was not opened again. */
  lemma SameTakes(w: World, v: World, sid: Sid, c: Conn)
    requires WiresInv(w) && WiresInv(v) && c in w.wires && c in v.wires && v.server == w.server
    requires LinkTakes(w, sid, c) && v.wires[c].downRead == w.wires[c].downRead
    requires LinkAt(v, c, sid).Some? <==> LinkAt(w, c, sid).Some?
    requires TakenAt(v, c, sid) == TakenAt(w, c, sid)
    requires LinkAt(v, c, sid).Some? && LinkAt(w, c, sid).value.closed ==> LinkAt(v, c, sid).value.closed
    ensures LinkTakes(v, sid, c)
  {
    hide LinkAt, Accepts, TakenAt;
  }

  lemma SentWire(w: World, d: Device, sid0: Sid, payload: Payload, c: Conn)
    requires WiresInv(w) && d in w.clients && c in w.wires
    requires sid0 in w.clients[d].links && !w.clients[d].links[sid0].closed && LinkInv(w, d, sid0)
    ensures var cl := w.clients[d];
            var r := Relay.LinkSend(cl, sid0, payload, CanSend(w, d));
            var v := Acts(w, d, r.0, r.1);
            var sent := cl.links[sid0].(sent := cl.links[sid0].sent + [payload]);
            var up := c == cl.links[sid0].conn && w.wires[c].ready == Up;
            && v.server == w.server && c in v.wires
            && v.clients == w.clients[d := cl.(links := cl.links[sid0 := sent])]
            && v.wires[c] == if up then w.wires[c].(up := w.wires[c].up + [Frame(sid0, payload)]) else w.wires[c]
  {
    assert w.wires[c].up + [] == w.wires[c].up;
  }

  /** A socket that goes away, or a client that stops: links are closed and nothing is sent. */
  ghost predicate Fading(w: World, v: World, d: Device) {
    && WiresInv(w) && WiresInv(v) && ClientStep(w, v)
    && (forall x :: x in w.clients && x != d ==> v.clients[x] == w.clients[x])
    && (d in w.clients ==>
          && v.clients[d].links.Keys == w.clients[d].links.Keys
          && forall x :: x in w.clients[d].links ==>
               v.clients[d].links[x] == w.clients[d].links[x]
               || v.clients[d].links[x] == w.clients[d].links[x].(closed := true))
    && (forall c :: c in w.wires ==>
          && v.wires[c].up == w.wires[c].up && v.wires[c].downRead == w.wires[c].downRead
          && (v.wires[c].ready == Up ==> w.wires[c].ready == Up))
  }

  lemma FadingKeepsSid(w: World, v: World, d: Device, sid: Sid)
    requires Fading(w, v, d) && SidInv(w, sid)
    ensures SidInv(v, sid)
  {
    forall c | c in w.wires && Honest(w, c) ensures LinkTakes(v, sid, c) && LinkQueues(v, sid, c) {
      assert EndInv(w, sid, c);
      IdleEnd(w, v, sid, c);
    }
    ClientSid(w, v, sid);
  }

  lemma EstablishShape(w: World, c: Conn, serial: nat)
    requires WiresInv(w) && c in w.wires && w.wires[c].ready == Dialing
    ensures var v := EstablishStep(w, c, serial);
            && WiresInv(v) && ClientStep(w, v)
            && forall x :: x in w.wires && Honest(w, x) ==>
                 forall i :: |w.wires[x].up| <= i < |v.wires[x].up| && v.wires[x].up[i].Auth? ==>
                   v.wires[x].up[i].token.device == w.wires[x].owner
  {
  }

  lemma EstablishKeepsSid(w: World, c0: Conn, serial: nat, sid: Sid)
    requires WiresInv(w) && c0 in w.wires && w.wires[c0].ready == Dialing && SidInv(w, sid)
    requires forall d :: d in w.clients ==> ClientInv(w, d)
    ensures WiresInv(EstablishStep(w, c0, serial)) && SidInv(EstablishStep(w, c0, serial), sid)
  {
    hide EstablishStep, WiresInv, ClientInv, LinkTakes, LinkQueues, Told, Drawn, Routed, ClientStep;
    var v := EstablishStep(w, c0, serial);
    EstablishShape(w, c0, serial);
    forall c | c in w.wires && Honest(w, c) ensures LinkTakes(v, sid, c) && LinkQueues(v, sid, c) {
      assert EndInv(w, sid, c) && ClientInv(w, w.wires[c].owner);
      EstablishEnd(w, c0, serial, sid, c);
    }
    hide SidInv, EndInv;
    ClientSid(w, v, sid);
  }

  lemma EstablishEnd(w: World, c0: Conn, serial: nat, sid: Sid, c: Conn)
    requires WiresInv(w) && c0 in w.wires && w.wires[c0].ready == Dialing && WiresInv(EstablishStep(w, c0, serial))
    requires Honest(w, c) && ClientInv(w, w.wires[c].owner) && LinkTakes(w, sid, c) && LinkQueues(w, sid, c)
    ensures LinkTakes(EstablishStep(w, c0, serial), sid, c) && LinkQueues(EstablishStep(w, c0, serial), sid, c)
  {
    var v := EstablishStep(w, c0, serial);
    if LinkAt(w, c, sid).Some? { assert LinkInv(w, w.wires[c].owner, sid); }
    OfferedNext(w.wires[c].up, Auth(Token(w.wires[c].owner, serial)), sid);
    hide Accepts, Offered, WiresInv, ClientInv;
    if c != c0 {
      SameEnd(w, v, sid, c);
    } else {
      SameTakes(w, v, sid, c);
    }
  }

  /** Who owns which socket, and which can be written to, is unchanged. */
  predicate SameEnds(w: World, v: World) {
    v.wires.Keys == w.wires.Keys
    && forall c :: c in w.wires ==> v.wires[c].owner == w.wires[c].owner && v.wires[c].ready == w.wires[c].ready
  }

  lemma StrangerShape(w: World, c: Conn, m: ClientMsg)
    requires WiresInv(w) && c in w.wires && !Honest(w, c)
    ensures var v := StrangerStep(w, c, m);
            && WiresInv(v) && ClientStep(w, v) && SameEnds(w, v) && v.clients == w.clients
            && forall x :: x in w.wires && Honest(w, x) ==> v.wires[x] == w.wires[x]
  {
  }

  lemma StrangerKeepsSid(w: World, c0: Conn, m: ClientMsg, sid: Sid)
    requires WiresInv(w) && c0 in w.wires && !Honest(w, c0) && SidInv(w, sid)
    ensures WiresInv(StrangerStep(w, c0, m)) && SidInv(StrangerStep(w, c0, m), sid)
  {
    hide StrangerStep, LinkTakes, LinkQueues, WiresInv, Told, Drawn, Routed, ClientStep;
    var v := StrangerStep(w, c0, m);
    StrangerShape(w, c0, m);
    forall c | c in w.wires && Honest(w, c) ensures LinkTakes(v, sid, c) && LinkQueues(v, sid, c) {
      assert EndInv(w, sid, c);
      SameEnd(w, v, sid, c);
    }
    hide EndInv, SidInv;
    ClientSid(w, v, sid);
  }

  lemma DialKeepsSid(w: World, d: Device, c0: Conn, now: int, sid: Sid)
    requires WiresInv(w) && c0 !in w.wires && c0 !in w.server.socks && SidInv(w, sid) && OpenedInv(w)
    requires forall x :: x in w.clients ==> ClientInv(w, x)
    requires SessionsProper(w.server)
    ensures WiresInv(DialStep(w, d, c0, now)) && SidInv(DialStep(w, d, c0, now), sid)
  {
    var v := DialStep(w, d, c0, now);
    hide DialStep, EndInv, WiresInv, ClientInv;
    DialWires(w, d, c0, now);
    assert sid in w.known ==> Apart(w.server, w.known[sid]);
    assert sid in w.server.sessions ==> Proper(w.server, w.server.sessions[sid]);
    hide SessionsProper, OpenedInv, Apart, Proper;
    forall c | c in v.wires ensures EndInv(v, sid, c) {
      if c == c0 {
        DialledEnd(w, d, c0, now, sid);
      } else {
        assert EndInv(w, sid, c);
        DialKeepsEnd(w, d, c0, now, sid, c);
      }
    }
  }

  lemma DialWires(w: World, d: Device, c0: Conn, now: int)
    requires WiresInv(w) && c0 !in w.wires && c0 !in w.server.socks
    ensures WiresInv(DialStep(w, d, c0, now)) && DialStep(w, d, c0, now).wires.Keys == w.wires.Keys + {c0}
  {
  }

  lemma DialKeepsEnd(w: World, d: Device, c0: Conn, now: int, sid: Sid, c: Conn)
    requires WiresInv(w) && c0 !in w.wires && c0 !in w.server.socks && WiresInv(DialStep(w, d, c0, now))
    requires c in w.wires && EndInv(w, sid, c) && (sid in w.known ==> Apart(w.server, w.known[sid]))
    ensures EndInv(DialStep(w, d, c0, now), sid, c)
  {
    var v := DialStep(w, d, c0, now);
    DialSame(w, d, c0, now, sid, c);
    if sid in w.known && w.known[sid].Joins(c) {
      DialSame(w, d, c0, now, sid, w.known[sid].Other(c));
    }
    hide DialStep, WiresInv, Accepts, Offered, Apart, Honest, LinkAt, Heard, Subseq, OpensOnce, LinkTakes, LinkQueues;
    if Honest(w, c) { SameEnd(w, v, sid, c); }
  }

  /** What dialling leaves as it was. */
  lemma DialSame(w: World, d: Device, c0: Conn, now: int, sid: Sid, c: Conn)
    requires c0 !in w.wires && c0 !in w.server.socks && c in w.wires && c in w.server.socks
    ensures var v := DialStep(w, d, c0, now);
            && c in v.wires && c in v.server.socks
            && v.server.socks[c] == w.server.socks[c] && v.wires[c] == w.wires[c]
            && LinkAt(v, c, sid) == LinkAt(w, c, sid) && Honest(v, c) == Honest(w, c)
            && v.server.sessions == w.server.sessions && v.known == w.known
  {
  }

  lemma DialledEnd(w: World, d: Device, c0: Conn, now: int, sid: Sid)
    requires WiresInv(w) && c0 !in w.wires && c0 !in w.server.socks && WiresInv(DialStep(w, d, c0, now))
    requires forall x :: x in w.clients ==> ClientInv(w, x)
    requires sid in w.known ==> !w.known[sid].Joins(c0)
    requires sid in w.server.sessions ==> !w.server.sessions[sid].Joins(c0)
    ensures EndInv(DialStep(w, d, c0, now), sid, c0)
  {
    var v := DialStep(w, d, c0, now);
    if Honest(v, c0) {
      assert ClientInv(w, d);
      if sid in w.clients[d].links { assert LinkInv(w, d, sid); }
      assert v.server.socks[c0].sent[..0] == [];
    }
  }

  /** The client reads one message: its link follows. */
  lemma ReadsKeepsSid(w: World, c0: Conn, sid: Sid)
    requires WiresInv(w) && c0 in w.wires && w.wires[c0].ready == Up && SidInv(w, sid)
    requires w.wires[c0].downRead < |w.server.socks[c0].sent|
    requires NamesInv(w) && OpenedInv(w)
    requires forall d :: d in w.clients ==> ClientInv(w, d)
    ensures WiresInv(ReadStep(w, c0)) && SidInv(ReadStep(w, c0), sid)
  {
    var v := ReadStep(w, c0);
    ReadClientStep(w, c0);
    assert EndInv(w, sid, c0);
    hide ReadStep, WiresInv, LinkTakes, LinkQueues, ClientInv, NamesInv, OpenedInv, ClientStep, Told;
    forall c | c in w.wires && Honest(w, c) ensures LinkTakes(v, sid, c) && LinkQueues(v, sid, c) {
      assert EndInv(w, sid, c);
      if c == c0 {
        ReadsOwnEnd(w, c, sid);
      } else {
        ReadsOtherEnd(w, c0, c, sid);
      }
    }
    ClientSid(w, v, sid);
  }

  lemma ReadClientStep(w: World, c: Conn)
    requires WiresInv(w) && c in w.wires && w.wires[c].downRead < |w.server.socks[c].sent|
    ensures WiresInv(ReadStep(w, c)) && ClientStep(w, ReadStep(w, c))
  {
  }

  /** What one message makes of one link of the client. */
  function Follows(cl: Relay.Client, c: Conn, m: ServerMsg, sid: Sid): Option<Relay.Link> {
    if m.SessionOpened? && m.sid == sid then Some(Relay.Link(c, false, false, [], [], []))
    else if sid !in cl.links then None
    else if sid !in cl.sessions then Some(cl.links[sid])
    else if m.Relayed? && m.sid == sid then Some(Relay.Deliver(cl.links[sid], m.payload))
    else if m.SessionEnded? && m.sid == sid then Some(cl.links[sid].(closed := true))
    else Some(cl.links[sid])
  }

  lemma ReceiveFollows(cl: Relay.Client, c: Conn, m: ServerMsg, sid: Sid)
    ensures var after := Relay.Receive(cl, c, m);
            && after.socket == cl.socket && after.closing == cl.closing
            && (sid in after.links <==> Follows(cl, c, m, sid).Some?)
            && (sid in after.links ==> after.links[sid] == Follows(cl, c, m, sid).value)
  {
  }

  /** An introduction comes only where the session was never heard of before. */
  lemma IntroducedFresh(w: World, c: Conn, sid: Sid)
    requires WiresInv(w) && c in w.wires && w.wires[c].downRead < |w.server.socks[c].sent|
    requires Told(w.server, w.known, sid, c)
    requires var m := w.server.socks[c].sent[w.wires[c].downRead]; m.SessionOpened? && m.sid == sid
    ensures Accepts(w.server.socks[c].sent[..w.wires[c].downRead], sid).None?
    ensures sid in w.known && w.known[sid].Joins(c)
  {
    var h, k := w.server.socks[c].sent, w.wires[c].downRead;
    assert h[..k + 1] == h[..k] + [h[k]];
    AcceptsNext(h[..k], h[k], sid);
    AcceptsGrows(h, k + 1, sid);
  }

  /** The link at an end has taken `read`, or nothing was read and there is no link. */
  predicate Matches(k: Option<Relay.Link>, read: Option<seq<Payload>>) {
    match read
    case None => k.None?
    case Some(r) => k.Some? && k.value.Taken() <= r && (!k.value.closed ==> k.value.Taken() == r)
  }

  function ReadNext(read: Option<seq<Payload>>, m: ServerMsg, sid: Sid): Option<seq<Payload>> {
    if m.SessionOpened? && m.sid == sid && read.None? then Some([])
    else if m.Relayed? && m.sid == sid && read.Some? then Some(read.value + [m.payload])
    else read
  }

  /** The client does to the link what reading the message does to the history. */
  lemma FollowsMatches(cl: Relay.Client, c: Conn, m: ServerMsg, sid: Sid, read: Option<seq<Payload>>)
    requires Matches(LinkOf(cl, c, sid), read)
    requires m.SessionOpened? && m.sid == sid ==> read.None?
    requires sid in cl.links ==> (cl.links[sid].closed <==> sid !in cl.sessions)
    requires sid in cl.links && !cl.links[sid].closed ==> cl.links[sid].conn == c
    requires sid in cl.links && cl.links[sid].hasHandler ==> cl.links[sid].backlog == []
    ensures Matches(OwnLink(Follows(cl, c, m, sid), c), ReadNext(read, m, sid))
    ensures var k := OwnLink(Follows(cl, c, m, sid), c);
            k.Some? ==> (k.value.sent == if LinkOf(cl, c, sid).None? then [] else LinkOf(cl, c, sid).value.sent)
  {
    if m.Relayed? && m.sid == sid && sid in cl.links && read.Some? {
      var k := cl.links[sid];
      assert k.handled + (k.backlog + [m.payload]) == k.Taken() + [m.payload];
      assert k.hasHandler ==> k.handled + [m.payload] + k.backlog == k.Taken() + [m.payload];
      assert Relay.Deliver(k, m.payload).Taken() == if k.closed then k.Taken() else k.Taken() + [m.payload];
    }
  }

  function LinkOf(cl: Relay.Client, c: Conn, sid: Sid): Option<Relay.Link> {
    OwnLink(if sid in cl.links then Some(cl.links[sid]) else None, c)
  }

  lemma ReadLinkAt(w: World, c: Conn, sid: Sid)
    requires WiresInv(w) && Honest(w, c) && w.wires[c].downRead < |w.server.socks[c].sent|
    ensures var v := ReadStep(w, c);
            && Honest(v, c) && v.server == w.server
            && v.wires[c] == w.wires[c].(downRead := w.wires[c].downRead + 1)
            && LinkAt(v, c, sid) ==
               OwnLink(Follows(w.clients[w.wires[c].owner], c, w.server.socks[c].sent[w.wires[c].downRead], sid), c)
  {
    ReceiveFollows(w.clients[w.wires[c].owner], c, w.server.socks[c].sent[w.wires[c].downRead], sid);
    hide Follows, Relay.Receive;
  }

  /** What the link makes of the next message, beside the history read up to and with it. */
  lemma ReadsMatches(w: World, c: Conn, sid: Sid)
    requires WiresInv(w) && Honest(w, c) && w.wires[c].ready == Up
    requires w.wires[c].downRead < |w.server.socks[c].sent|
    requires EndInv(w, sid, c) && ClientInv(w, w.wires[c].owner)
    ensures Matches(LinkAt(ReadStep(w, c), c, sid), Accepts(w.server.socks[c].sent[..w.wires[c].downRead + 1], sid))
    ensures SentAt(ReadStep(w, c), c, sid) == SentAt(w, c, sid)
  {
    assert w.wires.Keys == w.server.socks.Keys;
    hide ReadStep, WiresInv, Follows, OwnLink, LinkOf, Accepts, EndInv, ClientInv, Told, LinkQueues, Routed, Drawn;
    var h, k := w.server.socks[c].sent, w.wires[c].downRead;
    var m := h[k];
    var cl := w.clients[w.wires[c].owner];
    ReadsHistory(w, c, sid);
    ReadLinkAt(w, c, sid);
    FollowsMatches(cl, c, m, sid, Accepts(h[..k], sid));
    hide Matches;
    assert h[..k + 1] == h[..k] + [m];
    AcceptsNext(h[..k], m, sid);
  }

  /** What is known of the link before the message is read. */
  lemma ReadsHistory(w: World, c: Conn, sid: Sid)
    requires WiresInv(w) && Honest(w, c) && w.wires[c].ready == Up
    requires w.wires[c].downRead < |w.server.socks[c].sent|
    requires EndInv(w, sid, c) && ClientInv(w, w.wires[c].owner)
    ensures var read := Accepts(w.server.socks[c].sent[..w.wires[c].downRead], sid);
            var m := w.server.socks[c].sent[w.wires[c].downRead];
            var cl := w.clients[w.wires[c].owner];
            && LinkAt(w, c, sid) == LinkOf(cl, c, sid) && Matches(LinkOf(cl, c, sid), read)
            && (m.SessionOpened? && m.sid == sid ==> read.None?)
            && (sid in cl.links ==> (cl.links[sid].closed <==> sid !in cl.sessions))
            && (sid in cl.links && !cl.links[sid].closed ==> cl.links[sid].conn == c)
            && (sid in cl.links && cl.links[sid].hasHandler ==> cl.links[sid].backlog == [])
  {
    assert w.wires.Keys == w.server.socks.Keys;
    hide Accepts, Told, Drawn, Routed, LinkQueues, WiresInv;
    var m := w.server.socks[c].sent[w.wires[c].downRead];
    if m.SessionOpened? && m.sid == sid { IntroducedFresh(w, c, sid); }
    assert sid in w.clients[w.wires[c].owner].links ==> LinkInv(w, w.wires[c].owner, sid);
    assert LinkTakes(w, sid, c);
  }

  lemma ReadsOwnEnd(w: World, c: Conn, sid: Sid)
    requires WiresInv(w) && Honest(w, c) && w.wires[c].ready == Up
    requires w.wires[c].downRead < |w.server.socks[c].sent|
    requires EndInv(w, sid, c) && ClientInv(w, w.wires[c].owner)
    ensures var v := ReadStep(w, c);
            WiresInv(v) && LinkTakes(v, sid, c) && LinkQueues(v, sid, c)
  {
    ReadsMatches(w, c, sid);
    assert LinkQueues(w, sid, c);
    ReadClientStep(w, c);
    ReadLinkAt(w, c, sid);
    hide EndInv, ClientInv, ReadStep, Follows, OwnLink, Accepts, Offered;
  }

  function OwnLink(k: Option<Relay.Link>, c: Conn): Option<Relay.Link> {
    if k.Some? && k.value.conn == c then k else None
  }

  lemma ReadsOtherEnd(w: World, c0: Conn, c: Conn, sid: Sid)
    requires WiresInv(w) && c0 in w.wires && c in w.wires && c != c0 && Honest(w, c) && w.wires[c0].ready == Up
    requires w.wires[c0].downRead < |w.server.socks[c0].sent|
    requires EndInv(w, sid, c) && Told(w.server, w.known, sid, c0)
    requires NamesInv(w) && OpenedInv(w)
    requires forall d :: d in w.clients ==> ClientInv(w, d)
    ensures var v := ReadStep(w, c0);
            WiresInv(v) && LinkTakes(v, sid, c) && LinkQueues(v, sid, c)
  {
    assert w.wires.Keys == w.server.socks.Keys;
    hide Relay.Receive, ClientInv, NamesInv, OpenedInv, Told, Drawn, Routed, WiresInv, ClientStep, LinkTakes, LinkQueues;
    var v := ReadStep(w, c0);
    ReadClientStep(w, c0);
    ReadsOtherLink(w, c0, c, sid);
    SameEnd(w, v, sid, c);
  }

  /** A message read on one connection does not touch the link at another. */
  lemma ReadsOtherLink(w: World, c0: Conn, c: Conn, sid: Sid)
    requires WiresInv(w) && c0 in w.wires && c in w.wires && c != c0 && Honest(w, c) && w.wires[c0].ready == Up
    requires w.wires[c0].downRead < |w.server.socks[c0].sent|
    requires EndInv(w, sid, c) && Told(w.server, w.known, sid, c0)
    requires NamesInv(w) && OpenedInv(w)
    requires forall d :: d in w.clients ==> ClientInv(w, d)
    ensures LinkAt(ReadStep(w, c0), c, sid) == LinkAt(w, c, sid)
  {
    if w.wires[c0].owner == w.wires[c].owner {
      hide Relay.Receive, NamesInv, OpenedInv, Told, EndInv, WiresInv, ClientInv, LinkAt, ReadStep;
      OpenLinkHere(w, c0, sid);
      OneEndPerDevice(w, c0, c, sid);
      ReadsLinkElsewhere(w, c0, c, sid);
    } else {
      ReadsOthersLink(w, c0, c, sid);
    }
  }

  lemma ReadsOthersLink(w: World, c0: Conn, c: Conn, sid: Sid)
    requires WiresInv(w) && c0 in w.wires && c in w.wires && c != c0 && w.wires[c0].owner != w.wires[c].owner
    requires w.wires[c0].downRead < |w.server.socks[c0].sent|
    ensures LinkAt(ReadStep(w, c0), c, sid) == LinkAt(w, c, sid)
  {
    hide Relay.Receive;
  }

  lemma ReadsLinkElsewhere(w: World, c0: Conn, c: Conn, sid: Sid)
    requires WiresInv(w) && c0 in w.wires && c in w.wires && c != c0 && Honest(w, c) && w.wires[c0].owner == w.wires[c].owner
    requires w.wires[c0].downRead < |w.server.socks[c0].sent|
    requires var cl := w.clients[w.wires[c].owner]; sid in cl.sessions && sid in cl.links ==> cl.links[sid].conn == c0
    requires var m := w.server.socks[c0].sent[w.wires[c0].downRead];
             m.SessionOpened? && m.sid == sid ==> LinkAt(w, c, sid).None?
    ensures LinkAt(ReadStep(w, c0), c, sid) == LinkAt(w, c, sid)
  {
    assert w.wires.Keys == w.server.socks.Keys;
    hide Relay.Receive, WiresInv, Relay.EndLink;
    ReceiveFollows(w.clients[w.wires[c].owner], c0, w.server.socks[c0].sent[w.wires[c0].downRead], sid);
  }

  lemma OpenLinkHere(w: World, c: Conn, sid: Sid)
    requires c in w.wires && Honest(w, c) && w.wires[c].ready == Up && ClientInv(w, w.wires[c].owner)
    ensures var cl := w.clients[w.wires[c].owner];
            sid in cl.sessions && sid in cl.links ==> cl.links[sid].conn == c
  {
    if sid in w.clients[w.wires[c].owner].links { assert LinkInv(w, w.wires[c].owner, sid); }
  }

  /** A device is never introduced twice to one session. */
  lemma OneEndPerDevice(w: World, c0: Conn, c: Conn, sid: Sid)
    requires WiresInv(w) && c0 in w.wires && Honest(w, c) && c != c0 && w.wires[c0].owner == w.wires[c].owner
    requires w.wires[c0].downRead < |w.server.socks[c0].sent|
    requires EndInv(w, sid, c) && Told(w.server, w.known, sid, c0) && NamesInv(w) && OpenedInv(w)
    ensures var m := w.server.socks[c0].sent[w.wires[c0].downRead];
            m.SessionOpened? && m.sid == sid ==> LinkAt(w, c, sid).None?
  {
    assert sid in w.known ==> Apart(w.server, w.known[sid]);
    var m := w.server.socks[c0].sent[w.wires[c0].downRead];
    AcceptsGrows(w.server.socks[c].sent, w.wires[c].downRead, sid);
    if m.SessionOpened? && m.sid == sid {
      IntroducedFresh(w, c0, sid);
    }
  }
}
