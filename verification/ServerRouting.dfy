/** What the relay server puts on its sockets about one session. */
module ServerRouting {
  import opened Wrappers
  import opened Rendezvous
  import opened Signaling

  /** The payloads a client takes for a session from the messages it has read: nothing before
      it is introduced to the session, everything relayed after. */
  function Accepts(h: seq<ServerMsg>, sid: Sid): Option<seq<Payload>> {
    if h == [] then None
    else
      var before := Accepts(h[..|h| - 1], sid);
      match h[|h| - 1]
      case SessionOpened(x, _, _) => if x == sid && before.None? then Some([]) else before
      case Relayed(x, payload) => if x == sid && before.Some? then Some(before.value + [payload]) else before
      case _ => before
  }

  lemma AcceptsNext(h: seq<ServerMsg>, m: ServerMsg, sid: Sid)
    ensures var before := Accepts(h, sid);
            Accepts(h + [m], sid) ==
            match m
            case SessionOpened(x, _, _) => (if x == sid && before.None? then Some([]) else before)
            case Relayed(x, payload) => (if x == sid && before.Some? then Some(before.value + [payload]) else before)
            case _ => before
  {
    assert (h + [m])[..|h|] == h;
  }

  predicate About(m: ServerMsg, sid: Sid) {
    (m.SessionOpened? && m.sid == sid) || (m.Relayed? && m.sid == sid)
  }

  predicate PlainMsg(m: ServerMsg) { !m.SessionOpened? && !m.Relayed? }

  lemma {:induction false} AcceptsQuiet(h: seq<ServerMsg>, g: seq<ServerMsg>, sid: Sid)
    requires h <= g && forall i :: |h| <= i < |g| ==> !About(g[i], sid)
    ensures Accepts(g, sid) == Accepts(h, sid)
    decreases |g|
  {
    if |h| < |g| {
      AcceptsQuiet(h, g[..|g| - 1], sid);
    } else {
      assert g == h;
    }
  }

  /** Reading on never takes back what was accepted. */
  lemma {:induction false} AcceptsGrows(h: seq<ServerMsg>, k: nat, sid: Sid)
    requires k <= |h|
    ensures Accepts(h[..k], sid).Some? ==>
              && Accepts(h, sid).Some? && Accepts(h[..k], sid).value <= Accepts(h, sid).value
    decreases |h|
  {
    if k < |h| {
      AcceptsGrows(h[..|h| - 1], k, sid);
      assert h[..|h| - 1][..k] == h[..k];
    } else {
      assert h[..k] == h;
    }
  }

  /** Traffic that does not concern any session: nothing is introduced, nothing relayed. */
  ghost predicate Plain(s: Server, t: Server) {
    && t.socks.Keys == s.socks.Keys
    && (forall c :: c in s.socks ==>
          && s.socks[c].sent <= t.socks[c].sent
          && (forall i :: |s.socks[c].sent| <= i < |t.socks[c].sent| ==> PlainMsg(t.socks[c].sent[i]))
          && (t.socks[c].ws == Open ==> s.socks[c].ws == Open)
          && (s.socks[c].caller.Some? ==> t.socks[c].caller == s.socks[c].caller))
    && (forall sid :: sid in t.sessions ==> sid in s.sessions && t.sessions[sid] == s.sessions[sid])
  }

  /** The same, as far as one session is concerned. */
  ghost predicate Quiet(s: Server, t: Server, sid: Sid) {
    && t.socks.Keys == s.socks.Keys
    && (forall c :: c in s.socks ==>
          && s.socks[c].sent <= t.socks[c].sent
          && (forall i :: |s.socks[c].sent| <= i < |t.socks[c].sent| ==> !About(t.socks[c].sent[i], sid))
          && (t.socks[c].ws == Open ==> s.socks[c].ws == Open)
          && (s.socks[c].caller.Some? ==> t.socks[c].caller == s.socks[c].caller))
    && (sid in t.sessions ==> sid in s.sessions && t.sessions[sid] == s.sessions[sid])
  }

  lemma PlainTrans(s: Server, t: Server, u: Server)
    requires Plain(s, t) && Plain(t, u)
    ensures Plain(s, u)
  {
  }

  lemma PlainSend(s: Server, c: Conn, m: ServerMsg)
    requires PlainMsg(m)
    ensures Plain(s, Reply(s, c, m))
  {
  }

  lemma PlainHangup(s: Server, c: Conn)
    ensures Plain(s, Hangup(s, c))
  {
  }

  lemma PlainEnd(s: Server, sid: Sid, reason: string)
    ensures Plain(s, EndSession(s, sid, reason))
  {
    if sid in s.sessions {
      var m := SessionEnded(sid, reason);
      var s1 := s.(sessions := s.sessions - {sid});
      var s2 := Reply(s1, s.sessions[sid].a, m);
      PlainSend(s1, s.sessions[sid].a, m);
      PlainSend(s2, s.sessions[sid].b, m);
      assert Plain(s, s1);
      hide SendOn, Plain;
      PlainTrans(s, s1, s2);
      PlainTrans(s, s2, Reply(s2, s.sessions[sid].b, m));
    }
  }

  lemma {:induction false} PlainEndAll(s: Server, order: seq<Sid>, reason: string)
    ensures Plain(s, EndAll(s, order, reason))
  {
    if order != [] {
      PlainEndAll(s, order[..|order| - 1], reason);
      PlainEnd(EndAll(s, order[..|order| - 1], reason), order[|order| - 1], reason);
      PlainTrans(s, EndAll(s, order[..|order| - 1], reason), EndAll(s, order, reason));
    }
  }

  lemma PlainAnnounce(s: Server, c: Conn, isOnline: bool, now: int)
    requires c in s.socks && s.socks[c].caller.Some?
    ensures Plain(s, Announce(s, c, isOnline, now))
  {
  }

  lemma PlainAdd(s: Server, c: Conn, now: int)
    requires c in s.socks && s.socks[c].caller.Some?
    ensures Plain(s, Add(s, c, now))
  {
    hide Announce;
    var d := s.socks[c].caller.value.device;
    var s1 := if d in s.online && s.online[d] != c then s.(socks := CloseOn(s.socks, s.online[d])) else s;
    var s2 := s1.(online := s1.online[d := c]);
    if d !in s.online {
      PlainAnnounce(s2, c, true, now);
    }
  }

  lemma PlainNamed(s: Server, c: Conn, who: Caller)
    requires c in s.socks && s.socks[c].caller.None?
    ensures Plain(s, s.(socks := s.socks[c := s.socks[c].(caller := Some(who))]))
  {
  }

  lemma PlainAuth(s: Server, c: Conn, token: Token, now: int, reg: Registry)
    requires c in s.socks
    ensures Plain(s, OnAuth(s, c, token, now, reg))
  {
    hide Add, Reply, Hangup, Plain;
    PlainHangup(s, c);
    if token in reg.holders && reg.holders[token].device.Some? && s.socks[c].caller.None? {
      var d := reg.holders[token].device.value;
      var who := Caller(d, reg.holders[token].account);
      var s1 := s.(socks := s.socks[c := s.socks[c].(caller := Some(who))]);
      PlainNamed(s, c, who);
      PlainAdd(s1, c, now);
      PlainSend(Add(s1, c, now), c, Ready(d));
      PlainTrans(s1, Add(s1, c, now), Reply(Add(s1, c, now), c, Ready(d)));
      PlainTrans(s, s1, Reply(Add(s1, c, now), c, Ready(d)));
    }
  }

  lemma PlainClose(s: Server, c: Conn, order: seq<Sid>, now: int)
    requires c in s.socks
    ensures Plain(s, OnClose(s, c, order, now))
  {
    hide Remove;
    var s1 := s.(socks := s.socks[c := s.socks[c].(ws := Closed)]);
    assert Plain(s, s1);
    hide Plain;
    if s.socks[c].caller.Some? {
      PlainRemove(s1, c, order, now);
      PlainTrans(s, s1, Remove(s1, c, order, now));
    }
  }

  lemma PlainRemove(s: Server, c: Conn, order: seq<Sid>, now: int)
    requires c in s.socks && s.socks[c].caller.Some?
    ensures Plain(s, Remove(s, c, order, now))
  {
    hide EndAll, Announce;
    var d := s.socks[c].caller.value.device;
    var gone := d in s.online && s.online[d] == c;
    var s1 := if gone then s.(online := s.online - {d}) else s;
    assert Plain(s, s1);
    EndAllKeepsSockets(s1, order, "peer-disconnected");
    hide Plain;
    PlainEndAll(s1, order, "peer-disconnected");
    var s2 := EndAll(s1, order, "peer-disconnected");
    PlainTrans(s, s1, s2);
    if gone {
      PlainAnnounce(s2, c, false, now);
      PlainTrans(s, s2, Announce(s2, c, false, now));
    }
  }

  predicate Introduces(s: Server, c: Conn, m: ClientMsg, now: int, reg: Registry)
    requires c in s.socks
  {
    && m.Connect? && Handled(s, c, m, now) && s.socks[c].caller.Some?
    && s.socks[c].caller.value.device !in reg.blocked
    && Refusal(s, c, m.target, reg).None?
  }

  predicate Routes(s: Server, c: Conn, m: ClientMsg, now: int)
    requires c in s.socks
  {
    m.Frame? && m.payload.fits && Handled(s, c, m, now) && s.socks[c].caller.Some? && Peer(s, m.sid, c).Some?
  }

  lemma PlainFrame(s: Server, c: Conn, sid: Sid, payload: Payload)
    requires Peer(s, sid, c).None?
    ensures Plain(s, OnFrame(s, c, sid, payload))
  {
    PlainSend(s, c, SessionEnded(sid, "unknown-session"));
  }

  lemma PlainRefused(s: Server, c: Conn, target: Device, reg: Registry, uuid: Sid)
    requires c in s.socks && s.socks[c].caller.Some?
    requires s.socks[c].caller.value.device in reg.blocked || Refusal(s, c, target, reg).Some?
    ensures Plain(s, OnConnect(s, c, target, reg, uuid))
  {
    PlainHangup(s, c);
    if Refusal(s, c, target, reg).Some? {
      PlainSend(s, c, ConnectFailed(target, Refusal(s, c, target, reg).value));
    }
  }

  lemma CountedKeepsRefusal(s: Server, c: Conn, target: Device, reg: Registry, now: int)
    requires c in s.socks && s.socks[c].caller.Some?
    ensures var s1 := s.(socks := s.socks[c := Counted(s.socks[c], now)]);
            Refusal(s1, c, target, reg) == Refusal(s, c, target, reg)
  {
    var s1 := s.(socks := s.socks[c := Counted(s.socks[c], now)]);
    assert forall x :: SessionsOf(s1, x) == SessionsOf(s, x);
  }

  /** Every message but a successful introduction and a routed frame is plain. */
  lemma PlainMessage(s: Server, c: Conn, m: ClientMsg, now: int, reg: Registry, uuid: Sid)
    requires c in s.socks && !Introduces(s, c, m, now, reg) && !Routes(s, c, m, now)
    ensures Plain(s, OnMessage(s, c, m, now, reg, uuid))
  {
    hide OnAuth, OnConnect, OnFrame, EndSession, Reply, Hangup, Refusal, Plain;
    var t := OnMessage(s, c, m, now, reg, uuid);
    var s1 := if m.Binary? then s.(socks := s.socks[c := s.socks[c].(lastSeen := now)])
              else s.(socks := s.socks[c := Counted(s.socks[c], now)]);
    PlainSelf(s, s1, c);
    PlainHangup(s1, c);
    PlainSelf(s1, s1, c);
    if Handled(s, c, m, now) {
      if Unreadable(m) {
        PlainSend(s1, c, Error);
        PlainHangup(Reply(s1, c, Error), c);
        PlainTrans(s1, Reply(s1, c, Error), t);
      } else if m.Auth? {
        PlainAuth(s1, c, m.token, now, reg);
      } else if s1.socks[c].caller.Some? {
        match m
        case Ping => PlainSend(s1, c, Pong);
        case Connect(target) =>
          CountedKeepsRefusal(s, c, target, reg, now);
          PlainRefused(s1, c, target, reg, uuid);
        case Frame(sid, payload) => PlainFrame(s1, c, sid, payload);
        case Close(sid) => PlainEnd(s1, sid, "closed");
      }
    }
    PlainTrans(s, s1, t);
  }

  lemma PlainSelf(s: Server, t: Server, c: Conn)
    requires c in s.socks && t == s.(socks := t.socks) && t.socks.Keys == s.socks.Keys
    requires forall x :: x in s.socks && x != c ==> t.socks[x] == s.socks[x]
    requires t.socks[c].sent == s.socks[c].sent && t.socks[c].ws == s.socks[c].ws && t.socks[c].caller == s.socks[c].caller
    ensures Plain(s, t)
  {
  }

  /** A successful introduction registers the session and tells each end whose socket is open. */
  lemma IntroductionEffect(s: Server, c: Conn, m: ClientMsg, now: int, reg: Registry, uuid: Sid)
    requires c in s.socks && Introduces(s, c, m, now, reg)
    ensures var t := OnMessage(s, c, m, now, reg, uuid);
            var p := s.online[m.target];
            && t.socks.Keys == s.socks.Keys
            && t.sessions == s.sessions[uuid := Session(c, p)]
            && (forall x :: x in s.socks ==>
                  && t.socks[x].ws == s.socks[x].ws && t.socks[x].caller == s.socks[x].caller)
            && (forall x :: x in s.socks && x != c && x != p ==> t.socks[x].sent == s.socks[x].sent)
            && (p != c && p in s.socks ==>
                  t.socks[p].sent == s.socks[p].sent +
                  if s.socks[p].ws == Open
                  then [SessionOpened(uuid, Host, s.socks[c].caller.value.device)] else [])
            && (p != c ==>
                  t.socks[c].sent == s.socks[c].sent +
                  if s.socks[c].ws == Open then [SessionOpened(uuid, Viewer, m.target)] else [])
  {
    CountedKeepsRefusal(s, c, m.target, reg, now);
    hide Refusal;
    var s1 := s.(socks := s.socks[c := Counted(s.socks[c], now)]);
    ConnectEffect(s1, c, m.target, reg, uuid);
    hide OnConnect;
  }

  lemma ConnectEffect(s: Server, c: Conn, target: Device, reg: Registry, uuid: Sid)
    requires c in s.socks && s.socks[c].caller.Some? && s.socks[c].caller.value.device !in reg.blocked
    requires Refusal(s, c, target, reg).None?
    ensures var t := OnConnect(s, c, target, reg, uuid);
            var p := s.online[target];
            && t.socks == SendOn(SendOn(s.socks, p, SessionOpened(uuid, Host, s.socks[c].caller.value.device)),
                                 c, SessionOpened(uuid, Viewer, target))
            && t.sessions == s.sessions[uuid := Session(c, p)]
  {
  }

  /** A routed frame reaches the other end of its session, if that socket is open, and nobody else. */
  lemma RouteEffect(s: Server, c: Conn, m: ClientMsg, now: int, reg: Registry, uuid: Sid)
    requires c in s.socks && Routes(s, c, m, now)
    ensures var t := OnMessage(s, c, m, now, reg, uuid);
            var p := Peer(s, m.sid, c).value;
            && t.socks.Keys == s.socks.Keys && t.sessions == s.sessions
            && (forall x :: x in s.socks ==>
                  && t.socks[x].ws == s.socks[x].ws && t.socks[x].caller == s.socks[x].caller)
            && (forall x :: x in s.socks ==>
                  t.socks[x].sent == s.socks[x].sent +
                  if x == p && s.socks[p].ws == Open then [Relayed(m.sid, m.payload)] else [])
  {
  }
}
