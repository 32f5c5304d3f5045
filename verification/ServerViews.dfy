/** A list of the devices online, read at any moment, stays true with the announcements sent after it. */
module ServerViews {
  import opened Wrappers
  import opened Rendezvous
  import opened Signaling
  import opened ServerInvariants
  import opened ServerRouting

  /** What was sent stays sent, who was named stays named, and what was closed stays closed. */
  ghost predicate Onward(s: Server, t: Server) {
    s.socks.Keys <= t.socks.Keys
    && forall c :: c in s.socks ==>
         && s.socks[c].sent <= t.socks[c].sent
         && (s.socks[c].caller.Some? ==> t.socks[c].caller == s.socks[c].caller)
         && (s.socks[c].ws == Closed ==> t.socks[c].ws == Closed)
  }

  lemma PlainOnward(s: Server, t: Server)
    requires Plain(s, t) && forall c :: c in s.socks && s.socks[c].ws == Closed ==> t.socks[c].ws == Closed
    ensures Onward(s, t)
  {
  }

  lemma ClosedByMessage(s: Server, c: Conn, m: ClientMsg, now: int, reg: Registry, uuid: Sid)
    requires c in s.socks
    ensures var t := OnMessage(s, c, m, now, reg, uuid);
            && t.socks.Keys == s.socks.Keys
            && forall x :: x in s.socks && s.socks[x].ws == Closed ==> t.socks[x].ws == Closed
  {
    hide OnAuth, OnConnect;
    var s1 := s.(socks := s.socks[c := Counted(s.socks[c], now)]);
    if Handled(s, c, m, now) && m.Auth? {
      AuthShape(s1, c, m.token, now, reg);
    } else if Handled(s, c, m, now) && m.Connect? && s.socks[c].caller.Some? {
      ConnectShape(s1, c, m.target, reg, uuid);
    } else {
      hide OnMessage;
      OtherShape(s, c, m, now, reg, uuid);
    }
  }

  lemma MessageOnward(s: Server, c: Conn, m: ClientMsg, now: int, reg: Registry, uuid: Sid)
    requires c in s.socks
    ensures Onward(s, OnMessage(s, c, m, now, reg, uuid))
  {
    hide OnMessage, Introduces, Routes;
    ClosedByMessage(s, c, m, now, reg, uuid);
    if Introduces(s, c, m, now, reg) {
      IntroductionOnward(s, c, m, now, reg, uuid);
    } else if Routes(s, c, m, now) {
      RouteEffect(s, c, m, now, reg, uuid);
    } else {
      PlainMessage(s, c, m, now, reg, uuid);
      hide Plain, Onward;
      PlainOnward(s, OnMessage(s, c, m, now, reg, uuid));
    }
  }

  /** An introduction replaces nothing that was sent, even to a device introduced to itself. */
  lemma IntroductionOnward(s: Server, c: Conn, m: ClientMsg, now: int, reg: Registry, uuid: Sid)
    requires c in s.socks && Introduces(s, c, m, now, reg)
    ensures Onward(s, OnMessage(s, c, m, now, reg, uuid))
  {
    CountedKeepsRefusal(s, c, m.target, reg, now);
    hide Refusal;
    var s1 := s.(socks := s.socks[c := Counted(s.socks[c], now)]);
    var t := OnMessage(s, c, m, now, reg, uuid);
    assert Onward(s, s1);
    assert t == OnConnect(s1, c, m.target, reg, uuid);
    hide OnMessage, Onward, OnConnect;
    ConnectEffect(s1, c, m.target, reg, uuid);
    SentOnward(s1, t, s.online[m.target], SessionOpened(uuid, Host, s.socks[c].caller.value.device), c,
               SessionOpened(uuid, Viewer, m.target));
    OnwardTrans(s, s1, t);
  }

  lemma SentOnward(s: Server, t: Server, a: Conn, m: ServerMsg, b: Conn, n: ServerMsg)
    requires t.socks == SendOn(SendOn(s.socks, a, m), b, n)
    ensures Onward(s, t)
  {
  }

  lemma CloseOnward(s: Server, c: Conn, order: seq<Sid>, now: int)
    requires c in s.socks
    ensures Onward(s, OnClose(s, c, order, now))
  {
    hide OnClose;
    CloseShape(s, c, order, now);
    PlainClose(s, c, order, now);
    hide Plain, Onward;
    PlainOnward(s, OnClose(s, c, order, now));
  }

  lemma StepOnward(s: Server, e: Event)
    requires Enabled(s, e)
    ensures Onward(s, Step(s, e))
  {
    hide OnMessage, OnClose, Sound, Lists;
    match e
    case Got(c, m, now, reg, uuid) => MessageOnward(s, c, m, now, reg, uuid);
    case Lost(c, order, now) => CloseOnward(s, c, order, now);
    case _ =>
  }

  lemma OnwardTrans(s: Server, t: Server, u: Server)
    requires Onward(s, t) && Onward(t, u)
    ensures Onward(s, u)
  {
  }

  /** A connection keeps the list it first read for as long as it lives. */
  lemma {:induction false} RunOnward(w: Watched, es: seq<Event>, t: Watched, c: Conn)
    requires Run(w, es, t)
    ensures Onward(w.server, t.server)
    ensures Live(w.server, c) && Live(t.server, c) && c in w.listed ==> c in t.listed && t.listed[c] == w.listed[c]
    decreases |es|
  {
    if es != [] {
      var v := WatchedStep(w, es[0]);
      StepOnward(w.server, es[0]);
      hide Enabled, Step;
      RunOnward(v, es[1..], t, c);
      OnwardTrans(w.server, v.server, t.server);
    }
  }

  lemma {:induction false} NewsJoin(sent: seq<ServerMsg>, more: seq<ServerMsg>)
    ensures News(sent + more) == News(sent) + News(more)
    decreases |more|
  {
    if more == [] {
      assert sent + more == sent;
    } else {
      var n := |more| - 1;
      NewsJoin(sent, more[..n]);
      assert sent + more == (sent + more[..n]) + [more[n]];
      NewsOf(sent + more[..n], more[n]);
    }
  }

  lemma {:induction false} BeliefJoin(listed: set<Device>, news: seq<ServerMsg>, more: seq<ServerMsg>)
    ensures Belief(listed, news + more) == Belief(Belief(listed, news), more)
    decreases |more|
  {
    if more == [] {
      assert news + more == news;
    } else {
      var n := |more| - 1;
      BeliefJoin(listed, news, more[..n]);
      assert (news + more)[..|news + more| - 1] == news + more[..n];
    }
  }

  /** Whenever in a run a device that is online reads which others are, that list with all
      announcements sent to it since is the truth at any later moment of the run at which its
      socket is still open. */
  lemma ListIsKeptTrue(es: seq<Event>, t: Watched, more: seq<Event>, u: Watched, d: Device)
    requires Run(START, es, t) && Run(t, more, u)
    requires d in t.server.online && d in u.server.online && u.server.online[d] == t.server.online[d]
    requires var c := t.server.online[d];
             && c in t.server.socks && t.server.socks[c].ws == Open && c in u.server.socks && u.server.socks[c].ws == Open
    ensures var c := t.server.online[d];
            && Live(t.server, c) && Live(u.server, c) && |t.server.socks[c].sent| <= |u.server.socks[c].sent|
            && Belief(Others(t.server, c), News(u.server.socks[c].sent[|t.server.socks[c].sent|..])) == Others(u.server, c)
  {
    var c := t.server.online[d];
    ReachesBoth(es, t, more, u);
    assert Informed(t, c) && Informed(u, c);
    RunOnward(t, more, u, c);
    var h, g := t.server.socks[c].sent, u.server.socks[c].sent;
    hide ViewInv, Inv, Run, Others, News, Belief;
    assert g == h + g[|h|..];
    NewsJoin(h, g[|h|..]);
    BeliefJoin(t.listed[c], News(h), News(g[|h|..]));
  }

  lemma ReachesBoth(es: seq<Event>, t: Watched, more: seq<Event>, u: Watched)
    requires Run(START, es, t) && Run(t, more, u)
    ensures Inv(t.server) && ViewInv(t) && Inv(u.server) && ViewInv(u)
  {
    StartKeepsAll();
    hide Inv, ViewInv;
    RunKeepsAll(START, es, t);
    RunKeepsAll(t, more, u);
  }
}
