/** What every reachable state of the relay server satisfies, whatever its clients send. */
module ServerInvariants {
  import opened Wrappers
  import opened Rendezvous
  import opened Signaling

  /** One event at the server. Any client message may arrive at any time. */
  datatype Event =
    | Accepted(c: Conn, now: int)
    | Got(c: Conn, m: ClientMsg, now: int, reg: Registry, uuid: Sid)
    | Lost(c: Conn, order: seq<Sid>, now: int)
    | HungUp(c: Conn)                            // a timer, an administrator, a removed device
    | Swept(reg: Registry)

  /** A connected device keeps its account: its row and its tokens give the account it connected with.
      While it is not connected, it may be removed and enrolled under another. And a token that names a
      device is only held by that device. */
  ghost predicate Sound(reg: Registry, s: Server) {
    && (forall c :: Live(s, c) ==>
          var me := s.socks[c].caller.value;
          && (me.device in reg.devices ==> reg.devices[me.device].account == me.account)
          && (forall t :: t in reg.holders && reg.holders[t].device == Some(me.device) ==> reg.holders[t].account == me.account))
    && forall t :: t in reg.holders && reg.holders[t].device.Some? ==> reg.holders[t].device.value == t.device
  }

  ghost predicate Enabled(s: Server, e: Event) {
    match e
    case Accepted(c, _) => c !in s.socks
    case Got(c, _, _, reg, uuid) =>
      c in s.socks && s.socks[c].ws != Closed && uuid !in s.sessions && Sound(reg, s)
    case Lost(c, order, _) => c in s.socks && s.socks[c].ws != Closed && Lists(order, SessionsOf(s, c))
    case HungUp(c) => c in s.socks
    case Swept(reg) => true
  }

  function Step(s: Server, e: Event): Server {
    match e
    case Accepted(c, now) => Accept(s, c, now)
    case Got(c, m, now, reg, uuid) => if c in s.socks then OnMessage(s, c, m, now, reg, uuid) else s
    case Lost(c, order, now) => if c in s.socks then OnClose(s, c, order, now) else s
    case HungUp(c) => Hangup(s, c)
    case Swept(reg) => DropBlocked(s, reg)
  }

  // ---- the session and presence invariant --------------------------------------------

  predicate Live(s: Server, c: Conn) {
    c in s.socks && s.socks[c].ws != Closed && s.socks[c].caller.Some?
  }

  /** A session joins two distinct live connections of different devices on one account. */
  predicate Proper(s: Server, e: Session) {
    && e.a != e.b && Live(s, e.a) && Live(s, e.b)
    && s.socks[e.a].caller.value.account == s.socks[e.b].caller.value.account
    && s.socks[e.a].caller.value.device != s.socks[e.b].caller.value.device
  }

  /** All live connections of a device are of one account. */
  ghost predicate AccountsKept(s: Server) {
    forall c, x :: Live(s, c) && Live(s, x) && s.socks[c].caller.value.device == s.socks[x].caller.value.device ==>
      s.socks[c].caller.value.account == s.socks[x].caller.value.account
  }

  predicate OnlineLive(s: Server) {
    forall d :: d in s.online ==> Live(s, s.online[d]) && s.socks[s.online[d]].caller.value.device == d
  }

  predicate SessionsProper(s: Server) {
    forall sid :: sid in s.sessions ==> Proper(s, s.sessions[sid])
  }

  predicate WithinCap(s: Server, c: Conn) {
    |SessionsOf(s, c)| <= MAX_SESSIONS_PER_DEVICE
  }

  ghost predicate Inv(s: Server) {
    AccountsKept(s) && OnlineLive(s) && SessionsProper(s) && forall c :: WithinCap(s, c)
  }

  /** The sockets keep their identity: only what was sent, and whether they are open, differ. */
  ghost predicate SameSockets(s: Server, t: Server) {
    && t.socks.Keys == s.socks.Keys
    && (forall c :: c in s.socks ==> t.socks[c].caller == s.socks[c].caller)
    && (forall c :: c in s.socks ==> (t.socks[c].ws == Closed <==> s.socks[c].ws == Closed))
  }

  lemma FewerSessions(s: Server, t: Server, c: Conn)
    requires t.sessions.Keys <= s.sessions.Keys
    requires forall sid :: sid in t.sessions ==> t.sessions[sid] == s.sessions[sid]
    ensures SessionsOf(t, c) <= SessionsOf(s, c) && |SessionsOf(t, c)| <= |SessionsOf(s, c)|
  {
    Subset(SessionsOf(t, c), SessionsOf(s, c));
  }

  lemma {:induction false} Subset(a: set<Sid>, b: set<Sid>)
    requires a <= b
    ensures |a| <= |b|
  {
    assert |b| == |a| + |b - a| by { assert b == a + (b - a); }
  }

  lemma AccountsStay(s: Server, t: Server)
    requires AccountsKept(s) && t.socks.Keys == s.socks.Keys
    requires forall c :: c in s.socks ==> t.socks[c].caller == s.socks[c].caller && (s.socks[c].ws == Closed ==> t.socks[c].ws == Closed)
    ensures AccountsKept(t)
  {
    forall c, x | Live(t, c) && Live(t, x) && t.socks[c].caller.value.device == t.socks[x].caller.value.device
      ensures t.socks[c].caller.value.account == t.socks[x].caller.value.account
    {
      assert Live(s, c) && Live(s, x);
    }
  }

  /** Sessions and online entries that stay, stay as good as they were. */
  lemma EntriesStay(s: Server, t: Server)
    requires SameSockets(s, t)
    ensures forall c :: Live(s, c) ==> Live(t, c) && t.socks[c].caller == s.socks[c].caller
    ensures forall e :: Proper(s, e) ==> Proper(t, e)
  {
  }

  lemma CalmKeepsInv(s: Server, t: Server)
    requires Inv(s) && SameSockets(s, t)
    requires t.online.Keys <= s.online.Keys && forall d :: d in t.online ==> t.online[d] == s.online[d]
    requires t.sessions.Keys <= s.sessions.Keys
    requires forall sid :: sid in t.sessions ==> t.sessions[sid] == s.sessions[sid]
    ensures Inv(t)
  {
    AccountsStay(s, t);
    CalmKeepsEntries(s, t);
    hide AccountsKept, SameSockets, OnlineLive, SessionsProper, WithinCap;
    forall c: Conn ensures WithinCap(t, c) {
      assert WithinCap(s, c);
      CapStays(s, t, c);
    }
  }

  lemma CalmKeepsEntries(s: Server, t: Server)
    requires OnlineLive(s) && SessionsProper(s) && SameSockets(s, t)
    requires t.online.Keys <= s.online.Keys && forall d :: d in t.online ==> t.online[d] == s.online[d]
    requires forall sid :: sid in t.sessions ==> sid in s.sessions && t.sessions[sid] == s.sessions[sid]
    ensures OnlineLive(t) && SessionsProper(t)
  {
    EntriesStay(s, t);
    hide SameSockets, Live, Proper;
  }

  lemma CapStays(s: Server, t: Server, c: Conn)
    requires WithinCap(s, c) && t.sessions.Keys <= s.sessions.Keys
    requires forall sid :: sid in t.sessions ==> t.sessions[sid] == s.sessions[sid]
    ensures WithinCap(t, c)
  {
    FewerSessions(s, t, c);
  }

  /** The shape of a successful introduction. */
  lemma ConnectShape(s: Server, c: Conn, target: Device, reg: Registry, uuid: Sid)
    requires c in s.socks && s.socks[c].caller.Some?
    ensures var t := OnConnect(s, c, target, reg, uuid);
            && SameSockets(s, t) && t.online == s.online
            && if s.socks[c].caller.value.device in reg.blocked || Refusal(s, c, target, reg).Some?
               then t.sessions == s.sessions
               else t.sessions == s.sessions[uuid := Session(c, s.online[target])]
  {
  }

  lemma OpenKeepsCap(s: Server, t: Server, uuid: Sid, a: Conn, b: Conn, x: Conn)
    requires uuid !in s.sessions && t.sessions == s.sessions[uuid := Session(a, b)] && WithinCap(s, x)
    requires x == a || x == b ==> |SessionsOf(s, x)| < MAX_SESSIONS_PER_DEVICE
    ensures WithinCap(t, x)
  {
    if x == a || x == b {
      assert SessionsOf(t, x) == SessionsOf(s, x) + {uuid};
    } else {
      assert SessionsOf(t, x) == SessionsOf(s, x);
    }
  }

  lemma OpenKeepsInv(s: Server, t: Server, uuid: Sid, a: Conn, b: Conn)
    requires Inv(s) && SameSockets(s, t) && t.online == s.online
    requires uuid !in s.sessions && t.sessions == s.sessions[uuid := Session(a, b)]
    requires Proper(s, Session(a, b))
    requires |SessionsOf(s, a)| < MAX_SESSIONS_PER_DEVICE && |SessionsOf(s, b)| < MAX_SESSIONS_PER_DEVICE
    ensures Inv(t)
  {
    AccountsStay(s, t);
    OpenKeepsEntries(s, t, uuid, a, b);
    hide WithinCap, SessionsOf, AccountsKept, SameSockets, Proper, OnlineLive, SessionsProper, MAX_SESSIONS_PER_DEVICE;
    forall x ensures WithinCap(t, x) {
      OpenKeepsCap(s, t, uuid, a, b, x);
    }
  }

  lemma OpenKeepsEntries(s: Server, t: Server, uuid: Sid, a: Conn, b: Conn)
    requires OnlineLive(s) && SessionsProper(s) && SameSockets(s, t) && t.online == s.online
    requires t.sessions == s.sessions[uuid := Session(a, b)] && Proper(s, Session(a, b))
    ensures OnlineLive(t) && SessionsProper(t)
  {
    EntriesStay(s, t);
    hide SameSockets, Live, Proper;
  }

  lemma ConnectKeepsInv(s: Server, c: Conn, target: Device, reg: Registry, uuid: Sid)
    requires Inv(s) && Live(s, c) && uuid !in s.sessions && Sound(reg, s)
    ensures Inv(OnConnect(s, c, target, reg, uuid))
  {
    ConnectShape(s, c, target, reg, uuid);
    var t := OnConnect(s, c, target, reg, uuid);
    if s.socks[c].caller.value.device in reg.blocked || Refusal(s, c, target, reg).Some? {
      CalmKeepsInv(s, t);
    } else {
      OpenKeepsInv(s, t, uuid, c, s.online[target]);
    }
  }

  /** Whether this credential lets the connection in. */
  predicate Admits(s: Server, c: Conn, token: Token, reg: Registry)
    requires c in s.socks
  {
    && s.socks[c].caller.None? && token !in reg.refused && token in reg.holders && reg.holders[token].device.Some?
    && reg.holders[token].device.value in reg.devices && reg.devices[reg.holders[token].device.value].approved
  }

  /** The shape of an authentication: at most `c` gains a caller and becomes its device's connection. */
  lemma AuthShape(s: Server, c: Conn, token: Token, now: int, reg: Registry)
    requires c in s.socks
    ensures var t := OnAuth(s, c, token, now, reg);
            && t.sessions == s.sessions && t.socks.Keys == s.socks.Keys
            && (forall x :: x in s.socks ==> (t.socks[x].ws == Closed <==> s.socks[x].ws == Closed))
            && (forall x :: x in s.socks && x != c ==> t.socks[x].caller == s.socks[x].caller)
            && if Admits(s, c, token, reg)
               then
                 var h := reg.holders[token];
                 t.socks[c].caller == Some(Caller(h.device.value, h.account)) && t.online == s.online[h.device.value := c]
               else t.socks[c].caller == s.socks[c].caller && t.online == s.online
  {
    hide Add;
    if Admits(s, c, token, reg) {
      var h := reg.holders[token];
      AddShape(s.(socks := s.socks[c := s.socks[c].(caller := Some(Caller(h.device.value, h.account)))]), c, now);
    }
  }

  lemma AuthKeepsInv(s: Server, c: Conn, token: Token, now: int, reg: Registry)
    requires Inv(s) && c in s.socks && s.socks[c].ws != Closed && Sound(reg, s)
    ensures Inv(OnAuth(s, c, token, now, reg))
  {
    AuthShape(s, c, token, now, reg);
    AdmitKeepsInv(s, OnAuth(s, c, token, now, reg), c, token, reg);
  }

  lemma AdmitKeepsInv(s: Server, t: Server, c: Conn, token: Token, reg: Registry)
    requires Inv(s) && c in s.socks && s.socks[c].ws != Closed && Sound(reg, s)
    requires t.sessions == s.sessions && t.socks.Keys == s.socks.Keys
    requires forall x :: x in s.socks ==> (t.socks[x].ws == Closed <==> s.socks[x].ws == Closed)
    requires forall x :: x in s.socks && x != c ==> t.socks[x].caller == s.socks[x].caller
    requires if Admits(s, c, token, reg)
             then
               var h := reg.holders[token];
               t.socks[c].caller == Some(Caller(h.device.value, h.account)) && t.online == s.online[h.device.value := c]
             else t.socks[c].caller == s.socks[c].caller && t.online == s.online
    ensures Inv(t)
  {
    AdmitKeepsAccounts(s, t, c, token, reg);
    AdmitKeepsOnline(s, t, c, token, reg);
    hide AccountsKept, WithinCap, OnlineLive, SessionsProper, Admits, Sound;
    forall x: Conn ensures WithinCap(t, x) {
      assert WithinCap(s, x);
      CapStays(s, t, x);
    }
  }

  lemma AdmitKeepsOnline(s: Server, t: Server, c: Conn, token: Token, reg: Registry)
    requires OnlineLive(s) && SessionsProper(s) && c in s.socks && s.socks[c].ws != Closed
    requires t.sessions == s.sessions && t.socks.Keys == s.socks.Keys
    requires forall x :: x in s.socks ==> (t.socks[x].ws == Closed <==> s.socks[x].ws == Closed)
    requires forall x :: x in s.socks && x != c ==> t.socks[x].caller == s.socks[x].caller
    requires if Admits(s, c, token, reg)
             then
               var h := reg.holders[token];
               t.socks[c].caller == Some(Caller(h.device.value, h.account)) && t.online == s.online[h.device.value := c]
             else t.socks[c].caller == s.socks[c].caller && t.online == s.online
    ensures OnlineLive(t) && SessionsProper(t)
  {
    AdmitKeepsEntries(s, t, c);
    assert Admits(s, c, token, reg) ==> Live(t, c);
    hide Live, Admits, Proper;
  }

  lemma AdmitKeepsEntries(s: Server, t: Server, c: Conn)
    requires c in s.socks && t.socks.Keys == s.socks.Keys
    requires forall x :: x in s.socks ==> (t.socks[x].ws == Closed <==> s.socks[x].ws == Closed)
    requires forall x :: x in s.socks && x != c ==> t.socks[x].caller == s.socks[x].caller
    requires s.socks[c].caller.Some? ==> t.socks[c].caller == s.socks[c].caller
    ensures forall x :: Live(s, x) ==> Live(t, x) && t.socks[x].caller == s.socks[x].caller
    ensures forall e :: Proper(s, e) ==> Proper(t, e)
  {
  }

  lemma AdmitKeepsAccounts(s: Server, t: Server, c: Conn, token: Token, reg: Registry)
    requires AccountsKept(s) && c in s.socks && Sound(reg, s) && t.socks.Keys == s.socks.Keys
    requires forall x :: x in s.socks ==> (t.socks[x].ws == Closed <==> s.socks[x].ws == Closed)
    requires forall x :: x in s.socks && x != c ==> t.socks[x].caller == s.socks[x].caller
    requires if Admits(s, c, token, reg)
             then t.socks[c].caller == Some(Caller(reg.holders[token].device.value, reg.holders[token].account))
             else t.socks[c].caller == s.socks[c].caller
    ensures AccountsKept(t)
  {
    if Admits(s, c, token, reg) { NamedKeepsAccounts(s, c, token, reg); }
  }

  /** The shape of a close: the device goes offline unless it is back on another socket. */
  lemma CloseShape(s: Server, c: Conn, order: seq<Sid>, now: int)
    requires c in s.socks
    ensures var t := OnClose(s, c, order, now);
            && t.socks.Keys == s.socks.Keys
            && (forall x :: x in s.socks ==> t.socks[x].caller == s.socks[x].caller)
            && (forall x :: x in s.socks ==> (t.socks[x].ws == Closed <==> x == c || s.socks[x].ws == Closed))
            && (forall sid :: sid in t.sessions ==> sid in s.sessions && t.sessions[sid] == s.sessions[sid])
            && (if s.socks[c].caller.Some?
                then
                  var d := s.socks[c].caller.value.device;
                  && t.sessions.Keys == s.sessions.Keys - (set sid | sid in order)
                  && t.online == if d in s.online && s.online[d] == c then s.online - {d} else s.online
                else t.sessions == s.sessions && t.online == s.online)
  {
    hide EndAll, Announce;
    if s.socks[c].caller.Some? {
      var s1 := s.(socks := s.socks[c := s.socks[c].(ws := Closed)]);
      var d := s.socks[c].caller.value.device;
      var s2 := if d in s1.online && s1.online[d] == c then s1.(online := s1.online - {d}) else s1;
      EndAllKeepsSockets(s2, order, "peer-disconnected");
      AnnounceShape(EndAll(s2, order, "peer-disconnected"), c, false, now);
    }
  }

  lemma CloseKeepsSessions(s: Server, t: Server, c: Conn, order: seq<Sid>)
    requires SessionsProper(s) && c in s.socks && Lists(order, SessionsOf(s, c)) && t.socks.Keys == s.socks.Keys
    requires forall x :: x in s.socks ==> t.socks[x].caller == s.socks[x].caller
    requires forall x :: x in s.socks ==> (t.socks[x].ws == Closed <==> x == c || s.socks[x].ws == Closed)
    requires forall sid :: sid in t.sessions ==> sid in s.sessions && t.sessions[sid] == s.sessions[sid]
    requires s.socks[c].caller.Some? ==> t.sessions.Keys == s.sessions.Keys - (set sid | sid in order)
    ensures SessionsProper(t)
  {
    forall sid | sid in t.sessions ensures Proper(t, t.sessions[sid]) {
      assert Proper(s, s.sessions[sid]);
      assert s.socks[c].caller.Some? ==> sid !in SessionsOf(s, c);
    }
  }

  lemma CloseKeepsInv(s: Server, c: Conn, order: seq<Sid>, now: int)
    requires Inv(s) && c in s.socks && Lists(order, SessionsOf(s, c))
    ensures Inv(OnClose(s, c, order, now))
  {
    CloseShape(s, c, order, now);
    var t := OnClose(s, c, order, now);
    AccountsStay(s, t);
    hide AccountsKept, OnClose, WithinCap;
    CloseKeepsSessions(s, t, c, order);
    hide SessionsOf, Lists, Proper, SessionsProper;
    forall x: Conn ensures WithinCap(t, x) {
      assert WithinCap(s, x);
      CapStays(s, t, x);
    }
  }

  /** All but a handled credential or introduction leave callers and the online map alone,
      and can only end sessions. */
  lemma OtherShape(s: Server, c: Conn, m: ClientMsg, now: int, reg: Registry, uuid: Sid)
    requires c in s.socks
    requires Handled(s, c, m, now) ==> !m.Auth? && (m.Connect? ==> s.socks[c].caller.None?)
    ensures var t := OnMessage(s, c, m, now, reg, uuid);
            && SameSockets(s, t) && t.online == s.online
            && forall sid :: sid in t.sessions ==> sid in s.sessions && t.sessions[sid] == s.sessions[sid]
  {
    CalmMessage(s, c, m, now, reg, uuid);
    var t := OnMessage(s, c, m, now, reg, uuid);
    assert t.online == s.online && SameSockets(s, t);
    hide SendOn, CloseOn, OnAuth, OnConnect, Calm;
  }

  lemma MessageKeepsInv(s: Server, c: Conn, m: ClientMsg, now: int, reg: Registry, uuid: Sid)
    requires Inv(s) && c in s.socks && s.socks[c].ws != Closed && uuid !in s.sessions && Sound(reg, s)
    ensures Inv(OnMessage(s, c, m, now, reg, uuid))
  {
    if Handled(s, c, m, now) && (m.Auth? || (m.Connect? && s.socks[c].caller.Some?)) {
      hide Inv, OnAuth, OnConnect;
      CountedKeepsInv(s, c, now, reg);
      hide Sound, Counted;
      var s1 := s.(socks := s.socks[c := Counted(s.socks[c], now)]);
      if m.Auth? {
        AuthKeepsInv(s1, c, m.token, now, reg);
      } else {
        ConnectKeepsInv(s1, c, m.target, reg, uuid);
      }
    } else {
      OtherShape(s, c, m, now, reg, uuid);
      hide Inv, OnMessage, Sound;
      CalmKeepsInv(s, OnMessage(s, c, m, now, reg, uuid));
    }
  }

  lemma CountedKeepsInv(s: Server, c: Conn, now: int, reg: Registry)
    requires Inv(s) && c in s.socks && Sound(reg, s)
    ensures var s1 := s.(socks := s.socks[c := Counted(s.socks[c], now)]);
            && Inv(s1) && Sound(reg, s1) && s1.socks[c].ws == s.socks[c].ws && s1.socks[c].caller == s.socks[c].caller
  {
    hide Inv;
    CalmKeepsInv(s, s.(socks := s.socks[c := Counted(s.socks[c], now)]));
  }

  lemma AcceptKeepsInv(s: Server, c: Conn, now: int)
    requires Inv(s) && c !in s.socks
    ensures Inv(Accept(s, c, now))
  {
    var t := Accept(s, c, now);
    assert forall x :: Live(t, x) ==> Live(s, x) && t.socks[x] == s.socks[x];
    assert forall x :: Live(s, x) ==> Live(t, x) && t.socks[x] == s.socks[x];
    hide Accept, Live;
    forall x ensures WithinCap(t, x) {
      assert WithinCap(s, x) && SessionsOf(t, x) == SessionsOf(s, x);
    }
  }

  lemma SweptSockets(s: Server, reg: Registry)
    ensures Calm(s, DropBlocked(s, reg)) && DropBlocked(s, reg).sessions == s.sessions
  {
  }

  /** Every event keeps the invariant. */
  lemma StepKeepsInv(s: Server, e: Event)
    requires Inv(s) && Enabled(s, e)
    ensures Inv(Step(s, e))
  {
    hide Inv, Accept, OnMessage, OnClose, Hangup, DropBlocked, Sound, Lists;
    match e
    case Accepted(c, now) =>
      AcceptKeepsInv(s, c, now);
    case Got(c, m, now, reg, uuid) =>
      MessageKeepsInv(s, c, m, now, reg, uuid);
    case Lost(c, order, now) =>
      CloseKeepsInv(s, c, order, now);
    case HungUp(c) =>
      CalmHangup(s, c);
      CalmKeepsInv(s, Hangup(s, c));
    case Swept(reg) =>
      SweptSockets(s, reg);
      CalmKeepsInv(s, DropBlocked(s, reg));
  }

  // ---- what each device knows of the others ------------------------------------------

  /** The presence announcements among the messages sent. */
  function News(sent: seq<ServerMsg>): seq<ServerMsg> {
    if sent == [] then []
    else
      var last := sent[|sent| - 1];
      News(sent[..|sent| - 1]) + if last.Announced? then [last] else []
  }

  /** What a device believes after its initial list and some announcements. */
  function Belief(listed: set<Device>, news: seq<ServerMsg>): set<Device> {
    if news == [] then listed
    else
      var last := news[|news| - 1];
      var before := Belief(listed, news[..|news| - 1]);
      if !last.Announced? then before
      else if last.isOnline then before + {last.device} else before - {last.device}
  }

  /** The other devices of the account that really are online. */
  function Others(s: Server, c: Conn): set<Device>
    requires Live(s, c)
  {
    set d | d in s.online && Hears(s, s.online[d], c) && d != s.socks[c].caller.value.device
  }

  /** The server together with the list each device read as it came online. */
  datatype Watched = Watched(server: Server, listed: map<Conn, set<Device>>)

  function WatchedStep(w: Watched, e: Event): Watched {
    var t := Step(w.server, e);
    if e.Got? && Live(t, e.c) && !Live(w.server, e.c)
    then Watched(t, w.listed[e.c := Belief(Others(t, e.c), [])]) else Watched(t, w.listed)
  }

  predicate Informed(w: Watched, c: Conn)
    requires Live(w.server, c)
  {
    c in w.listed && Belief(w.listed[c], News(w.server.socks[c].sent)) == Others(w.server, c)
  }

  ghost predicate ViewInv(w: Watched) {
    && (forall d | d in w.server.online && Live(w.server, w.server.online[d])
          && w.server.socks[w.server.online[d]].ws == Open :: Informed(w, w.server.online[d]))
    && (forall c :: c in w.server.socks && w.server.socks[c].caller.None? ==> News(w.server.socks[c].sent) == [])
  }

  lemma NewsOf(sent: seq<ServerMsg>, m: ServerMsg)
    ensures News(sent + [m]) == News(sent) + if m.Announced? then [m] else []
  {
    assert (sent + [m])[..|sent|] == sent;
  }

  /** No announcement is sent, and nobody comes or goes. */
  ghost predicate Calm(s: Server, t: Server) {
    && t.online == s.online && SameSockets(s, t)
    && forall c :: c in s.socks ==>
         News(t.socks[c].sent) == News(s.socks[c].sent) && (t.socks[c].ws == Open ==> s.socks[c].ws == Open)
  }

  lemma CalmSend(s: Server, c: Conn, m: ServerMsg)
    requires !m.Announced?
    ensures Calm(s, Reply(s, c, m))
  {
    if c in s.socks { NewsOf(s.socks[c].sent, m); }
    hide News;
  }

  lemma {:induction false} CalmEnd(s: Server, sid: Sid, reason: string)
    ensures Calm(s, EndSession(s, sid, reason))
  {
    if sid in s.sessions {
      var m := SessionEnded(sid, reason);
      CalmSend(s, s.sessions[sid].a, m);
      CalmSend(Reply(s, s.sessions[sid].a, m), s.sessions[sid].b, m);
    }
  }

  lemma {:induction false} CalmEndAll(s: Server, order: seq<Sid>, reason: string)
    ensures Calm(s, EndAll(s, order, reason))
  {
    if order != [] {
      CalmEndAll(s, order[..|order| - 1], reason);
      CalmEnd(EndAll(s, order[..|order| - 1], reason), order[|order| - 1], reason);
    }
  }

  lemma CalmKeepsView(w: Watched, t: Server)
    requires ViewInv(w) && Calm(w.server, t)
    ensures ViewInv(Watched(t, w.listed))
  {
    forall d | d in t.online && Live(t, t.online[d]) && t.socks[t.online[d]].ws == Open
      ensures Informed(Watched(t, w.listed), t.online[d])
    {
      var c := t.online[d];
      assert Informed(w, c);
      assert Others(t, c) == Others(w.server, c);
    }
  }

  lemma CalmTrans(s: Server, t: Server, u: Server)
    requires Calm(s, t) && Calm(t, u)
    ensures Calm(s, u)
  {
  }

  lemma CalmHangup(s: Server, c: Conn)
    ensures Calm(s, Hangup(s, c)) && Hangup(s, c).sessions == s.sessions
  {
  }

  lemma CalmConnect(s: Server, c: Conn, target: Device, reg: Registry, uuid: Sid)
    requires c in s.socks && s.socks[c].caller.Some?
    ensures Calm(s, OnConnect(s, c, target, reg, uuid))
  {
    var me := s.socks[c].caller.value;
    if me.device in reg.blocked {
      CalmHangup(s, c);
    } else {
      match Refusal(s, c, target, reg)
      case Some(reason) => CalmSend(s, c, ConnectFailed(target, reason));
      case None =>
        var p := s.online[target];
        var s1 := OpenSession(s, uuid, c, p);
        var s2 := Reply(s1, p, SessionOpened(uuid, Host, me.device));
        CalmSend(s1, p, SessionOpened(uuid, Host, me.device));
        CalmSend(s2, c, SessionOpened(uuid, Viewer, target));
        CalmTrans(s1, s2, OnConnect(s, c, target, reg, uuid));
    }
  }

  lemma CalmFrame(s: Server, c: Conn, sid: Sid, payload: Payload)
    ensures Calm(s, OnFrame(s, c, sid, payload))
  {
    match Peer(s, sid, c)
    case None => CalmSend(s, c, SessionEnded(sid, "unknown-session"));
    case Some(p) => CalmSend(s, p, Relayed(sid, payload));
  }

  lemma CalmMessage(s: Server, c: Conn, m: ClientMsg, now: int, reg: Registry, uuid: Sid)
    requires c in s.socks
    requires !(Handled(s, c, m, now) && m.Auth?)
    ensures Calm(s, OnMessage(s, c, m, now, reg, uuid))
  {
    hide OnAuth, OnConnect, OnFrame, EndSession, Calm, Reply, Hangup;
    var s1 := if m.Binary? then s.(socks := s.socks[c := s.socks[c].(lastSeen := now)])
              else s.(socks := s.socks[c := Counted(s.socks[c], now)]);
    CalmHangup(s1, c);
    if Handled(s, c, m, now) {
      if Unreadable(m) {
        CalmSend(s1, c, Error);
        CalmHangup(Reply(s1, c, Error), c);
        CalmTrans(s1, Reply(s1, c, Error), OnMessage(s, c, m, now, reg, uuid));
      } else if s1.socks[c].caller.Some? {
        match m
        case Connect(target) => CalmConnect(s1, c, target, reg, uuid);
        case Frame(sid, payload) => CalmFrame(s1, c, sid, payload);
        case Close(sid) => CalmEnd(s1, sid, "closed");
        case Ping => CalmSend(s1, c, Pong);
      }
    }
    CalmTrans(s, s1, OnMessage(s, c, m, now, reg, uuid));
  }

  lemma BeliefAfter(listed: set<Device>, sent: seq<ServerMsg>, m: ServerMsg)
    requires m.Announced?
    ensures var before := Belief(listed, News(sent));
            Belief(listed, News(sent + [m])) == if m.isOnline then before + {m.device} else before - {m.device}
  {
    NewsOf(sent, m);
    assert (News(sent) + [m])[..|News(sent)|] == News(sent);
  }

  /** After an announcement, everyone who heard it believes it. */
  lemma AnnounceInforms(s: Server, c: Conn, isOnline: bool, now: int, x: Conn, listed: set<Device>)
    requires c in s.socks && s.socks[c].caller.Some? && x in s.socks
    ensures var d := s.socks[c].caller.value.device;
            var before := Belief(listed, News(s.socks[x].sent));
            Belief(listed, News(Announce(s, c, isOnline, now).socks[x].sent)) ==
            if x in s.online.Values && Hears(s, x, c) && s.socks[x].ws == Open
            then (if isOnline then before + {d} else before - {d}) else before
  {
    hide Belief, News, Hears;
    BeliefAfter(listed, s.socks[x].sent, Announced(s.socks[c].caller.value.device, isOnline, now));
  }

  lemma AddSent(s: Server, c: Conn, now: int, x: Conn)
    requires c in s.socks && s.socks[c].caller.Some? && x in s.socks
    ensures var d := s.socks[c].caller.value.device;
            Add(s, c, now).socks[x].sent == s.socks[x].sent +
            if d !in s.online && x in s.online.Values && Hears(s, x, c) && s.socks[x].ws == Open
            then [Announced(d, true, now)] else []
  {
    var s2 := s.(online := s.online[s.socks[c].caller.value.device := c]);
    if s.socks[c].caller.value.device !in s.online && x in s.online.Values {
      var e :| e in s.online && s.online[e] == x;
      assert s2.online[e] == x;
    }
  }

  /** What an arriving device does to the beliefs of another connection. */
  lemma AddInforms(s: Server, c: Conn, now: int, x: Conn, listed: set<Device>)
    requires c in s.socks && s.socks[c].caller.Some? && x in s.socks
    ensures var d := s.socks[c].caller.value.device;
            var before := Belief(listed, News(s.socks[x].sent));
            Belief(listed, News(Add(s, c, now).socks[x].sent)) ==
            if d !in s.online && x in s.online.Values && Hears(s, x, c) && s.socks[x].ws == Open
            then before + {d} else before
  {
    hide Add, Belief, News, Hears;
    AddSent(s, c, now, x);
    BeliefAfter(listed, s.socks[x].sent, Announced(s.socks[c].caller.value.device, true, now));
    assert s.socks[x].sent + [] == s.socks[x].sent;
  }

  lemma AddShape(s: Server, c: Conn, now: int)
    requires c in s.socks && s.socks[c].caller.Some?
    ensures var t := Add(s, c, now);
            SameSockets(s, t) && t.online == s.online[s.socks[c].caller.value.device := c] && t.sessions == s.sessions
    ensures forall x :: x in s.socks && Add(s, c, now).socks[x].ws == Open ==> s.socks[x].ws == Open
    ensures c !in s.online.Values ==> Add(s, c, now).socks[c] == s.socks[c]
  {
  }

  /** A device that comes online: everyone who may hear of it does, and its own list is true. */
  lemma AddKeepsView(w: Watched, c: Conn, now: int)
    requires var s := w.server;
             && c in s.socks && s.socks[c].caller.Some? && s.socks[c].ws != Closed && c !in s.online.Values
             && AccountsKept(s) && OnlineLive(s) && ViewInv(w) && News(s.socks[c].sent) == []
    ensures ViewInv(Watched(Add(w.server, c, now), w.listed[c := Others(Add(w.server, c, now), c)]))
  {
    hide Add, Belief, News;
    var s := w.server;
    var d := s.socks[c].caller.value.device;
    AddShape(s, c, now);
    var t := Add(s, c, now);
    ListedIsBelief(Others(t, c), t.socks[c].sent);
    var listed := w.listed[c := Others(t, c)];
    forall e | e in t.online && Live(t, t.online[e]) && t.socks[t.online[e]].ws == Open
      ensures Informed(Watched(t, listed), t.online[e])
    {
      var x := t.online[e];
      if x != c {
        assert x == s.online[e] && Informed(w, x);
        AddInforms(s, c, now, x, w.listed[x]);
        OthersAfterAdd(s, t, c, x);
      }
    }
    forall x | x in t.socks && t.socks[x].caller.None? ensures News(t.socks[x].sent) == [] {
      AddUnheard(s, c, now, x);
    }
  }

  lemma ListedIsBelief(listed: set<Device>, sent: seq<ServerMsg>)
    ensures News(sent) == [] ==> Belief(listed, News(sent)) == listed
  {
  }

  lemma AddUnheard(s: Server, c: Conn, now: int, x: Conn)
    requires c in s.socks && s.socks[c].caller.Some? && x in s.socks && s.socks[x].caller.None?
    ensures Add(s, c, now).socks[x].sent == s.socks[x].sent
  {
  }

  lemma OthersAfterAdd(s: Server, t: Server, c: Conn, x: Conn)
    requires Live(s, x) && c in s.socks && s.socks[c].caller.Some? && x != c && SameSockets(s, t) && OnlineLive(s)
    requires t.online == s.online[s.socks[c].caller.value.device := c]
    requires s.socks[c].caller.value.device != s.socks[x].caller.value.device
    requires s.socks[c].caller.value.device in s.online ==>
               Hears(s, s.online[s.socks[c].caller.value.device], x) == Hears(s, c, x)
    ensures Live(t, x)
    ensures Others(t, x) ==
            if Hears(s, c, x) then Others(s, x) + {s.socks[c].caller.value.device} else Others(s, x)
  {
    forall d | d in t.online ensures Hears(t, t.online[d], x) == Hears(s, t.online[d], x) {
    }
  }

  lemma AuthKeepsView(w: Watched, c: Conn, token: Token, now: int, reg: Registry)
    requires ViewInv(w) && Inv(w.server) && c in w.server.socks && w.server.socks[c].ws != Closed
    requires Sound(reg, w.server) && Admits(w.server, c, token, reg)
    ensures var t := OnAuth(w.server, c, token, now, reg);
            Live(t, c) && ViewInv(Watched(t, w.listed[c := Others(t, c)]))
  {
    hide Add, Reply, Calm, ViewInv;
    var s := w.server;
    var d := reg.holders[token].device.value;
    var k := s.socks[c].(caller := Some(Caller(d, reg.holders[token].account)));
    var s1 := s.(socks := s.socks[c := k]);
    NamedKeepsView(w, s1, c);
    NamedKeepsAccounts(s, c, token, reg);
    AddShape(s1, c, now);
    AddKeepsView(Watched(s1, w.listed), c, now);
    var s2 := Add(s1, c, now);
    CalmSend(s2, c, Ready(d));
    var t := Reply(s2, c, Ready(d));
    CalmKeepsView(Watched(s2, w.listed[c := Others(s2, c)]), t);
    CalmOthers(s2, t, c);
  }

  lemma CalmOthers(s: Server, t: Server, c: Conn)
    requires Calm(s, t) && Live(s, c)
    ensures Live(t, c) && Others(t, c) == Others(s, c)
  {
  }

  /** A device that connects again does so with the account of its older connections. */
  lemma NamedKeepsAccounts(s: Server, c: Conn, token: Token, reg: Registry)
    requires AccountsKept(s) && c in s.socks && Sound(reg, s) && token in reg.holders && reg.holders[token].device.Some?
    ensures var h := reg.holders[token];
            AccountsKept(s.(socks := s.socks[c := s.socks[c].(caller := Some(Caller(h.device.value, h.account)))]))
  {
    var h := reg.holders[token];
    var t := s.(socks := s.socks[c := s.socks[c].(caller := Some(Caller(h.device.value, h.account)))]);
    forall x, y | Live(t, x) && Live(t, y) && t.socks[x].caller.value.device == t.socks[y].caller.value.device
      ensures t.socks[x].caller.value.account == t.socks[y].caller.value.account
    {
      assert x != c ==> Live(s, x);
      assert y != c ==> Live(s, y);
    }
  }

  /** Learning who a connection is changes nothing for the others. */
  lemma NamedKeepsView(w: Watched, t: Server, c: Conn)
    requires var s := w.server;
             && ViewInv(w) && OnlineLive(s) && c in s.socks && s.socks[c].caller.None? && s.socks[c].ws != Closed
             && t.online == s.online && t.sessions == s.sessions && t.socks.Keys == s.socks.Keys
             && (forall x :: x in s.socks && x != c ==> t.socks[x] == s.socks[x])
             && t.socks[c].caller.Some? && t.socks[c] == s.socks[c].(caller := t.socks[c].caller)
    ensures ViewInv(Watched(t, w.listed)) && OnlineLive(t)
    ensures c !in t.online.Values && News(t.socks[c].sent) == []
  {
    var s := w.server;
    forall d | d in t.online && Live(t, t.online[d]) && t.socks[t.online[d]].ws == Open
      ensures Informed(Watched(t, w.listed), t.online[d])
    {
      assert Informed(w, s.online[d]);
      assert Others(t, t.online[d]) == Others(s, s.online[d]);
    }
  }

  lemma CloseCalm(s: Server, c: Conn, order: seq<Sid>, now: int)
    requires c in s.socks && s.socks[c].caller.Some?
    ensures var d := s.socks[c].caller.value.device;
            var s1 := s.(socks := s.socks[c := s.socks[c].(ws := Closed)]);
            var gone := d in s.online && s.online[d] == c;
            var s2 := if gone then s1.(online := s1.online - {d}) else s1;
            var s3 := EndAll(s2, order, "peer-disconnected");
            && Calm(s2, s3) && OnClose(s, c, order, now) == if gone then Announce(s3, c, false, now) else s3
  {
    var d := s.socks[c].caller.value.device;
    var s1 := s.(socks := s.socks[c := s.socks[c].(ws := Closed)]);
    var s2 := if d in s.online && s.online[d] == c then s1.(online := s1.online - {d}) else s1;
    EndAllKeepsSockets(s2, order, "peer-disconnected");
    CalmEndAll(s2, order, "peer-disconnected");
  }

  lemma CloseKeepsView(w: Watched, c: Conn, order: seq<Sid>, now: int)
    requires ViewInv(w) && OnlineLive(w.server) && c in w.server.socks
    ensures ViewInv(Watched(OnClose(w.server, c, order, now), w.listed))
  {
    hide Announce, EndAll;
    var s := w.server;
    var s1 := s.(socks := s.socks[c := s.socks[c].(ws := Closed)]);
    if s.socks[c].caller.None? {
      ClosedKeepsView(w, s1, c);
    } else {
      var d := s.socks[c].caller.value.device;
      CloseCalm(s, c, order, now);
      if d in s.online && s.online[d] == c {
        var s2 := s1.(online := s1.online - {d});
        GoneKeepsView(w, EndAll(s2, order, "peer-disconnected"), c, now);
      } else {
        ClosedKeepsView(w, s1, c);
        CalmKeepsView(Watched(s1, w.listed), OnClose(s, c, order, now));
      }
    }
  }

  lemma ClosedKeepsView(w: Watched, t: Server, c: Conn)
    requires ViewInv(w) && OnlineLive(w.server) && c in w.server.socks && c !in w.server.online.Values
    requires t == w.server.(socks := w.server.socks[c := w.server.socks[c].(ws := Closed)])
    ensures ViewInv(Watched(t, w.listed))
  {
    forall d | d in t.online && Live(t, t.online[d]) && t.socks[t.online[d]].ws == Open
      ensures Informed(Watched(t, w.listed), t.online[d])
    {
      assert Informed(w, t.online[d]);
      assert Others(t, t.online[d]) == Others(w.server, t.online[d]);
    }
  }

  /** A device that goes offline: everyone who may hear of it does. */
  lemma GoneKeepsView(w: Watched, s3: Server, c: Conn, now: int)
    requires ViewInv(w) && OnlineLive(w.server) && Live(w.server, c)
    requires var d := w.server.socks[c].caller.value.device;
             d in w.server.online && w.server.online[d] == c && s3.online == w.server.online - {d}
    requires s3.socks.Keys == w.server.socks.Keys
    requires forall x :: x in s3.socks ==>
               && s3.socks[x].caller == w.server.socks[x].caller && News(s3.socks[x].sent) == News(w.server.socks[x].sent)
               && (s3.socks[x].ws == Open ==> w.server.socks[x].ws == Open && x != c)
    ensures ViewInv(Watched(Announce(s3, c, false, now), w.listed))
  {
    var s := w.server;
    var d := s.socks[c].caller.value.device;
    var t := Announce(s3, c, false, now);
    AnnounceShape(s3, c, false, now);
    hide Announce;
    forall e | e in t.online && Live(t, t.online[e]) && t.socks[t.online[e]].ws == Open
      ensures Informed(Watched(t, w.listed), t.online[e])
    {
      var x := t.online[e];
      assert x == w.server.online[e] && Live(w.server, x) && Informed(w, x);
      AnnounceInforms(s3, c, false, now, x, w.listed[x]);
      OthersAfterGone(s, t, c, x);
    }
  }

  lemma OthersAfterGone(s: Server, t: Server, c: Conn, x: Conn)
    requires Live(s, x) && Live(t, x) && Live(s, c) && x != c
    requires t.socks.Keys == s.socks.Keys && forall y :: y in s.socks ==> t.socks[y].caller == s.socks[y].caller
    requires t.online == s.online - {s.socks[c].caller.value.device} && s.socks[c].caller.value.device in s.online
    requires s.online[s.socks[c].caller.value.device] == c
    ensures Others(t, x) == if Hears(s, x, c) then Others(s, x) - {s.socks[c].caller.value.device} else Others(s, x)
  {
    forall d | d in t.online ensures Hears(t, t.online[d], x) == Hears(s, s.online[d], x) {
    }
  }

  lemma AnnounceShape(s: Server, c: Conn, isOnline: bool, now: int)
    requires c in s.socks && s.socks[c].caller.Some?
    ensures var t := Announce(s, c, isOnline, now);
            && SameSockets(s, t) && t.online == s.online && t.sessions == s.sessions
            && (forall x :: x in s.socks ==> t.socks[x].ws == s.socks[x].ws)
            && forall x :: x in s.socks && s.socks[x].caller.None? ==> t.socks[x] == s.socks[x]
  {
  }

  lemma CountedCalm(s: Server, c: Conn, now: int)
    requires Inv(s) && c in s.socks
    ensures var t := s.(socks := s.socks[c := Counted(s.socks[c], now)]);
            Calm(s, t) && Inv(t)
  {
    CalmKeepsInv(s, s.(socks := s.socks[c := Counted(s.socks[c], now)]));
  }

  lemma RefusedAuth(s: Server, c: Conn, token: Token, now: int, reg: Registry)
    requires c in s.socks && !Admits(s, c, token, reg)
    ensures OnAuth(s, c, token, now, reg) == Hangup(s, c)
  {
  }

  lemma SameLive(s: Server, t: Server, c: Conn)
    requires Calm(s, t)
    ensures Live(s, c) == Live(t, c)
  {
  }

  lemma MessageKeepsView(w: Watched, c: Conn, m: ClientMsg, now: int, reg: Registry, uuid: Sid)
    requires ViewInv(w) && Inv(w.server) && Enabled(w.server, Got(c, m, now, reg, uuid))
    ensures ViewInv(WatchedStep(w, Got(c, m, now, reg, uuid)))
  {
    hide OnAuth, OnConnect, OnFrame, Calm, ViewInv, Inv;
    var s := w.server;
    var s1 := s.(socks := s.socks[c := Counted(s.socks[c], now)]);
    if Handled(s, c, m, now) && m.Auth? {
      CountedCalm(s, c, now);
      CalmKeepsView(w, s1);
      AuthShape(s1, c, m.token, now, reg);
      if Admits(s1, c, m.token, reg) {
        AuthKeepsView(Watched(s1, w.listed), c, m.token, now, reg);
      } else {
        CalmHangup(s1, c);
        RefusedAuth(s1, c, m.token, now, reg);
        CalmKeepsView(Watched(s1, w.listed), OnAuth(s1, c, m.token, now, reg));
      }
    } else {
      CalmMessage(s, c, m, now, reg, uuid);
      CalmKeepsView(w, Step(s, Got(c, m, now, reg, uuid)));
      SameLive(s, Step(s, Got(c, m, now, reg, uuid)), c);
    }
  }

  lemma AcceptKeepsView(w: Watched, c: Conn, now: int)
    requires ViewInv(w) && OnlineLive(w.server) && c !in w.server.socks
    ensures ViewInv(WatchedStep(w, Accepted(c, now)))
  {
    var s, e := w.server, Accepted(c, now);
    forall d | d in s.online && s.socks[s.online[d]].ws == Open
      ensures Informed(WatchedStep(w, e), s.online[d])
    {
      assert Informed(w, s.online[d]);
      assert Others(Step(s, e), s.online[d]) == Others(s, s.online[d]);
    }
  }

  lemma StepKeepsView(w: Watched, e: Event)
    requires ViewInv(w) && Inv(w.server) && Enabled(w.server, e)
    ensures ViewInv(WatchedStep(w, e))
  {
    assert OnlineLive(w.server);
    hide Inv, ViewInv, OnlineLive, Accept, OnMessage, OnClose, Hangup, DropBlocked, Calm;
    var s := w.server;
    match e
    case Accepted(c, now) =>
      AcceptKeepsView(w, c, now);
    case Got(c, m, now, reg, uuid) =>
      MessageKeepsView(w, c, m, now, reg, uuid);
    case Lost(c, order, now) =>
      CloseKeepsView(w, c, order, now);
    case HungUp(c) =>
      CalmHangup(s, c);
      CalmKeepsView(w, Hangup(s, c));
    case Swept(reg) =>
      SweptSockets(s, reg);
      CalmKeepsView(w, DropBlocked(s, reg));
  }

  // ---- every run -----------------------------------------------------------------------

  ghost predicate Run(w: Watched, es: seq<Event>, t: Watched)
    decreases |es|
  {
    if es == [] then t == w
    else Enabled(w.server, es[0]) && Run(WatchedStep(w, es[0]), es[1..], t)
  }

  const START: Watched := Watched(Server(map[], map[], map[]), map[])

  lemma {:induction false} RunKeepsAll(w: Watched, es: seq<Event>, t: Watched)
    requires Inv(w.server) && ViewInv(w) && Run(w, es, t)
    ensures Inv(t.server) && ViewInv(t)
    decreases |es|
  {
    if es != [] {
      StepKeepsInv(w.server, es[0]);
      StepKeepsView(w, es[0]);
      RunKeepsAll(WatchedStep(w, es[0]), es[1..], t);
    }
  }

  lemma StartKeepsAll()
    ensures Inv(START.server) && ViewInv(START)
  {
    forall c: Conn ensures WithinCap(START.server, c) {
      assert SessionsOf(START.server, c) == {};
    }
  }

  /** In every reachable state: sessions join two distinct live connections of one account,
      no connection has more than four, and every online device whose socket is open believes
      exactly the truth about the other devices of its account. */
  lemma Reachable(es: seq<Event>, t: Watched)
    requires Run(START, es, t)
    ensures forall sid :: sid in t.server.sessions ==> Proper(t.server, t.server.sessions[sid])
    ensures forall c :: WithinCap(t.server, c)
    ensures forall d :: d in t.server.online ==>
              && Live(t.server, t.server.online[d]) && t.server.socks[t.server.online[d]].caller.value.device == d
              && (t.server.socks[t.server.online[d]].ws == Open ==> Informed(t, t.server.online[d]))
  {
    StartKeepsAll();
    RunKeepsAll(START, es, t);
  }
}
