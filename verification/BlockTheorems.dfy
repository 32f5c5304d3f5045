/** How long a block lasts, and what it keeps from happening. */
module BlockTheorems {
  import opened Wrappers
  import opened Rendezvous
  import Signaling
  import SI = ServerInvariants
  import ServerViews
  import opened Blocks

  datatype Event =
    | Signs(account: Account)                        // a new account
    | Enrols(who: Who, d: Device, proof: bool)
    | Approves(who: Who, d: Device)
    | Removes(who: Who, d: Device)
    | Registers(d: Device, proof: bool)
    | Sets(d: Device, at: Option<int>)
    | SetsAccount(a: Account, at: Option<int>)

  function Next(s: Store, e: Event): Store {
    match e
    case Signs(a) => if a in s.accounts then s else s.(accounts := s.accounts[a := None])
    case Enrols(who, d, proof) => Enrol(s, who, d, proof).0
    case Approves(who, d) => Approve(s, who, d).0
    case Removes(who, d) => RemoveDevice(s, who, d).0
    case Registers(d, proof) => Register(s, d, proof).0
    case Sets(d, at) => SetBlocked(s, d, at).0
    case SetsAccount(a, at) => SetAccountBlock(s, a, at)
  }

  function Run(s: Store, es: seq<Event>): Store
    decreases |es|
  {
    if es == [] then s else Run(Next(s, es[0]), es[1..])
  }

  /** The device is not unblocked; everything else may happen to it and to others. */
  predicate Spares(es: seq<Event>, d: Device) {
    forall i :: 0 <= i < |es| ==> !(es[i].Sets? && es[i].d == d && es[i].at.None?)
  }

  lemma {:induction false} InstallationBlockStays(s: Store, es: seq<Event>, d: Device)
    requires d in s.installations && s.installations[d].Some? && Spares(es, d)
    ensures d in Run(s, es).installations && Run(s, es).installations[d].Some?
    decreases |es|
  {
    if es != [] {
      assert !(es[0].Sets? && es[0].d == d && es[0].at.None?);
      InstallationBlockStays(Next(s, es[0]), es[1..], d);
    }
  }

  /** A block that an administrator sets on a known computer holds through every run of enrolling,
      approving, removing and registering without an unblock, if and only if the computer has an
      installation record to block. */
  lemma BlockSticks(s: Store, d: Device, at: int)
    requires d in s.devices || d in s.installations
    ensures (forall es :: Spares(es, d) ==> IsBlocked(Run(SetBlocked(s, d, Some(at)).0, es), d)) <==> d in s.installations
  {
    var b := SetBlocked(s, d, Some(at)).0;
    if d in s.installations {
      forall es | Spares(es, d) ensures IsBlocked(Run(b, es), d) { InstallationBlockStays(b, es, d); }
    } else {
      var es := [Removes(Who(s.devices[d].account, None, false), d)];
      assert Run(b, es) == Run(Next(b, es[0]), es[1..]) == Next(b, es[0]);
      assert Spares(es, d) && !IsBlocked(Run(b, es), d);
    }
  }

  /** Without one, removing the computer and enrolling it again brings it back, unblocked and approved. */
  lemma ReenrolmentUndoesADeviceBlock(a: Account, d: Device, at: int)
    ensures var s := Store(map[a := None], map[d := DeviceRecord(a, true, None)], map[]);
            var me := Who(a, None, false);
            var b := SetBlocked(s, d, Some(at)).0;
            var v := Run(b, [Removes(me, d), Enrols(me, d, true)]);
            IsBlocked(b, d) && !IsBlocked(v, d) && d in v.devices && v.devices[d].approved
  {
    var s := Store(map[a := None], map[d := DeviceRecord(a, true, None)], map[]);
    var me := Who(a, None, false);
    var b := SetBlocked(s, d, Some(at)).0;
    var es := [Removes(me, d), Enrols(me, d, true)];
    var gone := Next(b, es[0]);
    assert gone.devices == map[];
    assert es[1..] == [es[1]] && es[1..][1..] == [];
    assert Run(b, es) == Run(gone, es[1..]) == Run(Next(gone, es[1]), []);
  }

  // ---- the relay -----------------------------------------------------------------------------------------

  /** The device at the other side of a connection. */
  predicate Names(s: Server, c: Conn, d: Device) { c in s.socks && s.socks[c].caller.Some? && s.socks[c].caller.value.device == d }

  /** No message makes the relay open a session with a blocked device at either end. */
  lemma BlockedOpensNothing(s: Server, c: Conn, m: Signaling.ClientMsg, now: int, reg: Signaling.Registry, uuid: Sid, d: Device)
    requires SI.OnlineLive(s) && c in s.socks && d in reg.blocked
    ensures var t := Signaling.OnMessage(s, c, m, now, reg, uuid);
            forall sid :: sid in t.sessions && (sid !in s.sessions || t.sessions[sid] != s.sessions[sid]) ==>
              !Names(t, t.sessions[sid].a, d) && !Names(t, t.sessions[sid].b, d)
  {
    hide Signaling.OnAuth, Signaling.OnConnect;
    var s1 := s.(socks := s.socks[c := Signaling.Counted(s.socks[c], now)]);
    if Signaling.Handled(s, c, m, now) && m.Auth? {
      SI.AuthShape(s1, c, m.token, now, reg);
    } else if Signaling.Handled(s, c, m, now) && m.Connect? && s.socks[c].caller.Some? {
      SI.ConnectShape(s1, c, m.target, reg, uuid);
    } else {
      hide Signaling.OnMessage;
      SI.OtherShape(s, c, m, now, reg, uuid);
    }
  }

  // ---- the records and the relay together ----------------------------------------------------------------

  /** The database and the relay that asks it. */
  datatype Joint = Joint(store: Store, server: Server)

  /** The database changes, or the relay does something, with the records as they are at that moment.
      Any credentials may be about, and any message may arrive. */
  datatype Work =
    | Stores(e: Event)
    | Accepts(c: Conn, now: int)
    | Hears(c: Conn, m: Signaling.ClientMsg, now: int, uuid: Sid,
            holders: map<Signaling.Token, Signaling.Holder>, refused: set<Signaling.Token>)
    | Loses(c: Conn, order: seq<Sid>, now: int)
    | HangsUp(c: Conn)
    | Sweeps

  ghost predicate Can(j: Joint, x: Work) {
    match x
    case Accepts(c, _) => c !in j.server.socks
    case Hears(c, _, _, uuid, _, _) => c in j.server.socks && j.server.socks[c].ws != Closed && uuid !in j.server.sessions
    case Loses(c, order, _) => c in j.server.socks && j.server.socks[c].ws != Closed && Lists(order, SessionsOf(j.server, c))
    case _ => true
  }

  function Worked(j: Joint, x: Work): Server {
    match x
    case Stores(_) => j.server
    case Accepts(c, now) => Signaling.Accept(j.server, c, now)
    case Hears(c, m, now, uuid, holders, refused) =>
      if c in j.server.socks then Signaling.OnMessage(j.server, c, m, now, RegistryOf(j.store, holders, refused), uuid) else j.server
    case Loses(c, order, now) => if c in j.server.socks then Signaling.OnClose(j.server, c, order, now) else j.server
    case HangsUp(c) => Signaling.Hangup(j.server, c)
    case Sweeps => Signaling.DropBlocked(j.server, RegistryOf(j.store, map[], {}))
  }

  function Move(j: Joint, x: Work): Joint {
    Joint(if x.Stores? then Next(j.store, x.e) else j.store, Worked(j, x))
  }

  ghost predicate Moves(j: Joint, xs: seq<Work>, k: Joint)
    decreases |xs|
  {
    if xs == [] then k == j else Can(j, xs[0]) && Moves(Move(j, xs[0]), xs[1..], k)
  }

  /** The device is not unblocked. */
  predicate KeepsBlock(xs: seq<Work>, d: Device) {
    forall i :: 0 <= i < |xs| && xs[i].Stores? ==> !(xs[i].e.Sets? && xs[i].e.d == d && xs[i].e.at.None?)
  }

  predicate Named(s: Server, c: Conn) { c in s.socks && s.socks[c].caller.Some? }

  /** Who is online is connected, and only named connections are in sessions. */
  ghost predicate Fit(s: Server) {
    SI.OnlineLive(s)
    && forall sid :: sid in s.sessions ==> Named(s, s.sessions[sid].a) && Named(s, s.sessions[sid].b)
  }

  /** A step that opens no session, and makes nobody but live connections online. */
  lemma CalmKeepsFit(s: Server, t: Server)
    requires Fit(s) && SI.OnlineLive(t) && ServerViews.Onward(s, t)
    requires forall sid :: sid in t.sessions ==> sid in s.sessions && t.sessions[sid] == s.sessions[sid]
    ensures Fit(t)
  {
    hide SI.OnlineLive;
  }

  lemma SameOnline(s: Server, t: Server)
    requires SI.OnlineLive(s) && t.online == s.online && SI.SameSockets(s, t)
    ensures SI.OnlineLive(t)
  {
  }

  lemma AdmittedOnline(s: Server, c: Conn, token: Signaling.Token, now: int, reg: Signaling.Registry)
    requires SI.OnlineLive(s) && c in s.socks && s.socks[c].ws != Closed
    ensures SI.OnlineLive(Signaling.OnAuth(s, c, token, now, reg))
  {
    hide Signaling.OnAuth;
    SI.AuthShape(s, c, token, now, reg);
  }

  /** Whatever the records say, a message leaves the relay fit. */
  lemma MessageKeepsFit(s: Server, c: Conn, m: Signaling.ClientMsg, now: int, reg: Signaling.Registry, uuid: Sid)
    requires Fit(s) && c in s.socks && s.socks[c].ws != Closed
    ensures Fit(Signaling.OnMessage(s, c, m, now, reg, uuid))
  {
    var s1 := s.(socks := s.socks[c := Signaling.Counted(s.socks[c], now)]);
    var t := Signaling.OnMessage(s, c, m, now, reg, uuid);
    hide Signaling.OnAuth, Signaling.OnConnect;
    ServerViews.MessageOnward(s, c, m, now, reg, uuid);
    if Signaling.Handled(s, c, m, now) && m.Auth? {
      SameOnline(s, s1);
      AdmittedOnline(s1, c, m.token, now, reg);
      SI.AuthShape(s1, c, m.token, now, reg);
      hide Signaling.OnMessage, Fit, ServerViews.Onward;
      CalmKeepsFit(s, t);
    } else if Signaling.Handled(s, c, m, now) && m.Connect? && s.socks[c].caller.Some? {
      SameOnline(s, s1);
      ConnectKeepsFit(s, s1, t, c, m.target, reg, uuid);
    } else {
      hide Signaling.OnMessage;
      SI.OtherShape(s, c, m, now, reg, uuid);
      SameOnline(s, t);
      hide Fit, ServerViews.Onward;
      CalmKeepsFit(s, t);
    }
  }

  lemma ConnectKeepsFit(s: Server, s1: Server, t: Server, c: Conn, target: Device, reg: Signaling.Registry, uuid: Sid)
    requires Fit(s) && SI.OnlineLive(s1) && ServerViews.Onward(s, t) && Named(s1, c)
    requires s1.sessions == s.sessions && s1.online == s.online && t == Signaling.OnConnect(s1, c, target, reg, uuid)
    ensures Fit(t)
  {
    hide Signaling.OnConnect;
    SI.ConnectShape(s1, c, target, reg, uuid);
    SameOnline(s1, t);
    assert Signaling.Refusal(s1, c, target, reg).None? ==> target in s1.online;
    hide Signaling.Refusal;
    assert target in s1.online ==> Named(t, s1.online[target]);
    hide SI.OnlineLive, SI.SameSockets;
  }

  lemma ClosedKeepsFit(s: Server, c: Conn, order: seq<Sid>, now: int)
    requires Fit(s) && c in s.socks
    ensures Fit(Signaling.OnClose(s, c, order, now))
    ensures forall sid :: sid in Signaling.OnClose(s, c, order, now).sessions ==>
              sid in s.sessions && Signaling.OnClose(s, c, order, now).sessions[sid] == s.sessions[sid]
  {
    hide Signaling.OnClose;
    ServerViews.CloseOnward(s, c, order, now);
    SI.CloseShape(s, c, order, now);
    var t := Signaling.OnClose(s, c, order, now);
    assert SI.OnlineLive(t);
    hide ServerViews.Onward, Fit, SI.OnlineLive;
    CalmKeepsFit(s, t);
  }

  lemma AcceptKeepsFit(s: Server, c: Conn, now: int)
    requires Fit(s) && c !in s.socks
    ensures Fit(Signaling.Accept(s, c, now)) && ServerViews.Onward(s, Signaling.Accept(s, c, now))
  {
    var t := Signaling.Accept(s, c, now);
    assert forall x :: x in s.socks ==> x in t.socks && t.socks[x] == s.socks[x];
    hide Signaling.Accept;
  }

  lemma QuietKeepsFit(s: Server, t: Server)
    requires Fit(s) && SI.SameSockets(s, t) && t.online == s.online && t.sessions == s.sessions
    requires ServerViews.Onward(s, t)
    ensures Fit(t)
  {
    SameOnline(s, t);
    hide ServerViews.Onward, SI.SameSockets, SI.OnlineLive;
    assert forall x :: Named(s, x) ==> Named(t, x) by { Onwards(s, t); }
  }

  lemma Onwards(s: Server, t: Server)
    requires ServerViews.Onward(s, t)
    ensures forall x :: Named(s, x) ==> Named(t, x)
  {
  }

  lemma HangupOnward(s: Server, c: Conn)
    ensures ServerViews.Onward(s, Signaling.Hangup(s, c)) && SI.SameSockets(s, Signaling.Hangup(s, c))
  {
  }

  lemma SweepOnward(s: Server, reg: Signaling.Registry)
    ensures ServerViews.Onward(s, Signaling.DropBlocked(s, reg)) && SI.SameSockets(s, Signaling.DropBlocked(s, reg))
    ensures Signaling.DropBlocked(s, reg).online == s.online && Signaling.DropBlocked(s, reg).sessions == s.sessions
  {
  }

  /** Names stay with their connections, so the sessions with a device at an end only grow by opening one. */
  lemma NoneNew(s: Server, t: Server, d: Device)
    requires Fit(s) && ServerViews.Onward(s, t)
    requires forall sid :: sid in t.sessions && (sid !in s.sessions || t.sessions[sid] != s.sessions[sid]) ==>
               !Names(t, t.sessions[sid].a, d) && !Names(t, t.sessions[sid].b, d)
    ensures NoMoreOf(s, t, d)
  {
  }

  /** All sessions with this device at an end that there are in `t` were there in `s`. */
  ghost predicate NoMoreOf(s: Server, t: Server, d: Device) {
    forall sid :: sid in t.sessions && (Names(t, t.sessions[sid].a, d) || Names(t, t.sessions[sid].b, d)) ==>
      && sid in s.sessions && s.sessions[sid] == t.sessions[sid]
      && (Names(s, s.sessions[sid].a, d) || Names(s, s.sessions[sid].b, d))
  }

  predicate Barred(store: Store, d: Device) { d in store.installations && store.installations[d].Some? }

  lemma BarredIsBlocked(store: Store, d: Device, holders: map<Signaling.Token, Signaling.Holder>, refused: set<Signaling.Token>)
    requires Barred(store, d)
    ensures d in RegistryOf(store, holders, refused).blocked
  {
  }

  lemma HearsMovesOn(j: Joint, x: Work, d: Device)
    requires Fit(j.server) && x.Hears? && Can(j, x)
    ensures Fit(Move(j, x).server) && (Barred(j.store, d) ==> NoMoreOf(j.server, Move(j, x).server, d))
  {
    var reg := RegistryOf(j.store, x.holders, x.refused);
    if Barred(j.store, d) { BarredIsBlocked(j.store, d, x.holders, x.refused); }
    hide RegistryOf, Barred, Signaling.OnMessage, ServerViews.Onward, NoMoreOf, Names;
    ServerViews.MessageOnward(j.server, x.c, x.m, x.now, reg, x.uuid);
    MessageKeepsFit(j.server, x.c, x.m, x.now, reg, x.uuid);
    if d in reg.blocked {
      BlockedOpensNothing(j.server, x.c, x.m, x.now, reg, x.uuid, d);
      hide Fit;
      NoneNew(j.server, Signaling.OnMessage(j.server, x.c, x.m, x.now, reg, x.uuid), d);
    }
  }

  lemma OthersMoveOn(j: Joint, x: Work, d: Device)
    requires Fit(j.server) && !x.Hears? && Can(j, x)
    ensures Fit(Move(j, x).server) && NoMoreOf(j.server, Move(j, x).server, d)
  {
    hide Signaling.OnClose, ServerViews.Onward, NoMoreOf, Names, Fit, Lists, SI.SameSockets;
    match x
    case Loses(c, order, now) =>
      ServerViews.CloseOnward(j.server, c, order, now);
      ClosedKeepsFit(j.server, c, order, now);
      NoneNew(j.server, Move(j, x).server, d);
    case Stores(_) =>
      OnwardSelf(j.server);
      NoneNew(j.server, j.server, d);
    case Accepts(c, now) =>
      AcceptKeepsFit(j.server, c, now);
      NoneNew(j.server, Move(j, x).server, d);
    case HangsUp(c) =>
      HangupOnward(j.server, c);
      QuietKeepsFit(j.server, Move(j, x).server);
      NoneNew(j.server, Move(j, x).server, d);
    case Sweeps =>
      SweepOnward(j.server, RegistryOf(j.store, map[], {}));
      hide Signaling.DropBlocked, RegistryOf;
      QuietKeepsFit(j.server, Move(j, x).server);
      NoneNew(j.server, Move(j, x).server, d);
  }

  lemma OnwardSelf(s: Server)
    ensures ServerViews.Onward(s, s)
  {
  }

  lemma NoMoreTrans(s: Server, t: Server, u: Server, d: Device)
    requires NoMoreOf(s, t, d) && NoMoreOf(t, u, d)
    ensures NoMoreOf(s, u, d)
  {
  }

  lemma BarredStays(store: Store, x: Work, d: Device)
    requires Barred(store, d) && x.Stores? && KeepsBlock([x], d)
    ensures Barred(Next(store, x.e), d)
  {
    assert !([x][0].e.Sets? && [x][0].e.d == d && [x][0].e.at.None?);
  }

  lemma {:induction false} MovesKeepFit(j: Joint, xs: seq<Work>, k: Joint)
    requires Fit(j.server) && Moves(j, xs, k)
    ensures Fit(k.server)
    decreases |xs|
  {
    if xs != [] {
      hide Fit, Move, Can;
      if xs[0].Hears? { HearsMovesOn(j, xs[0], 0); } else { OthersMoveOn(j, xs[0], 0); }
      MovesKeepFit(Move(j, xs[0]), xs[1..], k);
    }
  }

  lemma {:induction false} BarredMoves(j: Joint, xs: seq<Work>, k: Joint, d: Device)
    requires Fit(j.server) && Moves(j, xs, k) && Barred(j.store, d) && KeepsBlock(xs, d)
    ensures Barred(k.store, d) && NoMoreOf(j.server, k.server, d)
    decreases |xs|
  {
    if xs == [] {
      hide Names;
    } else {
      var x, l := xs[0], Move(j, xs[0]);
      if x.Stores? { BarredStays(j.store, x, d); }
      assert KeepsBlock(xs[1..], d);
      hide Fit, Worked, Can, Barred, KeepsBlock, NoMoreOf, Next;
      if x.Hears? { HearsMovesOn(j, x, d); } else { OthersMoveOn(j, x, d); }
      BarredMoves(l, xs[1..], k, d);
      NoMoreTrans(j.server, l.server, k.server, d);
    }
  }

  /** In every joint run: from a block that lands on an installation record until an unblock, whatever is
      done to the records, whoever connects and whatever is sent, no session with that device at an end
      is opened; those there are at the end were there when the block came. */
  lemma NoSessionUntilUnblocked(store: Store, xs: seq<Work>, j: Joint, d: Device, at: int, ys: seq<Work>, k: Joint)
    requires Moves(Joint(store, Server(map[], map[], map[])), xs, j) && d in j.store.installations
    requires Moves(Move(j, Stores(Sets(d, Some(at)))), ys, k) && KeepsBlock(ys, d)
    ensures NoMoreOf(j.server, k.server, d)
  {
    assert Fit(Server(map[], map[], map[]));
    MovesKeepFit(Joint(store, Server(map[], map[], map[])), xs, j);
    hide Fit, Moves, KeepsBlock, NoMoreOf;
    BarredMoves(Move(j, Stores(Sets(d, Some(at)))), ys, k, d);
  }
}
