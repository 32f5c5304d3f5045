/** Which messages of a connection the server acts on, and what that leaves of a session's frames. */
module RateLimit {
  import opened Wrappers
  import opened Rendezvous
  import opened Signaling

  // ---- one connection's messages ------------------------------------------------------------------

  /** The counter of a connection's messages and the beginning of its second. */
  datatype Meter = Meter(frames: nat, windowStart: int)

  function MeterOf(k: Socket): Meter { Meter(k.frames, k.windowStart) }

  function Tick(k: Meter, m: ClientMsg, now: int): Meter {
    if m.Binary? then k
    else if now - k.windowStart > 1000 then Meter(1, now)
    else Meter(k.frames + 1, k.windowStart)
  }

  /** The message is neither binary, nor one too many, nor refused by the schema. */
  predicate Passes(k: Meter, m: ClientMsg, now: int) {
    && !m.Binary? && !Unreadable(m)
    && (now - k.windowStart > 1000 || k.frames + 1 <= MAX_FRAMES_PER_SECOND)
  }

  /** The meter of a connection accepted at `since`, of whose messages the first were read at `times`. */
  function MeterAfter(since: int, up: seq<ClientMsg>, times: seq<int>): Meter
    requires |times| <= |up|
    decreases |times|
  {
    if times == [] then Meter(0, since)
    else var n := |times| - 1; Tick(MeterAfter(since, up, times[..n]), up[n], times[n])
  }

  predicate IsFrame(m: ClientMsg, sid: Sid) { m.Frame? && m.sid == sid }

  /** The payloads of one session's frames among a client's messages. */
  function Offered(h: seq<ClientMsg>, sid: Sid): seq<Payload> {
    if h == [] then []
    else
      var m := h[|h| - 1];
      Offered(h[..|h| - 1], sid) + if IsFrame(m, sid) then [m.payload] else []
  }

  /** Of the session's frames that were read, in order, which passed. */
  function Flags(since: int, up: seq<ClientMsg>, times: seq<int>, sid: Sid): seq<bool>
    requires |times| <= |up|
    decreases |times|
  {
    if times == [] then []
    else
      var n := |times| - 1;
      Flags(since, up, times[..n], sid)
        + if IsFrame(up[n], sid) then [Passes(MeterAfter(since, up, times[..n]), up[n], times[n])] else []
  }

  /** The payloads of those that passed. */
  function Heard(since: int, up: seq<ClientMsg>, times: seq<int>, sid: Sid): seq<Payload>
    requires |times| <= |up|
    decreases |times|
  {
    if times == [] then []
    else
      var n := |times| - 1;
      Heard(since, up, times[..n], sid)
        + if IsFrame(up[n], sid) && Passes(MeterAfter(since, up, times[..n]), up[n], times[n]) then [up[n].payload] else []
  }

  /** Everything that was read passed. */
  predicate Clean(since: int, up: seq<ClientMsg>, times: seq<int>)
    requires |times| <= |up|
    decreases |times|
  {
    times == []
    || (var n := |times| - 1; Clean(since, up, times[..n]) && Passes(MeterAfter(since, up, times[..n]), up[n], times[n]))
  }

  lemma OfferedNext(h: seq<ClientMsg>, m: ClientMsg, sid: Sid)
    ensures Offered(h + [m], sid) == Offered(h, sid) + if IsFrame(m, sid) then [m.payload] else []
  {
    assert (h + [m])[..|h|] == h;
  }

  lemma {:induction false} OfferedGrows(h: seq<ClientMsg>, k: nat, sid: Sid)
    requires k <= |h|
    ensures Offered(h[..k], sid) <= Offered(h, sid)
    decreases |h|
  {
    if k < |h| {
      OfferedGrows(h[..|h| - 1], k, sid);
      assert h[..|h| - 1][..k] == h[..k];
    } else {
      assert h[..k] == h;
    }
  }

  /** One more message is read. */
  lemma ReadOne(since: int, up: seq<ClientMsg>, times: seq<int>, now: int, sid: Sid)
    requires |times| < |up|
    ensures var n := |times|;
            var k := MeterAfter(since, up, times);
            var p := IsFrame(up[n], sid) && Passes(k, up[n], now);
            && MeterAfter(since, up, times + [now]) == Tick(k, up[n], now)
            && Heard(since, up, times + [now], sid) == Heard(since, up, times, sid) + (if p then [up[n].payload] else [])
            && (Clean(since, up, times + [now]) <==> Clean(since, up, times) && Passes(k, up[n], now))
  {
    assert (times + [now])[..|times|] == times;
  }

  /** Messages that are written later do not matter. */
  lemma {:induction false} WrittenLater(since: int, up: seq<ClientMsg>, more: seq<ClientMsg>, times: seq<int>, sid: Sid)
    requires |times| <= |up| && up <= more
    ensures MeterAfter(since, more, times) == MeterAfter(since, up, times)
    ensures Heard(since, more, times, sid) == Heard(since, up, times, sid)
    ensures Clean(since, more, times) == Clean(since, up, times)
    decreases |times|
  {
    if times != [] { WrittenLater(since, up, more, times[..|times| - 1], sid); }
  }

  /** A connection of which nothing was refused was heard in full. */
  lemma {:induction false} CleanIsHeard(since: int, up: seq<ClientMsg>, times: seq<int>, sid: Sid)
    requires |times| <= |up| && Clean(since, up, times)
    ensures Heard(since, up, times, sid) == Offered(up[..|times|], sid)
    decreases |times|
  {
    if times != [] {
      var n := |times| - 1;
      CleanIsHeard(since, up, times[..n], sid);
      assert up[..n + 1] == up[..n] + [up[n]];
      OfferedNext(up[..n], up[n], sid);
    }
  }

  // ---- what is left of a list when some of it is dropped ---------------------------------------------

  /** Where each element of `a` is in `b`, ever further on. */
  ghost predicate Places<T>(at: seq<nat>, a: seq<T>, b: seq<T>) {
    && |at| == |a| && (forall i :: 0 <= i < |a| ==> at[i] < |b| && a[i] == b[at[i]])
    && forall i, j :: 0 <= i < j < |a| ==> at[i] < at[j]
  }

  ghost predicate Subseq<T>(a: seq<T>, b: seq<T>) { exists at: seq<nat> :: Places(at, a, b) }

  lemma SubseqMore<T>(a: seq<T>, b: seq<T>, c: seq<T>)
    requires Subseq(a, b)
    ensures Subseq(a, b + c)
  {
    var at: seq<nat> :| Places(at, a, b);
    assert Places(at, a, b + c);
  }

  lemma SubseqBoth<T>(a: seq<T>, b: seq<T>, x: T)
    requires Subseq(a, b)
    ensures Subseq(a + [x], b + [x])
  {
    var at: seq<nat> :| Places(at, a, b);
    var next: seq<nat> := at + [|b|];
    assert Places(next, a + [x], b + [x]);
  }

  lemma SubseqPrefix<T>(a: seq<T>, b: seq<T>, c: seq<T>)
    requires Subseq(a, b) && c <= a
    ensures Subseq(c, b)
  {
    var at: seq<nat> :| Places(at, a, b);
    assert Places(at[..|c|], c, b);
  }

  lemma SubseqOfPrefix<T>(a: seq<T>, b: seq<T>, c: seq<T>)
    requires Subseq(a, b) && b <= c
    ensures Subseq(a, c)
  {
    SubseqMore(a, b, c[|b|..]);
    assert b + c[|b|..] == c;
  }

  lemma SubseqNone<T>(b: seq<T>)
    ensures Subseq([], b)
  {
    assert Places([], [], b);
  }

  /** The positions of the true flags. */
  function Trues(flags: seq<bool>): seq<nat> {
    if flags == [] then []
    else var n := |flags| - 1; Trues(flags[..n]) + if flags[n] then [n] else []
  }

  lemma {:induction false} TruesAtMost(flags: seq<bool>)
    ensures |Trues(flags)| <= |flags|
  {
    if flags != [] { TruesAtMost(flags[..|flags| - 1]); }
  }

  lemma {:induction false} TruesOrdered(flags: seq<bool>)
    ensures forall i :: 0 <= i < |Trues(flags)| ==> Trues(flags)[i] < |flags| && flags[Trues(flags)[i]] && i <= Trues(flags)[i]
    ensures forall i, j :: 0 <= i < j < |Trues(flags)| ==> Trues(flags)[i] < Trues(flags)[j]
  {
    if flags != [] {
      var n := |flags| - 1;
      var before, all := Trues(flags[..n]), Trues(flags);
      TruesOrdered(flags[..n]);
      TruesAtMost(flags[..n]);
      assert all == before + if flags[n] then [n] else [];
      hide Trues;
      forall i | 0 <= i < |all| ensures all[i] < |flags| && flags[all[i]] && i <= all[i] {
        if i < |before| { assert all[i] == before[i] && flags[..n][before[i]]; }
      }
    }
  }

  /** Flags that begin with `k` true ones have these as their first. */
  lemma {:induction false} TruesFirst(flags: seq<bool>, k: nat)
    requires k <= |flags| && forall i :: 0 <= i < k ==> flags[i]
    ensures k <= |Trues(flags)| && forall i :: 0 <= i < k ==> Trues(flags)[i] == i
    decreases |flags|
  {
    if flags != [] {
      var n := |flags| - 1;
      TruesFirst(flags[..n], if k <= n then k else n);
      if k == n + 1 { TruesOrdered(flags[..n]); TruesAtMost(flags[..n]); }
    }
  }

  /** What is heard of a session is what was offered, at the places of the true flags. */
  lemma {:induction false} HeardAtTrues(since: int, up: seq<ClientMsg>, times: seq<int>, sid: Sid)
    requires |times| <= |up|
    ensures var flags := Flags(since, up, times, sid);
            && |flags| == |Offered(up[..|times|], sid)|
            && Places(Trues(flags), Heard(since, up, times, sid), Offered(up[..|times|], sid))
    decreases |times|
  {
    if times != [] {
      var n := |times| - 1;
      var k := MeterAfter(since, up, times[..n]);
      HeardAtTrues(since, up, times[..n], sid);
      assert up[..n + 1] == up[..n] + [up[n]];
      OfferedNext(up[..n], up[n], sid);
      var before, ps := Flags(since, up, times[..n], sid), Offered(up[..n], sid);
      if IsFrame(up[n], sid) {
        var p := Passes(k, up[n], times[n]);
        assert (before + [p])[..|before|] == before;
        assert Trues(before + [p]) == Trues(before) + if p then [|before|] else [];
      } else {
        assert before + [] == before && ps + [] == ps;
      }
    }
  }

  ghost predicate Different<T>(ps: seq<T>) { forall i, j :: 0 <= i < j < |ps| ==> ps[i] != ps[j] }

  /** The first `k` payloads heard are the first `k` offered if the first `k` of the session's frames
      passed; and where no two payloads are alike, only then. */
  lemma HeardPrefix(since: int, up: seq<ClientMsg>, times: seq<int>, sid: Sid, k: nat)
    requires |times| <= |up| && k <= |Heard(since, up, times, sid)|
    ensures var flags := Flags(since, up, times, sid);
            var all, heard := Offered(up[..|times|], sid), Heard(since, up, times, sid);
            && |flags| == |all| && |heard| <= |all|
            && ((forall i :: 0 <= i < k ==> flags[i]) ==> heard[..k] <= all)
            && (Different(all) ==> (heard[..k] <= all <==> forall i :: 0 <= i < k ==> flags[i]))
  {
    HeardAtTrues(since, up, times, sid);
    var flags := Flags(since, up, times, sid);
    var all, heard := Offered(up[..|times|], sid), Heard(since, up, times, sid);
    hide Flags, Heard, Offered;
    TruesOrdered(flags);
    TruesAtMost(flags);
    if forall i :: 0 <= i < k ==> flags[i] {
      TruesFirst(flags, k);
    }
    if Different(all) && heard[..k] <= all {
      forall i | 0 <= i < k ensures flags[i] {
        assert heard[..k][i] == all[i] == all[Trues(flags)[i]];
      }
    }
  }

  // ---- the server's meters ------------------------------------------------------------------------------

  /** The server acts on a message exactly if it passes. */
  lemma PassesIsHandled(s: Server, c: Conn, m: ClientMsg, now: int)
    requires c in s.socks
    ensures Passes(MeterOf(s.socks[c]), m, now) <==> Handled(s, c, m, now) && !Unreadable(m)
  {
  }

  ghost predicate SameMeters(s: Server, t: Server) {
    t.socks.Keys == s.socks.Keys && forall c :: c in s.socks ==> MeterOf(t.socks[c]) == MeterOf(s.socks[c])
  }

  lemma EndSameMeters(s: Server, sid: Sid, reason: string)
    ensures SameMeters(s, EndSession(s, sid, reason))
  {
  }

  lemma {:induction false} EndAllSameMeters(s: Server, order: seq<Sid>, reason: string)
    ensures SameMeters(s, EndAll(s, order, reason))
  {
    if order != [] {
      EndAllSameMeters(s, order[..|order| - 1], reason);
      EndSameMeters(EndAll(s, order[..|order| - 1], reason), order[|order| - 1], reason);
    }
  }

  lemma AnnounceSameMeters(s: Server, c: Conn, isOnline: bool, now: int)
    requires c in s.socks && s.socks[c].caller.Some?
    ensures SameMeters(s, Announce(s, c, isOnline, now))
  {
  }

  lemma CloseSameMeters(s: Server, c: Conn, order: seq<Sid>, now: int)
    requires c in s.socks
    ensures SameMeters(s, OnClose(s, c, order, now))
  {
    var s1 := s.(socks := s.socks[c := s.socks[c].(ws := Closed)]);
    if s.socks[c].caller.Some? {
      hide EndAll, Announce;
      assert SameMeters(s, s1);
      RemoveSameMeters(s1, c, order, now);
      hide Remove;
    }
  }

  lemma RemoveSameMeters(s: Server, c: Conn, order: seq<Sid>, now: int)
    requires c in s.socks && s.socks[c].caller.Some?
    ensures SameMeters(s, Remove(s, c, order, now))
  {
    hide EndAll, Announce;
    var d := s.socks[c].caller.value.device;
    var s1 := if d in s.online && s.online[d] == c then s.(online := s.online - {d}) else s;
    EndAllKeepsSockets(s1, order, "peer-disconnected");
    EndAllSameMeters(s1, order, "peer-disconnected");
    AnnounceSameMeters(EndAll(s1, order, "peer-disconnected"), c, false, now);
  }

  lemma AddSameMeters(s: Server, c: Conn, now: int)
    requires c in s.socks && s.socks[c].caller.Some?
    ensures SameMeters(s, Add(s, c, now))
  {
    hide Announce;
    var d := s.socks[c].caller.value.device;
    var s1 := if d in s.online && s.online[d] != c then s.(socks := CloseOn(s.socks, s.online[d])) else s;
    var s2 := s1.(online := s1.online[d := c]);
    if d !in s.online { AnnounceSameMeters(s2, c, true, now); }
  }

  lemma AuthSameMeters(s: Server, c: Conn, token: Token, now: int, reg: Registry)
    requires c in s.socks
    ensures SameMeters(s, OnAuth(s, c, token, now, reg))
  {
    hide Add;
    if token in reg.holders && reg.holders[token].device.Some? {
      var who := Caller(reg.holders[token].device.value, reg.holders[token].account);
      AddSameMeters(s.(socks := s.socks[c := s.socks[c].(caller := Some(who))]), c, now);
    }
  }

  lemma ReplySameMeters(s: Server, c: Conn, m: ServerMsg)
    ensures SameMeters(s, Reply(s, c, m)) && SameMeters(s, Hangup(s, c)) && SameMeters(s, Hangup(Reply(s, c, m), c))
  {
  }

  /** Once it is counted, a message changes no meter. */
  lemma HandlingSameMeters(s: Server, c: Conn, m: ClientMsg, now: int, reg: Registry, uuid: Sid)
    requires c in s.socks && !m.Binary?
    ensures SameMeters(s.(socks := s.socks[c := Counted(s.socks[c], now)]), OnMessage(s, c, m, now, reg, uuid))
  {
    hide OnAuth, OnConnect, OnFrame, EndSession, Reply, Hangup, SameMeters, Counted;
    var s1 := s.(socks := s.socks[c := Counted(s.socks[c], now)]);
    ReplySameMeters(s1, c, Error);
    ReplySameMeters(s1, c, Pong);
    match m
    case Auth(token) => AuthSameMeters(s1, c, token, now, reg);
    case Connect(target) => if s1.socks[c].caller.Some? { ConnectSameMeters(s1, c, target, reg, uuid); }
    case Frame(sid, payload) => FrameSameMeters(s1, c, sid, payload);
    case Close(sid) =>
      EndSameMeters(s1, sid, "closed");
      Unmoved(s1);
    case _ =>
  }

  lemma Unmoved(s: Server)
    ensures SameMeters(s, s)
  {
  }

  /** Reading a message counts it for its connection, and for no other. */
  lemma MessageMeters(s: Server, c: Conn, m: ClientMsg, now: int, reg: Registry, uuid: Sid)
    requires c in s.socks
    ensures var t := OnMessage(s, c, m, now, reg, uuid);
            && t.socks.Keys == s.socks.Keys
            && forall x :: x in s.socks ==>
                 MeterOf(t.socks[x]) == if x == c then Tick(MeterOf(s.socks[c]), m, now) else MeterOf(s.socks[x])
  {
    if !m.Binary? {
      HandlingSameMeters(s, c, m, now, reg, uuid);
      hide OnMessage;
    }
  }

  lemma ConnectSameMeters(s: Server, c: Conn, target: Device, reg: Registry, uuid: Sid)
    requires c in s.socks && s.socks[c].caller.Some?
    ensures SameMeters(s, OnConnect(s, c, target, reg, uuid))
  {
  }

  lemma FrameSameMeters(s: Server, c: Conn, sid: Sid, payload: Payload)
    ensures SameMeters(s, OnFrame(s, c, sid, payload))
  {
  }

  // ---- where the relay does skip a frame ---------------------------------------------------------------

  const FLOODING: Socket := Socket(Open, Some(Caller(10, 5)), MAX_FRAMES_PER_SECOND, 0, 900, [])
  const LISTENING: Socket := Socket(Open, Some(Caller(20, 5)), 0, 0, 0, [SessionOpened(7, Host, 10)])
  const FLOODED: Server := Server(map[1 := FLOODING, 2 := LISTENING], map[10 := 1, 20 := 2], map[7 := Session(1, 2)])
  const FIRST: Payload := Payload("first", true)
  const SECOND: Payload := Payload("second", true)

  /** A socket being closed for sending too fast goes on being read, and once the second is over
      its frames are relayed again: the other end then gets a later frame without an earlier one. */
  lemma RateLimitLeavesGap(reg: Registry)
    ensures var t := OnMessage(FLOODED, 1, Frame(7, FIRST), 900, reg, 0);
            && t.socks.Keys == {1, 2} && t.socks[1].ws == Closing && t.socks[2].sent == LISTENING.sent
            && OnMessage(t, 1, Frame(7, SECOND), 1001, reg, 0).socks[2].sent
               == [SessionOpened(7, Host, 10), Relayed(7, SECOND)]
  {
    var t := OnMessage(FLOODED, 1, Frame(7, FIRST), 900, reg, 0);
    assert t.socks[2] == LISTENING && t.socks[1].ws == Closing;
  }

  /** So does a socket being closed for a payload that the schema refuses. */
  lemma RefusedPayloadLeavesGap(reg: Registry)
    ensures var t := OnMessage(FLOODED, 1, Frame(7, FIRST.(fits := false)), 1001, reg, 0);
            && t.socks.Keys == {1, 2} && t.socks[1].ws == Closing && t.socks[2].sent == LISTENING.sent
            && OnMessage(t, 1, Frame(7, SECOND), 1001, reg, 0).socks[2].sent
               == [SessionOpened(7, Host, 10), Relayed(7, SECOND)]
  {
    var t := OnMessage(FLOODED, 1, Frame(7, FIRST.(fits := false)), 1001, reg, 0);
    assert t.socks[2] == LISTENING && t.socks[1].ws == Closing;
  }
}
