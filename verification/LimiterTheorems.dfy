/** What the attempt limiter guarantees over every interleaving of attempts, rotations and resets. */
module LimiterTheorems {
  import opened Wrappers
  import opened Counting
  import opened Limiter

  /** What can happen to the limiter of one host. */
  datatype Event =
    | Begins(peer: Peer, t: int, victim: Option<Peer>)
    | Settles(attempt: nat, success: bool, t: int, u: int)
    | Regenerates

  /** One attempt that was let in: the number of the code it was made against, and how it ended. */
  datatype Entry = Entry(peer: Peer, code: nat, settled: bool, failed: bool)

  /** The limiter beside its history; the codes are numbered as they are replaced. */
  datatype History = History(state: State, code: nat, log: seq<Entry>)

  const START: History := History(FRESH, 0, [])

  predicate Can(h: History, e: Event, p: Policy) {
    match e
    case Begins(peer, t, victim) => MayDrop(Prune(h.state.peers, t, p), peer, p, victim)
    case Settles(i, _, _, _) => i < |h.state.attempts|
    case Regenerates => true
  }

  function Next(h: History, e: Event, p: Policy): History
    requires Can(h, e, p)
  {
    match e
    case Begins(peer, t, victim) =>
      var r := Begin(h.state, peer, t, p, victim);
      History(r.0, h.code, if r.1.Allowed? then h.log + [Entry(peer, h.code, false, false)] else h.log)
    case Settles(i, success, t, u) =>
      var s := Settle(h.state, i, success, t, u, p);
      if h.state.attempts[i].settled || i >= |h.log| then h.(state := s)
      else History(s, if Rotates(h.state, success, p) then h.code + 1 else h.code,
                   h.log[i := h.log[i].(settled := true, failed := !success)])
    case Regenerates => h.(state := h.state.(sinceRotation := 0), code := h.code + 1)
  }

  // ---- counting --------------------------------------------------------------------------------

  function InFlight(): Entry -> bool { (e: Entry) => !e.settled }
  function InFlightOf(peer: Peer): Entry -> bool { (e: Entry) => !e.settled && e.peer == peer }
  function InFlightFor(code: nat): Entry -> bool { (e: Entry) => !e.settled && e.code == code }

  /** A failed guess at one code. */
  function FailedAt(code: nat): Entry -> bool { (e: Entry) => e.failed && e.code == code }

  ghost function SumPending(peers: map<Peer, Record>): int
    decreases |peers|
  {
    if peers == map[] then 0
    else var k :| k in peers; peers[k].pending + SumPending(peers - {k})
  }

  lemma {:induction false} SumPick(peers: map<Peer, Record>, k: Peer)
    requires k in peers
    ensures SumPending(peers) == peers[k].pending + SumPending(peers - {k})
    decreases |peers|
  {
    var j :| j in peers && SumPending(peers) == peers[j].pending + SumPending(peers - {j});
    if j != k {
      SumPick(peers - {j}, k);
      SumPick(peers - {k}, j);
      assert peers - {j} - {k} == peers - {k} - {j};
    }
  }

  lemma {:induction false} SumDropIdle(peers: map<Peer, Record>, rest: map<Peer, Record>)
    requires rest.Keys <= peers.Keys && forall k :: k in rest ==> rest[k] == peers[k]
    requires forall k :: k in peers && k !in rest ==> peers[k].pending == 0
    ensures SumPending(rest) == SumPending(peers)
    decreases |peers|
  {
    if k :| k in peers && k !in rest {
      SumPick(peers, k);
      SumDropIdle(peers - {k}, rest);
    } else {
      assert rest == peers;
    }
  }

  lemma SumUpdate(peers: map<Peer, Record>, k: Peer, r: Record)
    ensures SumPending(peers[k := r]) == SumPending(peers) + r.pending - if k in peers then peers[k].pending else 0
  {
    SumPick(peers[k := r], k);
    assert peers[k := r] - {k} == peers - {k};
    if k in peers {
      SumPick(peers, k);
    } else {
      assert peers - {k} == peers;
    }
  }

  /** A table in which every record has something in flight is no larger than what is in flight. */
  lemma {:induction false} BusyCount(peers: map<Peer, Record>)
    requires forall k :: k in peers ==> peers[k].pending > 0
    ensures |peers| <= SumPending(peers)
    decreases |peers|
  {
    if k :| k in peers {
      SumPick(peers, k);
      BusyCount(peers - {k});
      assert |peers - {k}| == |peers| - 1 by { assert (peers - {k}).Keys == peers.Keys - {k}; }
    }
  }

  predicate Bounded(n: int, p: Policy) { n <= Max(p.maxPeers, p.maxPending + 1) }

  /** Pruning and making room keep the sum of what is in flight. */
  lemma RoomSum(peers: map<Peer, Record>, peer: Peer, t: int, p: Policy, victim: Option<Peer>)
    requires forall k :: k in peers ==> peers[k].pending >= 0
    requires MayDrop(Prune(peers, t, p), peer, p, victim)
    ensures SumPending(Recorded(Prune(peers, t, p), peer, t, p, victim)) == SumPending(peers)
  {
    var pruned := Prune(peers, t, p);
    SumDropIdle(peers, pruned);
    if peer in pruned {
      SumUpdate(pruned, peer, pruned[peer].(seen := t));
    } else {
      var rest := if |pruned| >= p.maxPeers && victim.Some? then pruned - {victim.value} else pruned;
      SumDropIdle(pruned, rest);
      SumUpdate(rest, peer, Record(0, 0, 0, t));
    }
  }

  lemma CardAdd(m: map<Peer, Record>, k: Peer, r: Record)
    ensures |m[k := r]| == if k in m then |m| else |m| + 1
  {
    assert m[k := r].Keys == m.Keys + {k};
    assert |m.Keys| == |m| && |m[k := r].Keys| == |m[k := r]|;
  }

  lemma CardDrop(m: map<Peer, Record>, k: Peer)
    requires k in m
    ensures |m - {k}| == |m| - 1
  {
    assert (m - {k}).Keys == m.Keys - {k};
    assert |m.Keys| == |m| && |(m - {k}).Keys| == |m - {k}|;
  }

  /** The table stays bounded: when it is full, a record goes unless all have something in flight. */
  lemma RoomSize(peers: map<Peer, Record>, peer: Peer, t: int, p: Policy, victim: Option<Peer>)
    requires forall k :: k in peers ==> peers[k].pending >= 0
    requires MayDrop(Prune(peers, t, p), peer, p, victim)
    requires Bounded(|peers|, p) && SumPending(peers) <= p.maxPending
    ensures Bounded(|Recorded(Prune(peers, t, p), peer, t, p, victim)|, p)
  {
    var pruned := Prune(peers, t, p);
    CardSubset(pruned, peers);
    SumDropIdle(peers, pruned);
    RoomSizePruned(pruned, peer, t, p, victim);
  }

  lemma RoomSizePruned(pruned: map<Peer, Record>, peer: Peer, t: int, p: Policy, victim: Option<Peer>)
    requires MayDrop(pruned, peer, p, victim) && Bounded(|pruned|, p) && SumPending(pruned) <= p.maxPending
    ensures Bounded(|Recorded(pruned, peer, t, p, victim)|, p)
  {
    if peer in pruned {
      CardAdd(pruned, peer, pruned[peer].(seen := t));
    } else if |pruned| < p.maxPeers {
      CardAdd(pruned, peer, Record(0, 0, 0, t));
    } else if victim.None? {
      BusyCount(pruned);
      CardAdd(pruned, peer, Record(0, 0, 0, t));
    } else {
      CardDrop(pruned, victim.value);
      CardAdd(pruned - {victim.value}, peer, Record(0, 0, 0, t));
    }
  }

  /** No record with an attempt in flight is dropped, and no count changes. */
  lemma RoomRecords(peers: map<Peer, Record>, peer: Peer, t: int, p: Policy, victim: Option<Peer>)
    requires forall k :: k in peers ==> peers[k].pending >= 0
    requires MayDrop(Prune(peers, t, p), peer, p, victim)
    ensures var after := Recorded(Prune(peers, t, p), peer, t, p, victim);
            && peer in after
            && (forall k :: k in peers && peers[k].pending > 0 ==> k in after)
            && (forall k :: k in after && k in peers ==> after[k].pending == peers[k].pending)
            && (forall k :: k in after && k !in peers ==> k == peer && after[k].pending == 0)
  {
  }

  lemma CardSubset(a: map<Peer, Record>, b: map<Peer, Record>)
    requires a.Keys <= b.Keys
    ensures |a| <= |b|
  {
    assert b.Keys == a.Keys + (b.Keys - a.Keys);
    assert |b.Keys| == |a.Keys| + |b.Keys - a.Keys|;
  }

  // ---- the invariant -----------------------------------------------------------------------------

  predicate Tied(h: History) {
    && |h.log| == |h.state.attempts|
    && forall i :: 0 <= i < |h.log| ==>
         h.log[i].peer == h.state.attempts[i].peer && h.log[i].settled == h.state.attempts[i].settled
  }

  /** The in-flight count is the sum over the records and the number of unsettled attempts. */
  ghost predicate Summed(h: History, p: Policy) {
    h.state.pending == SumPending(h.state.peers) == Count(h.log, InFlight()) && h.state.pending <= p.maxPending
  }

  predicate PerPeer(h: History) {
    forall k :: k in h.state.peers ==> h.state.peers[k].pending == Count(h.log, InFlightOf(k))
  }

  predicate PeerCapped(h: History, p: Policy) {
    forall k :: k in h.state.peers ==> h.state.peers[k].pending <= p.maxPendingPerPeer
  }

  predicate Tracked(h: History) {
    forall i :: 0 <= i < |h.log| && !h.log[i].settled ==> h.log[i].peer in h.state.peers
  }

  predicate Sane(h: History) {
    forall i :: 0 <= i < |h.log| ==> h.log[i].code <= h.code && (h.log[i].failed ==> h.log[i].settled)
  }

  predicate CodeInv(h: History, p: Policy, code: nat) {
    && (code < h.code ==>
          Count(h.log, FailedAt(code)) + Count(h.log, InFlightFor(code)) <= p.rotateAfter + p.maxPending - 1)
    && (code == h.code ==> Count(h.log, FailedAt(code)) <= h.state.sinceRotation)
  }

  ghost predicate Inv(h: History, p: Policy) {
    && Tied(h) && Summed(h, p) && PerPeer(h) && PeerCapped(h, p) && Tracked(h) && Sane(h)
    && Bounded(|h.state.peers|, p) && h.state.sinceRotation < p.rotateAfter
    && forall code :: CodeInv(h, p, code)
  }

  lemma Grounded(h: History, p: Policy, k: Peer)
    requires PerPeer(h) && Tracked(h)
    ensures k in h.state.peers ==> h.state.peers[k].pending >= 0
    ensures k !in h.state.peers ==> Count(h.log, InFlightOf(k)) == 0
  {
    if k !in h.state.peers { CountNone(h.log, InFlightOf(k)); }
  }

  /** Room for a record: the history's invariant does not notice. */
  lemma RoomKeepsInv(h: History, peer: Peer, t: int, p: Policy, victim: Option<Peer>)
    requires Inv(h, p) && MayDrop(Prune(h.state.peers, t, p), peer, p, victim)
    ensures var peers := Recorded(Prune(h.state.peers, t, p), peer, t, p, victim);
            peer in peers && Inv(h.(state := h.state.(peers := peers)), p)
  {
    forall k | k in h.state.peers ensures h.state.peers[k].pending >= 0 { Grounded(h, p, k); }
    RoomSum(h.state.peers, peer, t, p, victim);
    RoomSize(h.state.peers, peer, t, p, victim);
    RoomRecords(h.state.peers, peer, t, p, victim);
    RepeeredKeepsInv(h, Recorded(Prune(h.state.peers, t, p), peer, t, p, victim), peer, p);
  }

  lemma RepeeredKeepsInv(h: History, peers: map<Peer, Record>, peer: Peer, p: Policy)
    requires Inv(h, p) && SumPending(peers) == SumPending(h.state.peers) && Bounded(|peers|, p)
    requires forall k :: k in h.state.peers && h.state.peers[k].pending > 0 ==> k in peers
    requires forall k :: k in peers && k in h.state.peers ==> peers[k].pending == h.state.peers[k].pending
    requires forall k :: k in peers && k !in h.state.peers ==> k == peer && peers[k].pending == 0
    ensures Inv(h.(state := h.state.(peers := peers)), p)
  {
    var v := h.(state := h.state.(peers := peers));
    hide SumPending, Count;
    forall k | k in peers ensures peers[k].pending == Count(h.log, InFlightOf(k)) { Grounded(h, p, k); }
    forall i | 0 <= i < |h.log| && !h.log[i].settled ensures h.log[i].peer in peers {
      CountOne(h.log, i, InFlightOf(h.log[i].peer));
    }
    forall code ensures CodeInv(v, p, code) { assert CodeInv(h, p, code); }
  }

  lemma LetInKeepsInv(h: History, peer: Peer, p: Policy)
    requires Inv(h, p) && peer in h.state.peers && h.state.pending < p.maxPending
    requires h.state.peers[peer].pending < p.maxPendingPerPeer
    ensures var r := h.state.peers[peer].(pending := h.state.peers[peer].pending + 1);
            Inv(History(State(h.state.peers[peer := r], h.state.pending + 1, h.state.sinceRotation,
                              h.state.attempts + [Attempt(peer, false)]),
                        h.code, h.log + [Entry(peer, h.code, false, false)]), p)
  {
    hide SumPending, Count, Bounded;
    var r := h.state.peers[peer].(pending := h.state.peers[peer].pending + 1);
    var e := Entry(peer, h.code, false, false);
    var v := History(State(h.state.peers[peer := r], h.state.pending + 1, h.state.sinceRotation,
                           h.state.attempts + [Attempt(peer, false)]), h.code, h.log + [e]);
    SumUpdate(h.state.peers, peer, r);
    CardAdd(h.state.peers, peer, r);
    CountAppend(h.log, e, InFlight());
    forall k | k in v.state.peers ensures v.state.peers[k].pending == Count(v.log, InFlightOf(k)) {
      CountAppend(h.log, e, InFlightOf(k));
    }
    forall code ensures CodeInv(v, p, code) {
      assert CodeInv(h, p, code);
      CountAppend(h.log, e, FailedAt(code));
      CountAppend(h.log, e, InFlightFor(code));
    }
  }

  lemma BeginsKeeps(h: History, peer: Peer, t: int, victim: Option<Peer>, p: Policy)
    requires Inv(h, p) && Can(h, Begins(peer, t, victim), p)
    ensures Inv(Next(h, Begins(peer, t, victim), p), p)
  {
    hide Inv, Recorded, Prune;
    RoomKeepsInv(h, peer, t, p, victim);
    var peers := Recorded(Prune(h.state.peers, t, p), peer, t, p, victim);
    var room := h.(state := h.state.(peers := peers));
    if Begin(h.state, peer, t, p, victim).1.Allowed? {
      LetInKeepsInv(room, peer, p);
    }
  }

  /** The failures of a code and its attempts in flight, when attempt `i` is settled. */
  lemma SettlesCode(h: History, v: History, i: nat, success: bool, p: Policy, code: nat)
    requires Inv(h, p) && i < |h.log| && !h.log[i].settled && h.state.pending > 0
    requires v.log == h.log[i := h.log[i].(settled := true, failed := !success)]
    requires Count(v.log, InFlight()) == Count(h.log, InFlight()) - 1
    requires if success then v.code == h.code && v.state.sinceRotation == h.state.sinceRotation
             else if h.state.sinceRotation + 1 >= p.rotateAfter then v.code == h.code + 1 && v.state.sinceRotation == 0
             else v.code == h.code && v.state.sinceRotation == h.state.sinceRotation + 1
    ensures CodeInv(v, p, code)
  {
    assert CodeInv(h, p, code) && CodeInv(h, p, h.code);
    var e := h.log[i].(settled := true, failed := !success);
    CountUpdate(h.log, i, e, FailedAt(code));
    CountUpdate(h.log, i, e, InFlightFor(code));
    CountLess(v.log, InFlightFor(code), InFlight());
    if code > h.code { CountNew(h, code); }
  }

  lemma CountNew(h: History, code: nat)
    requires Sane(h) && code > h.code
    ensures Count(h.log, FailedAt(code)) == 0
  {
    CountNone(h.log, FailedAt(code));
  }

  lemma SettlesKeeps(h: History, i: nat, success: bool, t: int, u: int, p: Policy)
    requires Inv(h, p) && i < |h.state.attempts|
    ensures Inv(Next(h, Settles(i, success, t, u), p), p)
  {
    if !h.log[i].settled {
      var peer := h.log[i].peer;
      var r := Settled(h.state.peers[peer], success, t, u, p);
      SettledPending(h.state.peers[peer], success, t, u, p);
      hide SumPending, Count, Bounded, Settled, CodeInv;
      CountOne(h.log, i, InFlight());
      SettledKeeps(h, Next(h, Settles(i, success, t, u), p), i, r, success, p);
    }
  }

  lemma SettledKeeps(h: History, v: History, i: nat, r: Record, success: bool, p: Policy)
    requires Inv(h, p) && i < |h.log| && !h.log[i].settled && Count(h.log, InFlight()) > 0
    requires r.pending == h.state.peers[h.log[i].peer].pending - 1
    requires v.log == h.log[i := h.log[i].(settled := true, failed := !success)]
    requires v.state.peers == h.state.peers[h.log[i].peer := r] && v.state.pending == h.state.pending - 1
    requires v.state.attempts == h.state.attempts[i := Attempt(h.log[i].peer, true)]
    requires if success then v.code == h.code && v.state.sinceRotation == h.state.sinceRotation
             else if h.state.sinceRotation + 1 >= p.rotateAfter then v.code == h.code + 1 && v.state.sinceRotation == 0
             else v.code == h.code && v.state.sinceRotation == h.state.sinceRotation + 1
    ensures Inv(v, p)
  {
    hide SumPending, Count, Bounded, CodeInv;
    var e := h.log[i].(settled := true, failed := !success);
    SumUpdate(h.state.peers, h.log[i].peer, r);
    CardAdd(h.state.peers, h.log[i].peer, r);
    CountUpdate(h.log, i, e, InFlight());
    forall k | k in v.state.peers ensures v.state.peers[k].pending == Count(v.log, InFlightOf(k)) {
      CountUpdate(h.log, i, e, InFlightOf(k));
    }
    forall code: nat ensures CodeInv(v, p, code) { SettlesCode(h, v, i, success, p, code); }
  }

  lemma SettledPending(r: Record, success: bool, t: int, u: int, p: Policy)
    ensures Settled(r, success, t, u, p).pending == r.pending - 1
  {
  }

  lemma RegeneratesKeeps(h: History, p: Policy)
    requires Inv(h, p)
    ensures Inv(Next(h, Regenerates, p), p)
  {
    var v := Next(h, Regenerates, p);
    forall code: nat ensures CodeInv(v, p, code) {
      assert CodeInv(h, p, code);
      CountLess(h.log, InFlightFor(code), InFlight());
      if code > h.code { CountNew(h, code); }
    }
  }

  lemma NextKeeps(h: History, e: Event, p: Policy)
    requires Inv(h, p) && Can(h, e, p)
    ensures Inv(Next(h, e, p), p)
  {
    match e
    case Begins(peer, t, victim) => BeginsKeeps(h, peer, t, victim, p);
    case Settles(i, success, t, u) => SettlesKeeps(h, i, success, t, u, p);
    case Regenerates => RegeneratesKeeps(h, p);
  }

  // ---- every run -----------------------------------------------------------------------------------

  ghost predicate Run(h: History, es: seq<Event>, v: History, p: Policy)
    decreases |es|
  {
    if es == [] then v == h else Can(h, es[0], p) && Run(Next(h, es[0], p), es[1..], v, p)
  }

  lemma {:induction false} RunKeeps(h: History, es: seq<Event>, v: History, p: Policy)
    requires (Inv(h, p) || (h == START && p.rotateAfter > 0)) && Run(h, es, v, p)
    ensures Inv(v, p)
    decreases |es|
  {
    if h == START && p.rotateAfter > 0 { assert forall code :: CodeInv(START, p, code); }
    if es != [] {
      NextKeeps(h, es[0], p);
      RunKeeps(Next(h, es[0], p), es[1..], v, p);
    }
  }

  /** Over every interleaving, at most `rotateAfter + maxPending - 1` failed attempts are ever made
      against one code: those that rotate it, and those in flight when it rotates. */
  lemma GuessesPerCode(es: seq<Event>, v: History, p: Policy, code: nat)
    requires p.rotateAfter > 0 && p.maxPending > 0 && Run(START, es, v, p)
    ensures Count(v.log, FailedAt(code)) <= p.rotateAfter + p.maxPending - 1
  {
    RunKeeps(START, es, v, p);
    assert CodeInv(v, p, code);
    if code > v.code { CountNew(v, code); }
  }

  /** At every moment: the in-flight count is the sum over the peers' records and the number of
      unsettled attempts, every attempt in flight still has its record, and the table is bounded. */
  lemma Accounting(es: seq<Event>, v: History, p: Policy)
    requires p.rotateAfter > 0 && Run(START, es, v, p)
    ensures v.state.pending == SumPending(v.state.peers) == Count(v.log, InFlight()) <= p.maxPending
    ensures forall k :: k in v.state.peers ==>
              v.state.peers[k].pending == Count(v.log, InFlightOf(k)) <= p.maxPendingPerPeer
    ensures forall i :: 0 <= i < |v.log| && !v.log[i].settled ==> v.log[i].peer in v.state.peers
    ensures |v.state.peers| <= Max(p.maxPeers, p.maxPending + 1)
    ensures p.maxPending < p.maxPeers ==> |v.state.peers| <= p.maxPeers
  {
    RunKeeps(START, es, v, p);
  }

  /** With the limits HopDesk uses: twelve guesses at a code, and 1024 peers. */
  lemma DefaultBounds(es: seq<Event>, v: History, code: nat)
    requires Run(START, es, v, DEFAULT_LIMITER_POLICY)
    ensures Count(v.log, FailedAt(code)) <= 12 && |v.state.peers| <= 1024
  {
    hide Run, Count;
    GuessesPerCode(es, v, DEFAULT_LIMITER_POLICY, code);
    Accounting(es, v, DEFAULT_LIMITER_POLICY);
  }

  // ---- the bounds are reached ----------------------------------------------------------------------

  const TWO_AT_ONCE: Policy := Policy(2, 2, 3, 2000, 300000, 1, 3600000, 16)

  /** Replacing a code after `rotateAfter` failures does not bound the guesses made against it by
      `rotateAfter`: with two attempts in flight, `rotateAfter + maxPending - 1` failures are reached. */
  lemma RotateAfterIsNotTheBound() returns (v: History)
    ensures Run(START, [Begins(1, 0, None), Begins(2, 0, None), Settles(0, false, 1, 1), Settles(1, false, 1, 1)],
                v, TWO_AT_ONCE)
    ensures Count(v.log, FailedAt(0)) == TWO_AT_ONCE.rotateAfter + TWO_AT_ONCE.maxPending - 1 > TWO_AT_ONCE.rotateAfter
  {
    hide Next, Can, Count;
    TwoBegin();
    TwoFail();
    var p := TWO_AT_ONCE;
    var a := Next(START, Begins(1, 0, None), p);
    var b := Next(a, Begins(2, 0, None), p);
    var c := Next(b, Settles(0, false, 1, 1), p);
    v := Next(c, Settles(1, false, 1, 1), p);
    assert v.log == [Entry(1, 0, true, true)] + [Entry(2, 0, true, true)] && [Entry(1, 0, true, true)] == [] + [Entry(1, 0, true, true)];
    CountNone([], FailedAt(0));
    CountAppend([Entry(1, 0, true, true)], Entry(2, 0, true, true), FailedAt(0));
    CountAppend([], Entry(1, 0, true, true), FailedAt(0));
    var es := [Begins(1, 0, None), Begins(2, 0, None), Settles(0, false, 1, 1), Settles(1, false, 1, 1)];
    var es1, es2, es3 := es[1..], es[1..][1..], es[1..][1..][1..];
    assert es3[1..] == [] && Run(v, [], v, p);
    assert Run(c, es3, v, p);
    assert Run(b, es2, v, p);
    assert Run(a, es1, v, p);
  }

  /** Two attempts are let in at once. */
  lemma TwoBegin()
    ensures var p := TWO_AT_ONCE;
            var a := Next(START, Begins(1, 0, None), p);
            var b := Next(a, Begins(2, 0, None), p);
            && Can(START, Begins(1, 0, None), p) && Can(a, Begins(2, 0, None), p)
            && b.log == [Entry(1, 0, false, false), Entry(2, 0, false, false)] && b.code == 0
            && b.state.attempts == [Attempt(1, false), Attempt(2, false)]
  {
  }

  /** And both fail. */
  lemma TwoFail()
    ensures var p := TWO_AT_ONCE;
            var b := Next(Next(START, Begins(1, 0, None), p), Begins(2, 0, None), p);
            var c := Next(b, Settles(0, false, 1, 1), p);
            var v := Next(c, Settles(1, false, 1, 1), p);
            && Can(b, Settles(0, false, 1, 1), p) && Can(c, Settles(1, false, 1, 1), p)
            && v.log == [Entry(1, 0, true, true), Entry(2, 0, true, true)]
  {
    TwoBegin();
    var p := TWO_AT_ONCE;
    var b := Next(Next(START, Begins(1, 0, None), p), Begins(2, 0, None), p);
    hide Begin;
    FailSettles(b, 0);
    FailSettles(Next(b, Settles(0, false, 1, 1), p), 1);
  }

  lemma FailSettles(h: History, i: nat)
    requires |h.log| == |h.state.attempts| && i < |h.log| && !h.state.attempts[i].settled
    ensures var v := Next(h, Settles(i, false, 1, 1), TWO_AT_ONCE);
            && Can(h, Settles(i, false, 1, 1), TWO_AT_ONCE)
            && v.log == h.log[i := h.log[i].(settled := true, failed := true)]
            && v.state.attempts == h.state.attempts[i := Attempt(h.state.attempts[i].peer, true)]
  {
  }

  // ---- lockouts belong to their peer ------------------------------------------------------------------

  /** A peer's failures and lockout change only through its own attempts, unless its record goes. */
  lemma OthersDoNotLock(h: History, e: Event, p: Policy, peer: Peer)
    requires Can(h, e, p) && peer in h.state.peers && peer in Next(h, e, p).state.peers
    requires e.Settles? ==> h.state.attempts[e.attempt].peer != peer
    requires e.Begins? && e.peer == peer ==> !Stale(h.state.peers[peer], e.t, p)
    ensures var before, after := h.state.peers[peer], Next(h, e, p).state.peers[peer];
            after.consecutive == before.consecutive && after.lockedUntil == before.lockedUntil
  {
  }

  /** A failure beyond the free ones locks its peer for the delay, and nobody is let in while locked;
      a free one does not touch the lockout. */
  lemma FailuresLock(h: History, i: nat, t: int, u: int, p: Policy, later: int, victim: Option<Peer>)
    requires Inv(h, p) && i < |h.log| && !h.log[i].settled && h.log[i].peer in h.state.peers
    ensures var peer := h.log[i].peer;
            var before, v := h.state.peers[peer], Settle(h.state, i, false, t, u, p);
            && peer in v.peers
            && if before.consecutive + 1 < p.freeFailures then v.peers[peer].lockedUntil == before.lockedUntil
               else
                 var delay := Delay(before.consecutive + 1, p);
                 && v.peers[peer].lockedUntil >= u + delay
                 && (u <= later < u + delay ==>
                       Begin(v, peer, later, p, victim).1 == Locked(v.peers[peer].lockedUntil - later))
  {
    hide Delay;
  }

  /** The first lockout has the base length, each further failure doubles it up to twenty times, and
      none is longer than the maximum. */
  lemma DelaysDouble(n: nat, p: Policy)
    requires n >= p.freeFailures
    ensures Delay(p.freeFailures, p) == Min(p.maxLockoutMs, p.baseLockoutMs)
    ensures n - p.freeFailures < 20 ==> Delay(n + 1, p) == Min(p.maxLockoutMs, 2 * Delay(n, p))
    ensures n - p.freeFailures >= 20 ==> Delay(n + 1, p) == Delay(n, p)
    ensures Delay(n, p) <= p.maxLockoutMs
  {
    var e := n - p.freeFailures;
    if e < 20 {
      var x := Pow2(e);
      assert Pow2(e + 1) == 2 * x;
      assert p.baseLockoutMs * (2 * x) == 2 * (p.baseLockoutMs * x);
    }
  }

  /** With nothing in flight, a peer without a record is let in, whatever the others have done. */
  lemma StrangersAreLetIn(es: seq<Event>, v: History, p: Policy, peer: Peer, t: nat, victim: Option<Peer>)
    requires p.rotateAfter > 0 && p.maxPending > 0 && p.maxPendingPerPeer > 0 && Run(START, es, v, p)
    requires peer !in v.state.peers && forall i :: 0 <= i < |v.log| ==> v.log[i].settled
    ensures Begin(v.state, peer, t, p, victim).1 == Allowed(|v.log|)
  {
    RunKeeps(START, es, v, p);
    CountNone(v.log, InFlight());
    hide Count, SumPending, Run;
  }
}
