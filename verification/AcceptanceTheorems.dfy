/** The host under any number of connections: every attempt at the access code is settled once, by the
    connection that made it, and the number of guesses at a code stays bounded. */
module AcceptanceTheorems {
  import opened Wrappers
  import opened Counting
  import L = Limiter
  import LT = LimiterTheorems
  import T = Throttles
  import R = Replay
  import opened Handshake
  import opened Acceptance

  /** The host, its connections, and the history of its limiter. */
  datatype System = System(host: HostState, history: LT.History, phases: seq<Phase>)

  datatype Event =
    | Connects
    | Arrives(k: nat, m: Inbound, e: Env, victim: Option<L.Peer>)
    | Hashes(k: nat, e: Env)
    | Fails(k: nat, code: ErrorCode, t: int, u: int)
    | NewCode

  const START: System := System(HostState(L.FRESH, map[], [], []), LT.START, [])

  predicate Sound(s: System) {
    && s.history.state == s.host.limiter
    && forall k :: 0 <= k < |s.phases| && s.phases[k].AwaitConfirm? ==> s.phases[k].pending < |s.host.pendings|
  }

  predicate Can(s: System, ev: Event, c: HostConfig, p: Policies) {
    && c.setup.group.order > 0 && Sound(s)
    && match ev
       case Arrives(k, _, e, victim) =>
         k < |s.phases| && L.MayDrop(L.Prune(s.host.limiter.peers, e.t, p.limiter), e.who, p.limiter, victim)
       case Hashes(k, _) => k < |s.phases|
       case Fails(k, _, _, _) => k < |s.phases|
       case _ => true
  }

  /** The attempt a hello begins, if it comes that far. */
  function Begun(c: HostConfig, s: HostState, h: Hello, e: Env, p: Policies): bool {
    && Malformed(c, h).None? && h.auth.Code? && h.share.Some? && !e.code.Disabled?
    && R.Check(s.seen, h.nonce, h.time, e.t, p.windowMs, p.maxEntries).1.Ok?
  }

  /** What a message does to the history of the limiter. */
  function HistoryAfter(s: System, k: nat, m: Inbound, e: Env, c: HostConfig, p: Policies, victim: Option<L.Peer>): LT.History
    requires k < |s.phases| && Can(s, Arrives(k, m, e, victim), c, p)
  {
    var h := s.history;
    match s.phases[k]
    case AwaitHello =>
      if !m.HelloArrives? || !Begun(c, s.host, m.h, e, p) then h
      else
        LT.Next(h, LT.Begins(e.who, e.t, victim), p.limiter)
    case AwaitConfirm(i) =>
      SettledHistory(s, i, m.ConfirmArrives? && OnConfirm(s.host.pendings[i].session, m.m).Accepted?, e.t, e.u, p)
    case _ => h
  }

  /** What the end of hashing does to it: a failure, unless a challenge is sent. */
  function HashedHistory(s: System, k: nat, e: Env, c: HostConfig, p: Policies): LT.History
    requires k < |s.phases| && c.setup.group.order > 0
  {
    match s.phases[k]
    case Derives(_, attempt, _) =>
      if OnDerivation(c, s.host, s.phases[k], e, p).1.AwaitConfirm? || attempt >= |s.history.state.attempts| then s.history
      else LT.Next(s.history, LT.Settles(attempt, false, e.t, e.u), p.limiter)
    case _ => s.history
  }

  function SettledHistory(s: System, i: nat, success: bool, t: int, u: int, p: Policies): LT.History
    requires i < |s.host.pendings|
  {
    var attempt := s.host.pendings[i].attempt;
    if s.host.pendings[i].done || attempt.None? || attempt.value >= |s.history.state.attempts| then s.history
    else LT.Next(s.history, LT.Settles(attempt.value, success, t, u), p.limiter)
  }

  function Next(s: System, ev: Event, c: HostConfig, p: Policies): System
    requires Can(s, ev, c, p)
  {
    match ev
    case Connects => s.(phases := s.phases + [AwaitHello])
    case Arrives(k, m, e, victim) =>
      var r := OnInbound(c, s.host, s.phases[k], m, e, p, victim);
      System(r.0, HistoryAfter(s, k, m, e, c, p, victim), s.phases[k := r.1])
    case Hashes(k, e) =>
      var r := OnDerivation(c, s.host, s.phases[k], e, p);
      System(r.0, HashedHistory(s, k, e, c, p), s.phases[k := r.1])
    case Fails(k, code, t, u) =>
      var r := OnFailure(s.host, s.phases[k], code, t, u, p);
      System(r.0, if s.phases[k].AwaitConfirm? then SettledHistory(s, s.phases[k].pending, false, t, u, p) else s.history,
             s.phases[k := r.1])
    case NewCode =>
      System(s.host.(limiter := s.host.limiter.(sinceRotation := 0)), LT.Next(s.history, LT.Regenerates, p.limiter), s.phases)
  }

  ghost predicate Run(s: System, es: seq<Event>, v: System, c: HostConfig, p: Policies)
    decreases |es|
  {
    if es == [] then v == s else Can(s, es[0], c, p) && Run(Next(s, es[0], c, p), es[1..], v, c, p)
  }

  // ---- the invariant ------------------------------------------------------------------------------------

  /** A pending handshake and its attempt are over together; no two share an attempt; and an attempt
      that is not settled is held by one of them, or is one of the `open` ones, whose code is hashed. */
  predicate Linked(attempts: seq<L.Attempt>, pendings: seq<Pending>, open: set<nat>) {
    && (forall i :: 0 <= i < |pendings| && pendings[i].attempt.Some? ==>
          && pendings[i].attempt.value < |attempts| && pendings[i].attempt.value !in open
          && (attempts[pendings[i].attempt.value].settled <==> pendings[i].done))
    && (forall i, j :: 0 <= i < j < |pendings| && pendings[i].attempt.Some? ==> pendings[i].attempt != pendings[j].attempt)
    && (forall a :: 0 <= a < |attempts| && !attempts[a].settled ==> a in open || Held(a, pendings))
    && forall a :: a in open ==> a < |attempts| && !attempts[a].settled
  }

  predicate Held(a: nat, pendings: seq<Pending>) {
    exists i :: 0 <= i < |pendings| && pendings[i].attempt == Some(a)
  }

  /** The pending handshakes that are not over are those some connection waits on, each by one. */
  predicate Awaited(pendings: seq<Pending>, phases: seq<Phase>) {
    && (forall k :: 0 <= k < |phases| && phases[k].AwaitConfirm? ==>
          phases[k].pending < |pendings| && !pendings[phases[k].pending].done)
    && (forall k, l :: 0 <= k < l < |phases| && phases[k].AwaitConfirm? ==> phases[k] != phases[l])
    && (forall i :: 0 <= i < |pendings| && !pendings[i].done ==> AwaitConfirm(i) in phases)
  }

  /** The attempts whose code is hashed, each for one connection. */
  ghost function Open(phases: seq<Phase>): set<nat> {
    set k | 0 <= k < |phases| && phases[k].Derives? :: phases[k].attempt
  }

  predicate HashedOnce(phases: seq<Phase>) {
    forall k, l :: 0 <= k < l < |phases| && phases[k].Derives? && phases[l].Derives? ==> phases[k].attempt != phases[l].attempt
  }

  ghost predicate Links(attempts: seq<L.Attempt>, pendings: seq<Pending>, phases: seq<Phase>) {
    Linked(attempts, pendings, Open(phases)) && HashedOnce(phases) && Awaited(pendings, phases)
  }

  ghost predicate Inv(s: System, p: Policies) {
    && Sound(s) && LT.Inv(s.history, p.limiter)
    && Links(s.host.limiter.attempts, s.host.pendings, s.phases)
  }

  // ---- one step at a time ---------------------------------------------------------------------------------

  lemma OpenChanges(phases: seq<Phase>, k: nat, phase: Phase)
    requires HashedOnce(phases) && k < |phases|
    requires phase.Derives? ==> phase.attempt !in Open(phases)
    ensures HashedOnce(phases[k := phase])
    ensures Open(phases[k := phase]) == (if phases[k].Derives? then Open(phases) - {phases[k].attempt} else Open(phases))
                                        + (if phase.Derives? then {phase.attempt} else {})
  {
    var after := phases[k := phase];
    assert phases[k].Derives? ==> phases[k].attempt in Open(phases);
    assert phase.Derives? ==> after[k].attempt in Open(after);
    forall a | a in Open(phases) && !(phases[k].Derives? && a == phases[k].attempt) ensures a in Open(after) {
      var l :| 0 <= l < |phases| && phases[l].Derives? && phases[l].attempt == a;
      assert after[l] == phases[l];
    }
  }

  lemma HeldStays(a: nat, pendings: seq<Pending>, pending: Pending)
    requires Held(a, pendings)
    ensures Held(a, pendings + [pending])
  {
    var i :| 0 <= i < |pendings| && pendings[i].attempt == Some(a);
    assert (pendings + [pending])[i].attempt == Some(a);
  }

  /** A challenge without an attempt; an attempt whose code is to be hashed; its challenge; its failure. */
  lemma LinkedNew(attempts: seq<L.Attempt>, pendings: seq<Pending>, open: set<nat>, session: Session, peer: L.Peer, a: nat)
    requires Linked(attempts, pendings, open)
    ensures Linked(attempts, pendings + [Pending(session, None, false)], open)
    ensures Linked(attempts + [L.Attempt(peer, false)], pendings, open + {|attempts|})
    ensures a in open ==> Linked(attempts, pendings + [Pending(session, Some(a), false)], open - {a})
    ensures a in open ==> a < |attempts| && Linked(attempts[a := L.Attempt(attempts[a].peer, true)], pendings, open - {a})
  {
    forall b | 0 <= b < |attempts| && Held(b, pendings)
      ensures Held(b, pendings + [Pending(session, None, false)]) && Held(b, pendings + [Pending(session, Some(a), false)])
    {
      HeldStays(b, pendings, Pending(session, None, false));
      HeldStays(b, pendings, Pending(session, Some(a), false));
    }
    assert (pendings + [Pending(session, Some(a), false)])[|pendings|].attempt == Some(a);
    assert Held(a, pendings + [Pending(session, Some(a), false)]);
    hide Held;
  }

  lemma LinkedOver(attempts: seq<L.Attempt>, pendings: seq<Pending>, open: set<nat>, i: nat)
    requires Linked(attempts, pendings, open) && i < |pendings| && !pendings[i].done
    ensures var over := pendings[i := pendings[i].(done := true)];
            match pendings[i].attempt
            case None => Linked(attempts, over, open)
            case Some(a) =>
              && a < |attempts| && !attempts[a].settled
              && Linked(attempts[a := L.Attempt(attempts[a].peer, true)], over, open)
  {
    var over := pendings[i := pendings[i].(done := true)];
    forall a | 0 <= a < |attempts| && Held(a, pendings) ensures Held(a, over) {
      var j :| 0 <= j < |pendings| && pendings[j].attempt == Some(a);
      assert over[j].attempt == Some(a);
    }
    hide Held;
  }

  lemma AwaitedNew(pendings: seq<Pending>, phases: seq<Phase>, pending: Pending, k: nat)
    requires Awaited(pendings, phases) && k < |phases| && !phases[k].AwaitConfirm? && !pending.done
    ensures Awaited(pendings + [pending], phases[k := AwaitConfirm(|pendings|)])
  {
    var after := phases[k := AwaitConfirm(|pendings|)];
    assert after[k] == AwaitConfirm(|pendings|);
    forall i | 0 <= i < |pendings| && !pendings[i].done ensures AwaitConfirm(i) in after {
      var l :| 0 <= l < |phases| && phases[l] == AwaitConfirm(i);
      assert after[l] == AwaitConfirm(i);
    }
  }

  lemma AwaitedOver(pendings: seq<Pending>, phases: seq<Phase>, k: nat, phase: Phase)
    requires Awaited(pendings, phases) && k < |phases| && !phase.AwaitConfirm?
    ensures if phases[k].AwaitConfirm?
            then var i := phases[k].pending;
                 i < |pendings| && !pendings[i].done && Awaited(pendings[i := pendings[i].(done := true)], phases[k := phase])
            else Awaited(pendings, phases[k := phase])
  {
    var after := phases[k := phase];
    forall i | 0 <= i < |pendings| && !pendings[i].done && phases[k] != AwaitConfirm(i) ensures AwaitConfirm(i) in after {
      var l :| 0 <= l < |phases| && phases[l] == AwaitConfirm(i);
      assert after[l] == AwaitConfirm(i);
    }
  }

  /** A step of one connection that leaves pending handshakes and the limiter alone. */
  lemma IdleKeeps(s: System, k: nat, phase: Phase, p: Policies)
    requires Inv(s, p) && k < |s.phases| && !s.phases[k].AwaitConfirm? && !s.phases[k].Derives?
    requires !phase.AwaitConfirm? && !phase.Derives?
    ensures Inv(s.(phases := s.phases[k := phase]), p)
  {
    hide LT.Inv, Linked, HashedOnce, Open;
    AwaitedOver(s.host.pendings, s.phases, k, phase);
    hide Awaited;
    OpenChanges(s.phases, k, phase);
    assert Open(s.phases) + {} == Open(s.phases);
  }

  /** A settled handshake: its attempt with it, once. */
  lemma SettleKeeps(s: System, k: nat, phase: Phase, success: bool, t: int, u: int, p: Policies)
    requires Inv(s, p) && k < |s.phases| && s.phases[k].AwaitConfirm? && !phase.AwaitConfirm? && !phase.Derives?
    ensures var i := s.phases[k].pending;
            && !s.host.pendings[i].done
            && Inv(System(Settle(s.host, i, success, t, u, p), SettledHistory(s, i, success, t, u, p), s.phases[k := phase]), p)
  {
    hide LT.Inv, HashedOnce, Open;
    var i := s.phases[k].pending;
    AwaitedOver(s.host.pendings, s.phases, k, phase);
    LinkedOver(s.host.limiter.attempts, s.host.pendings, Open(s.phases), i);
    hide Linked, Awaited;
    OpenChanges(s.phases, k, phase);
    assert Open(s.phases) + {} == Open(s.phases);
    var attempt := s.host.pendings[i].attempt;
    if attempt.Some? {
      SettlesState(s.history, attempt.value, success, t, u, p.limiter);
      LT.NextKeeps(s.history, LT.Settles(attempt.value, success, t, u), p.limiter);
      hide LT.Next, L.Settle;
    }
    var v := System(Settle(s.host, i, success, t, u, p), SettledHistory(s, i, success, t, u, p), s.phases[k := phase]);
    assert v.host.pendings == s.host.pendings[i := s.host.pendings[i].(done := true)];
    assert Sound(v);
  }

  lemma SettlesState(h: LT.History, a: nat, success: bool, t: int, u: int, p: L.Policy)
    requires a < |h.state.attempts| && !h.state.attempts[a].settled
    ensures LT.Next(h, LT.Settles(a, success, t, u), p).state == L.Settle(h.state, a, success, t, u, p)
    ensures L.Settle(h.state, a, success, t, u, p).attempts == h.state.attempts[a := L.Attempt(h.state.attempts[a].peer, true)]
  {
  }

  lemma BeginShape(s: L.State, peer: L.Peer, t: int, p: L.Policy, victim: Option<L.Peer>)
    ensures var r := L.Begin(s, peer, t, p, victim);
            if r.1.Allowed? then r.1 == L.Allowed(|s.attempts|) && r.0.attempts == s.attempts + [L.Attempt(peer, false)]
            else r.0.attempts == s.attempts
  {
  }

  /** What a hello does to the host: an attempt begins, or a challenge is sent, or neither. */
  lemma HelloShape(c: HostConfig, s: HostState, h: Hello, e: Env, p: Policies, victim: Option<L.Peer>) returns (session: Option<Session>)
    requires c.setup.group.order > 0
    ensures var r := OnHello(c, s, h, e, p, victim);
            var begun := L.Begin(s.limiter, e.who, e.t, p.limiter, victim);
            && (if Begun(c, s, h, e, p) then
                  && r.0.limiter == begun.0 && r.0.pendings == s.pendings && session.None?
                  && (if begun.1.Allowed? then r.1.Deriving? && r.1.attempt == |s.limiter.attempts| else r.1.Failed?)
                else
                  && r.0.limiter == s.limiter && (r.1.Challenged? <==> session.Some?) && !r.1.Deriving?
                  && r.0.pendings == (if session.None? then s.pendings else s.pendings + [Pending(session.value, None, false)])
                  && (session.Some? ==> r.1.pending == |s.pendings|))
  {
    BeginShape(s.limiter, e.who, e.t, p.limiter, victim);
    hide SpakeSession, ExchangeSession, ChallengeOf, L.Begin, L.Settle, T.Allow, R.Check;
    var r := OnHello(c, s, h, e, p, victim);
    session := if r.1.Challenged? && |r.0.pendings| > 0 then Some(r.0.pendings[|r.0.pendings| - 1].session) else None;
  }

  lemma BeginsState(h: LT.History, who: L.Peer, t: int, victim: Option<L.Peer>, p: L.Policy)
    requires L.MayDrop(L.Prune(h.state.peers, t, p), who, p, victim)
    ensures LT.Next(h, LT.Begins(who, t, victim), p).state == L.Begin(h.state, who, t, p, victim).0
  {
  }

  lemma HelloKeeps(s: System, k: nat, h: Hello, e: Env, victim: Option<L.Peer>, c: HostConfig, p: Policies)
    requires Inv(s, p) && Can(s, Arrives(k, HelloArrives(h), e, victim), c, p) && s.phases[k].AwaitHello?
    ensures Inv(Next(s, Arrives(k, HelloArrives(h), e, victim), c, p), p)
  {
    hide OnHello, LT.Inv, LT.Next, L.Begin, L.Settle, Begun, Linked, Awaited, L.Prune, L.MayDrop, HistoryAfter, Open, HashedOnce;
    var v := Next(s, Arrives(k, HelloArrives(h), e, victim), c, p);
    var session := HelloShape(c, s.host, h, e, p, victim);
    HelloHistory(s, k, h, e, victim, c, p);
    BeginShape(s.host.limiter, e.who, e.t, p.limiter, victim);
    hide Links;
    var attempts, pendings, phase := s.host.limiter.attempts, s.host.pendings, v.phases[k];
    if phase.Derives? {
      BegunLinks(attempts, pendings, s.phases, k, phase, e.who);
    } else if session.Some? {
      ChallengedLinks(attempts, pendings, s.phases, k, session.value);
    } else {
      RefusedLinks(attempts, pendings, s.phases, k, phase);
    }
    assert Links(v.host.limiter.attempts, v.host.pendings, v.phases);
    assert Sound(v);
  }

  /** The links of the connection that said hello, in each of its three outcomes. */
  lemma RefusedLinks(attempts: seq<L.Attempt>, pendings: seq<Pending>, phases: seq<Phase>, k: nat, phase: Phase)
    requires Links(attempts, pendings, phases) && k < |phases| && phases[k].AwaitHello?
    requires !phase.Derives? && !phase.AwaitConfirm?
    ensures Links(attempts, pendings, phases[k := phase])
  {
    hide Linked, Awaited, Open, HashedOnce;
    OpenChanges(phases, k, phase);
    assert Open(phases) + {} == Open(phases);
    AwaitedOver(pendings, phases, k, phase);
  }

  lemma BegunLinks(attempts: seq<L.Attempt>, pendings: seq<Pending>, phases: seq<Phase>, k: nat, phase: Phase, who: L.Peer)
    requires Links(attempts, pendings, phases) && k < |phases| && phases[k].AwaitHello?
    requires phase.Derives? && phase.attempt == |attempts|
    ensures Links(attempts + [L.Attempt(who, false)], pendings, phases[k := phase])
  {
    assert |attempts| !in Open(phases);
    hide Linked, Awaited, Open, HashedOnce;
    OpenChanges(phases, k, phase);
    AwaitedOver(pendings, phases, k, phase);
    LinkedBegins(attempts, pendings, Open(phases), who);
  }

  lemma ChallengedLinks(attempts: seq<L.Attempt>, pendings: seq<Pending>, phases: seq<Phase>, k: nat, session: Session)
    requires Links(attempts, pendings, phases) && k < |phases| && phases[k].AwaitHello?
    ensures Links(attempts, pendings + [Pending(session, None, false)], phases[k := AwaitConfirm(|pendings|)])
  {
    hide Linked, Awaited, Open, HashedOnce;
    OpenChanges(phases, k, AwaitConfirm(|pendings|));
    assert Open(phases) + {} == Open(phases);
    LinkedNew(attempts, pendings, Open(phases), session, 0, 0);
    AwaitedNew(pendings, phases, Pending(session, None, false), k);
  }

  lemma LinkedBegins(attempts: seq<L.Attempt>, pendings: seq<Pending>, open: set<nat>, peer: L.Peer)
    requires Linked(attempts, pendings, open)
    ensures Linked(attempts + [L.Attempt(peer, false)], pendings, open + {|attempts|})
  {
    hide Held;
  }

  /** The history follows the limiter through a hello. */
  lemma HelloHistory(s: System, k: nat, h: Hello, e: Env, victim: Option<L.Peer>, c: HostConfig, p: Policies)
    requires Inv(s, p) && Can(s, Arrives(k, HelloArrives(h), e, victim), c, p) && s.phases[k].AwaitHello?
    ensures var v := HistoryAfter(s, k, HelloArrives(h), e, c, p, victim);
            LT.Inv(v, p.limiter) && v.state == OnHello(c, s.host, h, e, p, victim).0.limiter
  {
    hide OnHello, LT.Inv, LT.Next, L.Begin, L.Settle, Begun, L.Prune, L.MayDrop, Linked, Awaited;
    var session := HelloShape(c, s.host, h, e, p, victim);
    if Begun(c, s.host, h, e, p) {
      BeginsState(s.history, e.who, e.t, victim, p.limiter);
      BeginsPermitted(s.history, e.who, e.t, victim, p.limiter);
      LT.NextKeeps(s.history, LT.Begins(e.who, e.t, victim), p.limiter);
    }
  }

  /** What the end of hashing does to the host. */
  lemma DerivedShape(c: HostConfig, s: HostState, h: Hello, attempt: nat, secret: CodeSecret, e: Env, p: Policies)
    returns (session: Option<Session>)
    requires c.setup.group.order > 0 && attempt < |s.limiter.attempts|
    ensures var r := OnDerived(c, s, h, attempt, secret, e, p);
            if session.Some?
            then
              && r.1.Challenged? && r.1.pending == |s.pendings| && r.0.limiter == s.limiter
              && r.0.pendings == s.pendings + [Pending(session.value, Some(attempt), false)]
            else
              && r.1.Failed? && r.0.pendings == s.pendings
              && r.0.limiter == L.Settle(s.limiter, attempt, false, e.t, e.u, p.limiter)
  {
    hide SpakeSession, ChallengeOf, L.Settle;
    session := if secret.Secret? && h.share.Some? then SpakeSession(c, h, e.nonce, secret.w, e.scalar) else None;
  }

  lemma HashKeeps(s: System, k: nat, e: Env, c: HostConfig, p: Policies)
    requires Inv(s, p) && k < |s.phases| && s.phases[k].Derives? && c.setup.group.order > 0
    ensures Inv(Next(s, Hashes(k, e), c, p), p)
  {
    var x := s.phases[k];
    assert x.attempt in Open(s.phases) && x.attempt < |s.host.limiter.attempts|;
    assert !s.host.limiter.attempts[x.attempt].settled;
    hide LT.Inv, LT.Next, L.Settle, Links, OnDerived;
    var session := DerivedShape(c, s.host, x.h, x.attempt, x.secret, e, p);
    var v := Next(s, Hashes(k, e), c, p);
    var attempts, pendings := s.host.limiter.attempts, s.host.pendings;
    if session.Some? {
      HashedLinks(attempts, pendings, s.phases, k, session.value);
    } else {
      FailedLinks(attempts, pendings, s.phases, k, v.phases[k]);
      SettlesState(s.history, x.attempt, false, e.t, e.u, p.limiter);
      LT.NextKeeps(s.history, LT.Settles(x.attempt, false, e.t, e.u), p.limiter);
    }
    assert Sound(v);
  }

  lemma HashedLinks(attempts: seq<L.Attempt>, pendings: seq<Pending>, phases: seq<Phase>, k: nat, session: Session)
    requires Links(attempts, pendings, phases) && k < |phases| && phases[k].Derives?
    ensures Links(attempts, pendings + [Pending(session, Some(phases[k].attempt), false)], phases[k := AwaitConfirm(|pendings|)])
  {
    var a := phases[k].attempt;
    assert a in Open(phases);
    hide Linked, Awaited, Open, HashedOnce;
    OpenChanges(phases, k, AwaitConfirm(|pendings|));
    assert Open(phases) - {a} + {} == Open(phases) - {a};
    LinkedNew(attempts, pendings, Open(phases), session, 0, a);
    AwaitedNew(pendings, phases, Pending(session, Some(a), false), k);
  }

  lemma FailedLinks(attempts: seq<L.Attempt>, pendings: seq<Pending>, phases: seq<Phase>, k: nat, phase: Phase)
    requires Links(attempts, pendings, phases) && k < |phases| && phases[k].Derives?
    requires !phase.Derives? && !phase.AwaitConfirm?
    ensures var a := phases[k].attempt;
            a < |attempts| && Links(attempts[a := L.Attempt(attempts[a].peer, true)], pendings, phases[k := phase])
  {
    var a := phases[k].attempt;
    assert a in Open(phases);
    hide Linked, Awaited, Open, HashedOnce;
    OpenChanges(phases, k, phase);
    assert Open(phases) - {a} + {} == Open(phases) - {a};
    LinkedFails(attempts, pendings, Open(phases), a);
    AwaitedOver(pendings, phases, k, phase);
  }

  lemma LinkedFails(attempts: seq<L.Attempt>, pendings: seq<Pending>, open: set<nat>, a: nat)
    requires Linked(attempts, pendings, open) && a in open
    ensures a < |attempts| && Linked(attempts[a := L.Attempt(attempts[a].peer, true)], pendings, open - {a})
  {
    hide Held;
  }

  lemma BeginsPermitted(h: LT.History, who: L.Peer, t: int, victim: Option<L.Peer>, p: L.Policy)
    requires L.MayDrop(L.Prune(h.state.peers, t, p), who, p, victim)
    ensures LT.Can(h, LT.Begins(who, t, victim), p)
  {
  }

  lemma NextKeeps(s: System, ev: Event, c: HostConfig, p: Policies)
    requires Inv(s, p) && Can(s, ev, c, p)
    ensures Inv(Next(s, ev, c, p), p)
  {
    hide Inv, LT.Inv, Linked, Awaited, Open, HashedOnce, LT.Next, L.Settle, OnHello, OnDerivation, HistoryAfter, HashedHistory, SettledHistory;
    match ev
    case Connects => ConnectsKeeps(s, p);
    case NewCode => NewCodeKeeps(s, p);
    case Fails(k, code, t, u) => FailsKeeps(s, k, code, t, u, c, p);
    case Hashes(k, e) => if s.phases[k].Derives? { HashKeeps(s, k, e, c, p); } else { HashesIdle(s, k, e, c, p); }
    case Arrives(k, m, e, victim) => ArrivesKeeps(s, k, m, e, victim, c, p);
  }

  lemma HashesIdle(s: System, k: nat, e: Env, c: HostConfig, p: Policies)
    requires k < |s.phases| && !s.phases[k].Derives? && c.setup.group.order > 0 && Sound(s)
    ensures Next(s, Hashes(k, e), c, p) == s
  {
    assert s.phases[k := s.phases[k]] == s.phases;
  }

  lemma ConnectsKeeps(s: System, p: Policies)
    requires Inv(s, p)
    ensures Inv(s.(phases := s.phases + [AwaitHello]), p)
  {
    var after := s.phases + [AwaitHello];
    forall k | 0 <= k < |s.phases| ensures after[k] == s.phases[k] {}
    assert Open(after) == Open(s.phases);
    forall x | x in s.phases ensures x in after {}
    hide LT.Inv, Linked, Open;
  }

  lemma NewCodeKeeps(s: System, p: Policies)
    requires Inv(s, p)
    ensures Inv(System(s.host.(limiter := s.host.limiter.(sinceRotation := 0)), LT.Next(s.history, LT.Regenerates, p.limiter), s.phases), p)
  {
    LT.NextKeeps(s.history, LT.Regenerates, p.limiter);
    hide LT.Inv, Linked, Awaited, Open, HashedOnce;
  }

  lemma FailsKeeps(s: System, k: nat, code: ErrorCode, t: int, u: int, c: HostConfig, p: Policies)
    requires Inv(s, p) && k < |s.phases| && Can(s, Fails(k, code, t, u), c, p)
    ensures Inv(Next(s, Fails(k, code, t, u), c, p), p)
  {
    hide LT.Inv, Linked, Awaited, Open, HashedOnce, LT.Next, L.Settle;
    if s.phases[k].AwaitConfirm? {
      SettleKeeps(s, k, Over(code), false, t, u, p);
    } else {
      assert s.phases[k := s.phases[k]] == s.phases;
      if s.phases[k].AwaitHello? { IdleKeeps(s, k, Over(code), p); }
    }
  }

  lemma ArrivesKeeps(s: System, k: nat, m: Inbound, e: Env, victim: Option<L.Peer>, c: HostConfig, p: Policies)
    requires Inv(s, p) && Can(s, Arrives(k, m, e, victim), c, p)
    ensures Inv(Next(s, Arrives(k, m, e, victim), c, p), p)
  {
    hide Inv, LT.Inv, Linked, Awaited, Open, HashedOnce, LT.Next, L.Settle, OnHello, SettledHistory, Begun;
    if s.phases[k].AwaitHello? && m.HelloArrives? {
      HelloKeeps(s, k, m.h, e, victim, c, p);
    } else if s.phases[k].AwaitConfirm? {
      ConfirmKeeps(s, k, m, e, victim, c, p);
    } else if s.phases[k].AwaitHello? {
      IdleKeeps(s, k, Over(Protocol), p);
    } else {
      assert s.phases[k := s.phases[k]] == s.phases;
    }
  }

  lemma ConfirmKeeps(s: System, k: nat, m: Inbound, e: Env, victim: Option<L.Peer>, c: HostConfig, p: Policies)
    requires Inv(s, p) && Can(s, Arrives(k, m, e, victim), c, p) && s.phases[k].AwaitConfirm?
    ensures Inv(Next(s, Arrives(k, m, e, victim), c, p), p)
  {
    hide Inv, LT.Inv, Linked, Awaited, Open, HashedOnce, LT.Next, L.Settle, SettledHistory, OnConfirm, Settle;
    var phase := OnInbound(c, s.host, s.phases[k], m, e, p, victim).1;
    SettleKeeps(s, k, phase, phase.Established?, e.t, e.u, p);
  }

  lemma {:induction false} RunKeeps(s: System, es: seq<Event>, v: System, c: HostConfig, p: Policies)
    requires Inv(s, p) && Run(s, es, v, c, p)
    ensures Inv(v, p)
    decreases |es|
  {
    hide Inv, Can, Next;
    if es != [] {
      NextKeeps(s, es[0], c, p);
      RunKeeps(Next(s, es[0], c, p), es[1..], v, c, p);
    }
  }

  lemma StartInv(p: Policies)
    requires p.limiter.rotateAfter > 0
    ensures Inv(START, p)
  {
    LT.RunKeeps(LT.START, [], LT.START, p.limiter);
    hide LT.Inv;
  }

  /** The connection that attempt `a` belongs to: it waits for the hash of the code, or for the confirm. */
  predicate WaitsFor(s: System, k: nat, a: nat) {
    && k < |s.phases|
    && match s.phases[k]
       case Derives(_, attempt, _) => attempt == a
       case AwaitConfirm(i) => i < |s.host.pendings| && s.host.pendings[i].attempt == Some(a)
       case _ => false
  }

  /** Whatever the connections do, an attempt is unsettled exactly while it belongs to one connection, and
      only one, that waits for the hash of the code or for its confirm; when none waits, nothing is in
      flight. So every attempt is settled by the time its connection is over, and no code sees more than
      `rotateAfter + maxPending - 1` failures. */
  lemma AttemptsBelongToConnections(es: seq<Event>, s: System, c: HostConfig, p: Policies, a: nat, code: nat)
    requires p.limiter.rotateAfter > 0 && p.limiter.maxPending > 0 && Run(START, es, s, c, p)
    requires a < |s.host.limiter.attempts|
    ensures !s.host.limiter.attempts[a].settled <==> exists k: nat :: WaitsFor(s, k, a)
    ensures forall k: nat, l: nat :: WaitsFor(s, k, a) && WaitsFor(s, l, a) ==> k == l
    ensures (forall k :: 0 <= k < |s.phases| ==> !s.phases[k].AwaitConfirm? && !s.phases[k].Derives?) ==> s.host.limiter.pending == 0
    ensures Count(s.history.log, LT.FailedAt(code)) <= p.limiter.rotateAfter + p.limiter.maxPending - 1
  {
    StartInv(p);
    RunKeeps(START, es, s, c, p);
    hide Run, Count, Linked, Awaited, Open, HashedOnce;
    Bound(s, p, code);
    Belongs(s, p, a);
    BelongsOnce(s, p, a);
    if forall k :: 0 <= k < |s.phases| ==> !s.phases[k].AwaitConfirm? && !s.phases[k].Derives? {
      forall b | 0 <= b < |s.history.log| ensures s.history.log[b].settled {
        Belongs(s, p, b);
      }
      CountNone(s.history.log, LT.InFlight());
    }
  }

  lemma Belongs(s: System, p: Policies, a: nat)
    requires Inv(s, p) && a < |s.host.limiter.attempts|
    ensures !s.host.limiter.attempts[a].settled <==> exists k: nat :: WaitsFor(s, k, a)
  {
    hide LT.Inv;
    if !s.host.limiter.attempts[a].settled {
      Waited(s, p, a);
    }
    forall k: nat | WaitsFor(s, k, a) ensures !s.host.limiter.attempts[a].settled {
      assert s.phases[k].Derives? ==> s.phases[k].attempt in Open(s.phases);
    }
  }

  lemma BelongsOnce(s: System, p: Policies, a: nat)
    requires Inv(s, p)
    ensures forall k: nat, l: nat :: WaitsFor(s, k, a) && WaitsFor(s, l, a) ==> k == l
  {
    hide Inv, WaitsFor;
    forall k: nat, l: nat | WaitsFor(s, k, a) && WaitsFor(s, l, a) ensures k == l {
      if k < l { NotTwo(s, p, a, k, l); }
      if l < k { NotTwo(s, p, a, l, k); }
    }
  }

  lemma NotTwo(s: System, p: Policies, a: nat, k: nat, l: nat)
    requires Inv(s, p) && WaitsFor(s, k, a) && k < l
    ensures !WaitsFor(s, l, a)
  {
    hide LT.Inv, Held;
    if l < |s.phases| {
      assert s.phases[k].Derives? ==> s.phases[k].attempt in Open(s.phases);
      assert s.phases[l].Derives? ==> s.phases[l].attempt in Open(s.phases);
    }
  }

  lemma Waited(s: System, p: Policies, a: nat)
    requires Inv(s, p) && a < |s.host.limiter.attempts| && !s.host.limiter.attempts[a].settled
    ensures exists k: nat :: WaitsFor(s, k, a)
  {
    hide LT.Inv;
    if a in Open(s.phases) {
      var k :| 0 <= k < |s.phases| && s.phases[k].Derives? && s.phases[k].attempt == a;
      assert WaitsFor(s, k, a);
    } else {
      assert Held(a, s.host.pendings);
      var i :| 0 <= i < |s.host.pendings| && s.host.pendings[i].attempt == Some(a);
      var k :| 0 <= k < |s.phases| && s.phases[k] == AwaitConfirm(i);
      assert WaitsFor(s, k, a);
    }
  }

  lemma Bound(s: System, p: Policies, code: nat)
    requires Inv(s, p) && p.limiter.rotateAfter > 0 && p.limiter.maxPending > 0
    ensures Count(s.history.log, LT.FailedAt(code)) <= p.limiter.rotateAfter + p.limiter.maxPending - 1
  {
    assert LT.CodeInv(s.history, p.limiter, code);
    if code > s.history.code { LT.CountNew(s.history, code); }
  }

  /** No event changes how a settled attempt ended. */
  lemma SettledStays(s: System, ev: Event, c: HostConfig, p: Policies, a: nat)
    requires Inv(s, p) && Can(s, ev, c, p) && a < |s.history.log| && s.history.log[a].settled
    ensures a < |Next(s, ev, c, p).history.log| && Next(s, ev, c, p).history.log[a] == s.history.log[a]
  {
    hide OnHello, OnInbound, OnDerivation, L.Begin, L.Settle, Begun, L.Prune, Linked, Awaited, R.Check, LT.CodeInv, Count, LT.SumPending;
  }
}
