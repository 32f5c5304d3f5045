/** Agreement in both directions, and success of an untampered run if and only if the secrets agree. */
module HandshakeTheorems {
  import opened Wrappers
  import opened Bytes
  import S = Spake2
  import opened Spake2Theorems
  import L = Limiter
  import T = Throttles
  import R = Replay
  import opened Handshake
  import opened HandshakeBinding
  import opened HandshakeWorld

  lemma DomainNames()
    ensures NoZero(HOST_SIG) && NoZero(VIEWER_SIG) && HOST_SIG != VIEWER_SIG
  {
    assert HOST_SIG[18] == 'h' && VIEWER_SIG[18] == 'v';
  }

  /** A body signed as a viewer was signed by a viewer's run of that device. */
  lemma SignedByViewer(w: World, honest: set<nat>, d: nat, s: Session) returns (i: nat)
    requires Inv(w, honest) && Issued(w, d, Signed(VIEWER_SIG, ViewerBody(s))) && Formed(s)
    ensures i < |w.viewers| && w.viewers[i].session.Some? && w.viewers[i].v.device == d
    ensures Agree(w.viewers[i].session.value, s) && Root(w.viewers[i].session.value) == Root(s)
  {
    var m := Signed(VIEWER_SIG, ViewerBody(s));
    DomainNames();
    hide NoZero, Signed, ViewerBody, HostBody, Root, Agree, Fresh;
    if k :| 0 <= k < |w.viewers| && w.viewers[k].session.Some? && w.viewers[k].v.device == d
            && m == Signed(VIEWER_SIG, ViewerBody(w.viewers[k].session.value)) {
      i := k;
      assert ViewerOk(w, w.viewers[i], honest);
      DomainsSeparate(VIEWER_SIG, VIEWER_SIG, ViewerBody(s), ViewerBody(w.viewers[i].session.value));
      ViewerBodies(w.viewers[i].session.value, s);
    } else if j :| 0 <= j < |w.hosts| && w.hosts[j].c.device == d && m == Signed(HOST_SIG, HostBody(w.hosts[j].session)) {
      DomainsSeparate(VIEWER_SIG, HOST_SIG, ViewerBody(s), HostBody(w.hosts[j].session));
      assert false;
    } else {
      var domain, body :| (d, domain, body) in w.elsewhere && m == Signed(domain, body);
      DomainsSeparate(VIEWER_SIG, domain, ViewerBody(s), body);
      assert false;
    }
  }

  lemma ViewerBodies(s: Session, t: Session)
    requires Formed(s) && Formed(t) && ViewerBody(s) == ViewerBody(t)
    ensures Agree(s, t) && Root(s) == Root(t)
  {
    SameBodyAgrees(s, t, true);
  }

  lemma HostBodies(s: Session, t: Session)
    requires Formed(s) && Formed(t) && HostBody(s) == HostBody(t)
    ensures Agree(s, t) && Root(s) == Root(t)
  {
    SameBodyAgrees(s, t, false);
  }

  /** A body signed as a host was signed with a challenge of that device. */
  lemma SignedByHost(w: World, honest: set<nat>, d: nat, s: Session) returns (j: nat)
    requires Inv(w, honest) && Issued(w, d, Signed(HOST_SIG, HostBody(s))) && Formed(s)
    ensures j < |w.hosts| && w.hosts[j].c.device == d
    ensures Agree(w.hosts[j].session, s) && Root(w.hosts[j].session) == Root(s)
  {
    var m := Signed(HOST_SIG, HostBody(s));
    DomainNames();
    hide NoZero, Signed, ViewerBody, HostBody, Root, Agree, Fresh;
    if k :| 0 <= k < |w.hosts| && w.hosts[k].c.device == d && m == Signed(HOST_SIG, HostBody(w.hosts[k].session)) {
      j := k;
      assert HostOk(w, w.hosts[j], honest);
      DomainsSeparate(HOST_SIG, HOST_SIG, HostBody(s), HostBody(w.hosts[j].session));
      HostBodies(w.hosts[j].session, s);
    } else if i :| 0 <= i < |w.viewers| && w.viewers[i].session.Some? && w.viewers[i].v.device == d
                   && m == Signed(VIEWER_SIG, ViewerBody(w.viewers[i].session.value)) {
      DomainsSeparate(HOST_SIG, VIEWER_SIG, HostBody(s), ViewerBody(w.viewers[i].session.value));
      assert false;
    } else {
      var domain, body :| (d, domain, body) in w.elsewhere && m == Signed(domain, body);
      DomainsSeparate(HOST_SIG, domain, HostBody(s), body);
      assert false;
    }
  }

  lemma StartInv(honest: set<nat>)
    ensures Inv(START, honest)
  {
  }

  /** If a host accepts the key of an honest device, that device has completed exactly one run whose
      session agrees with the host's: the same hello, names, keys, nonces and shares, and the same
      root. No other challenge of any host agrees with that run. */
  lemma HostAgreement(es: seq<Event>, w: World, c: Setup, honest: set<nat>, j: nat, d: nat) returns (i: nat)
    requires Run(START, es, w, c, honest) && j < |w.hosts| && w.hosts[j].accepted
    requires d in honest && w.hosts[j].session.hello.viewerKey == PublicKey(d)
    ensures i < |w.viewers| && w.viewers[i].v.device == d && w.viewers[i].session.Some?
    ensures Agree(w.viewers[i].session.value, w.hosts[j].session)
    ensures Root(w.viewers[i].session.value) == Root(w.hosts[j].session)
    ensures forall k | 0 <= k < |w.viewers| && w.viewers[k].session.Some? && k != i ::
              !Agree(w.viewers[k].session.value, w.hosts[j].session)
    ensures forall k :: 0 <= k < |w.hosts| && Agree(w.viewers[i].session.value, w.hosts[k].session) ==> k == j
  {
    StartInv(honest);
    RunKeeps(START, es, w, c, honest);
    hide Run, Issued, Formed;
    assert HostOk(w, w.hosts[j], honest);
    i := SignedByViewer(w, honest, d, w.hosts[j].session);
    OneOfEach(w, honest, w.viewers[i].session.value, i, j);
  }

  /** Sessions that agree share their nonces, and no nonce comes twice. */
  lemma OneOfEach(w: World, honest: set<nat>, s: Session, i: nat, j: nat)
    requires Inv(w, honest) && i < |w.viewers| && j < |w.hosts|
    requires w.viewers[i].session == Some(s) && Agree(s, w.hosts[j].session)
    ensures forall k | 0 <= k < |w.viewers| && w.viewers[k].session.Some? && k != i ::
              !Agree(w.viewers[k].session.value, w.hosts[j].session)
    ensures forall k :: 0 <= k < |w.hosts| && Agree(s, w.hosts[k].session) ==> k == j
  {
    hide Issued, Formed;
    forall k | 0 <= k < |w.viewers| && w.viewers[k].session.Some? && Agree(w.viewers[k].session.value, w.hosts[j].session)
      ensures k == i
    {
      assert ViewerOk(w, w.viewers[k], honest) && ViewerOk(w, w.viewers[i], honest);
      assert ViewerNonces(w)[k] == ViewerNonces(w)[i];
    }
    forall k | 0 <= k < |w.hosts| && Agree(s, w.hosts[k].session) ensures k == j {
      assert HostNonces(w)[k] == HostNonces(w)[j];
    }
  }

  /** If a viewer accepts the key of an honest host, that host has sent exactly one challenge whose
      session agrees with the viewer's; and when that host accepts, both have the viewer's root. */
  lemma ViewerAgreement(es: seq<Event>, w: World, c: Setup, honest: set<nat>, i: nat, d: nat) returns (j: nat)
    requires Run(START, es, w, c, honest) && i < |w.viewers| && w.viewers[i].session.Some?
    requires d in honest && w.viewers[i].session.value.hostKey == PublicKey(d)
    ensures j < |w.hosts| && w.hosts[j].c.device == d
    ensures Agree(w.viewers[i].session.value, w.hosts[j].session)
    ensures Root(w.viewers[i].session.value) == Root(w.hosts[j].session)
    ensures forall k | 0 <= k < |w.viewers| && w.viewers[k].session.Some? && k != i ::
              !Agree(w.viewers[k].session.value, w.hosts[j].session)
    ensures forall k :: 0 <= k < |w.hosts| && Agree(w.viewers[i].session.value, w.hosts[k].session) ==> k == j
  {
    StartInv(honest);
    RunKeeps(START, es, w, c, honest);
    hide Run, Issued, Formed;
    assert ViewerOk(w, w.viewers[i], honest);
    j := SignedByHost(w, honest, d, w.viewers[i].session.value);
    AgreeTurns(w.hosts[j].session, w.viewers[i].session.value);
    OneOfEach(w, honest, w.viewers[i].session.value, i, j);
  }

  lemma AgreeTurns(s: Session, t: Session)
    requires Agree(s, t)
    ensures Agree(t, s)
  {
  }

  // ---- what a host sends, and what an untampered run ends in -----------------------------------------

  /** Whenever `onHello` sends a challenge, the hello passed every check, and the pending handshake
      holds the session of a secret of the hello's kind, which is not the access code. */
  lemma OnHelloChallenges(c: HostConfig, s: HostState, h: Hello, e: Env, p: Policies, victim: Option<L.Peer>)
    returns (secret: ShareSecret)
    requires c.setup.group.order > 0 && OnHello(c, s, h, e, p, victim).1.Challenged?
    ensures var r := OnHello(c, s, h, e, p, victim);
            && Malformed(c, h).None? && HostSession(c, h, e.nonce, secret).Some?
            && Waits(s, r.0, r.1, HostSession(c, h, e.nonce, secret).value)
            && (h.auth.Paired? ==> e.paired) && (h.auth.Account? ==> e.account)
            && (h.auth.Grant? ==> e.grant == Some(secret.w)) && !h.auth.Code?
  {
    hide SpakeSession, ExchangeSession, ChallengeOf, L.Begin, T.Allow, R.Check;
    secret := match h.auth
      case Grant => Password(e.grant.value, e.scalar)
      case _ => Ephemeral(e.dhSecret);
  }

  /** The challenge of this session was sent and its handshake waits for the confirm. */
  predicate Waits(s: HostState, v: HostState, o: HelloOutcome, session: Session) {
    && o == Challenged(ChallengeOf(session), |s.pendings|) && |v.pendings| == |s.pendings| + 1
    && v.pendings[..|s.pendings|] == s.pendings
    && v.pendings[|s.pendings|].session == session && !v.pendings[|s.pendings|].done
  }

  /** A challenge for the access code is sent only after a hello that passed every check began an
      attempt, and holds the session of the code as it was then; whatever happened in between. */
  lemma OnDerivedChallenges(c: HostConfig, s: HostState, h: Hello, e: Env, p: Policies, victim: Option<L.Peer>,
                            later: HostState, f: Env) returns (secret: ShareSecret)
    requires c.setup.group.order > 0 && OnHello(c, s, h, e, p, victim).1.Deriving?
    requires var o := OnHello(c, s, h, e, p, victim).1; OnDerived(c, later, h, o.attempt, o.secret, f, p).1.Challenged?
    ensures var o := OnHello(c, s, h, e, p, victim).1;
            var r := OnDerived(c, later, h, o.attempt, o.secret, f, p);
            && Malformed(c, h).None? && h.auth.Code? && L.Begin(s.limiter, e.who, e.t, p.limiter, victim).1 == L.Allowed(o.attempt)
            && secret.Password? && e.code == Secret(secret.w)
            && HostSession(c, h, f.nonce, secret).Some?
            && Waits(later, r.0, r.1, HostSession(c, h, f.nonce, secret).value)
            && r.0.pendings[|later.pendings|].attempt == Some(o.attempt)
  {
    hide SpakeSession, ExchangeSession, ChallengeOf, L.Begin, T.Allow, R.Check;
    secret := Password(e.code.w, f.scalar);
  }

  /** The two secrets fit: equal scalars on both sides, or two ephemeral keys. */
  predicate SameSecret(a: ShareSecret, b: ShareSecret) {
    match a
    case Password(w, _) => b.Password? && b.w == w
    case Ephemeral(_) => b.Ephemeral?
  }

  lemma DhCommutes(a: nat, b: nat)
    ensures SharedSecret(a, DhKey(b)) == SharedSecret(b, DhKey(a))
  {
    assert DhKey(a)[0] == Part(DhPublic(a), 0) && DhKey(b)[0] == Part(DhPublic(b), 0);
  }

  /** A hello and a challenge that arrive as they were sent: the viewer accepts and the host then
      accepts its confirm, with one root, if and only if they have the same secret; otherwise the
      viewer reports that the code is wrong. */
  lemma UntamperedRun(c: Setup, hc: HostConfig, device: nat, name: Name, expected: Option<Data32>, cred: Credential,
                      nonce: Data32, time: Time, scalar: nat, hostNonce: Data32, secret: ShareSecret)
    requires ValidSetup(c) && hc.setup == c && ValidCredential(c, cred, scalar)
    requires expected.None? || expected == Some(PublicKey(hc.device))
    requires secret.Password? ==> Scalar(c.group, secret.w) && Scalar(c.group, secret.scalar)
                                  && S.Share(c.group, S.B, secret.w, secret.scalar) != 0
    requires secret.Password? <==> cred.ByCode? || cred.ByGrant?
    ensures var v := Create(c, device, name, DeviceId(hc), expected, cred, nonce, time, scalar);
            var s := HostSession(hc, v.hello, hostNonce, secret);
            && Malformed(hc, v.hello).None?
            && (SameSecret(v.secret, secret) ==> s.Some?)
            && (s.Some? ==>
                 var o := OnChallenge(v, ChallengeOf(s.value));
                 if SameSecret(v.secret, secret) then
                   && o == Answered(ConfirmOf(s.value), Host(DeviceId(hc), PublicKey(hc.device), hc.hostName, Root(s.value)))
                   && OnConfirm(s.value, ConfirmOf(s.value)) == Accepted(ViewerOf(s.value))
                   && ViewerOf(s.value).root == Root(s.value)
                 else o == NotAnswered(BadAuth) || o == NotAnswered(Protocol))
  {
    hide SpakeSession, ExchangeSession, OnChallenge, OnConfirm, ChallengeOf, ConfirmOf, Root, S.Share, S.Encode, Block;
    var v := Create(c, device, name, DeviceId(hc), expected, cred, nonce, time, scalar);
    if secret.Password? {
      UntamperedPassword(hc, v, hostNonce, secret.w, secret.scalar);
    } else {
      UntamperedExchange(hc, v, hostNonce, secret.secret);
    }
  }

  predicate Plain(v: ViewerConfig, hc: HostConfig) {
    && v.hostId == DeviceId(hc) && (v.expectedHostKey.None? || v.expectedHostKey == Some(PublicKey(hc.device)))
    && v.hello.viewerId == v.setup.idOf(v.hello.viewerKey) && v.hello.viewerKey == PublicKey(v.device)
  }

  lemma UntamperedExchange(hc: HostConfig, v: ViewerConfig, hostNonce: Data32, secret: nat)
    requires ValidSetup(hc.setup) && v.setup == hc.setup && Plain(v, hc)
    requires v.secret.Ephemeral? && !ByPassword(v.hello.auth) && v.hello.dh == Some(DhKey(v.secret.secret))
    ensures var s := ExchangeSession(hc, v.hello, hostNonce, secret);
            && s.Some?
            && OnChallenge(v, ChallengeOf(s.value)) ==
                 Answered(ConfirmOf(s.value), Host(DeviceId(hc), PublicKey(hc.device), hc.hostName, Root(s.value)))
            && OnConfirm(s.value, ConfirmOf(s.value)) == Accepted(ViewerOf(s.value))
  {
    DhCommutes(v.secret.secret, secret);
    hide Binding, SharedSecret, Root, SignedBody, Sign, Utf8;
  }

  lemma UntamperedPassword(hc: HostConfig, v: ViewerConfig, hostNonce: Data32, w: nat, scalar: nat)
    requires ValidSetup(hc.setup) && v.setup == hc.setup && Plain(v, hc)
    requires v.secret.Password? && ByPassword(v.hello.auth)
    requires var g := v.setup.group;
             && Scalar(g, w) && Scalar(g, scalar) && S.Share(g, S.B, w, scalar) != 0
             && Scalar(g, v.secret.w) && Scalar(g, v.secret.scalar) && S.Share(g, S.A, v.secret.w, v.secret.scalar) != 0
             && v.hello.share == Some(S.Encode(S.Share(g, S.A, v.secret.w, v.secret.scalar)))
    ensures var s := SpakeSession(hc, v.hello, hostNonce, w, scalar);
            && (v.secret.w == w ==> s.Some?)
            && (s.Some? ==>
                 var o := OnChallenge(v, ChallengeOf(s.value));
                 if v.secret.w == w then
                   && o == Answered(ConfirmOf(s.value), Host(DeviceId(hc), PublicKey(hc.device), hc.hostName, Root(s.value)))
                   && OnConfirm(s.value, ConfirmOf(s.value)) == Accepted(ViewerOf(s.value))
                 else o == NotAnswered(BadAuth) || o == NotAnswered(Protocol))
  {
    hide Binding, S.Share, S.Encode, Root, SignedBody, Sign, S.SharedElement, S.KeySchedule, S.Transcript;
    var g, x := v.setup.group, v.secret.scalar;
    var bind := Binding(v.hello, PublicKey(hc.device), hc.hostName, hostNonce, None);
    var pA, pB := S.Encode(S.Share(g, S.A, v.secret.w, x)), S.Encode(S.Share(g, S.B, w, scalar));
    if v.secret.w == w { NeverRefusesItsPeer(g, v.hello.viewerId, v.hostId, w, x, scalar, bind); }
    var a := S.Finish(g, S.A, v.hello.viewerId, v.hostId, v.secret.w, x, pA, pB, bind);
    var b := S.Finish(g, S.B, v.hello.viewerId, v.hostId, w, scalar, pB, pA, bind);
    if a.Finished? && b.Finished? {
      LengthBound();
      ConfirmsIffSame(g, v.hello.viewerId, v.hostId, v.secret.w, x, pA, pB, bind,
                      v.hello.viewerId, v.hostId, w, scalar, pB, pA, bind);
      KeyLengths(S.Finish(g, S.B, v.hello.viewerId, v.hostId, w, scalar, pB, pA, bind));
    }
    hide Binding, S.Finish, S.Share, S.Encode, Root, SignedBody, Sign;
  }

  lemma KeyLengths(o: S.Outcome)
    requires exists tt, aad :: o == S.Finished(S.KeySchedule(tt, aad))
    ensures |o.keys.macA| == |o.keys.macB| == 32
  {
  }
}
