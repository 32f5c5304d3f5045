/** The two objects that run the handshake, each step equal to its specification in `Handshake`. */
module HandshakeEnds {
  import opened Wrappers
  import opened Bytes
  import S = Spake2
  import L = Limiter
  import T = Throttles
  import R = Replay
  import opened Handshake

  class HostAuthenticator {
    const c: HostConfig
    const limiter: L.AttemptLimiter
    const throttle: T.PeerThrottle
    const nonces: R.NonceCache
    var pendings: seq<Pending>

    ghost function View(): HostState
      reads this, limiter, throttle, nonces
    {
      HostState(limiter.View(), throttle.windows, nonces.seen, pendings)
    }

    function Limits(): Policies { Policies(limiter.policy, throttle.policy, nonces.windowMs, nonces.maxEntries) }

    /** Every attempt a pending handshake holds is one of the limiter's. */
    ghost predicate Valid()
      reads this, limiter
    {
      && c.setup.group.order > 0
      && forall i :: 0 <= i < |pendings| && pendings[i].attempt.Some? ==> pendings[i].attempt.value < |limiter.attempts|
    }

    constructor (c: HostConfig, p: Policies)
      requires c.setup.group.order > 0
      ensures Valid() && this.c == c && Limits() == p && View() == HostState(L.FRESH, map[], [], [])
      ensures fresh(limiter) && fresh(throttle) && fresh(nonces)
    {
      this.c := c;
      limiter := new L.AttemptLimiter(p.limiter);
      throttle := new T.PeerThrottle(p.throttle);
      nonces := new R.NonceCache(p.windowMs, p.maxEntries);
      pendings := [];
    }

    method Hello(h: Hello, e: Env) returns (o: HelloOutcome, ghost victim: Option<L.Peer>)
      requires Valid() && ValidEnv(c.setup, e)
      modifies this`pendings, limiter, throttle, nonces
      ensures Valid()
      ensures (View(), o) == OnHello(c, old(View()), h, e, Limits(), victim)
      ensures o.Deriving? ==> o.attempt < |limiter.attempts| && o.secret == e.code
      ensures o.Challenged? ==> o.pending < |pendings|
      ensures L.MayDrop(L.Prune(old(limiter.peers), e.t, limiter.policy), e.who, limiter.policy, victim)
              || limiter.View() == old(limiter.View())
    {
      victim := None;
      if h.v != PROTOCOL_VERSION {
        return Failed(UnsupportedVersion, None), victim;
      }
      if h.hostId != DeviceId(c) {
        return Failed(UnknownDevice, None), victim;
      }
      if c.setup.idOf(h.viewerKey) != h.viewerId {
        return Failed(Protocol, None), victim;
      }
      if h.auth.Grant? != h.grantId.Some? {
        return Failed(Protocol, None), victim;
      }
      var known := nonces.CheckNonce(h.nonce, h.time, e.t);
      if known != R.Ok {
        return Failed(if known.Replayed? then ErrorCode.Replayed else ErrorCode.ClockSkew, None), victim;
      }
      if !h.auth.Code? {
        var allowed := throttle.AllowAttempt(e.who, e.t);
        if allowed.Wait? {
          return Failed(ErrorCode.Busy, Some(allowed.retryAfterMs)), victim;
        }
        o := Keyed(h, e);
      } else {
        o, victim := Coded(h, e);
      }
    }

    /** `account` and `paired` hellos, and those that resume with a grant. */
    method Keyed(h: Hello, e: Env) returns (o: HelloOutcome)
      requires Valid() && ValidEnv(c.setup, e) && !h.auth.Code?
      modifies this`pendings
      ensures Valid()
      ensures (View(), o) == (var r := KeyedSession(c, h, e);
                              if r.0.None? then (old(View()), Failed(r.1, None)) else Pend(old(View()), r.0.value, None))
    {
      if h.auth.Account? {
        if h.dh.None? {
          return Failed(Protocol, None);
        }
        if !e.account {
          return Failed(NotAuthorised, None);
        }
        o := ExchangeChallenge(h, e);
        return;
      }
      if h.auth.Paired? {
        if h.dh.None? {
          return Failed(Protocol, None);
        }
        if !e.paired {
          return Failed(NotPaired, None);
        }
        o := ExchangeChallenge(h, e);
        return;
      }
      if h.share.None? {
        return Failed(Protocol, None);
      }
      if e.grant.None? {
        return Failed(GrantInvalid, None);
      }
      var session := SpakeAnswer(h, e, e.grant.value);
      if session.None? {
        return Failed(Protocol, None);
      }
      o := Send(session.value, None);
    }

    method ExchangeChallenge(h: Hello, e: Env) returns (o: HelloOutcome)
      requires Valid() && h.dh.Some?
      modifies this`pendings
      ensures Valid()
      ensures (View(), o) == (var s := ExchangeSession(c, h, e.nonce, e.dhSecret);
                              if s.None? then (old(View()), Failed(Protocol, None)) else Pend(old(View()), s.value, None))
    {
      var hostKey := PublicKey(c.device);
      var hostDh := DhKey(e.dhSecret);
      var bind := Binding(h, hostKey, c.hostName, e.nonce, Some(hostDh));
      var derived := DeriveExchange(c.setup, e.dhSecret, h.dh.value, bind);
      if derived.None? {
        return Failed(Protocol, None);
      }
      o := Send(Session(h, hostKey, c.hostName, e.nonce, Some(hostDh), h.dh.value, hostDh, derived.value), None);
    }

    /** The access-code kind, as far as the hash of the code. */
    method Coded(h: Hello, e: Env) returns (o: HelloOutcome, ghost victim: Option<L.Peer>)
      requires Valid() && ValidEnv(c.setup, e)
      modifies limiter
      ensures Valid() && (o.Deriving? ==> o.attempt < |limiter.attempts| && o.secret == e.code)
      ensures (View(), o) == OnCode(old(View()), h, e, Limits(), victim)
      ensures L.MayDrop(L.Prune(old(limiter.peers), e.t, limiter.policy), e.who, limiter.policy, victim)
              || limiter.View() == old(limiter.View())
    {
      victim := None;
      if h.share.None? {
        return Failed(Protocol, None), victim;
      }
      if e.code.Disabled? {
        return Failed(CodeDisabled, None), victim;
      }
      var decision;
      decision, victim := limiter.BeginAttempt(e.who, e.t);
      match decision {
        case Locked(ms) => o := Failed(RateLimited, Some(ms));
        case Busy => o := Failed(ErrorCode.Busy, Some(1000));
        case Allowed(i) => o := Deriving(i, e.code);
      }
    }

    /** The code is hashed, or that failed. */
    method Derived(h: Hello, attempt: nat, secret: CodeSecret, e: Env) returns (o: HelloOutcome)
      requires Valid() && attempt < |limiter.attempts| && ValidSecret(c.setup, secret, e)
      modifies this`pendings, limiter
      ensures Valid() && !o.Deriving?
      ensures (View(), o) == OnDerived(c, old(View()), h, attempt, secret, e, Limits())
    {
      var session := None;
      if secret.Secret? && h.share.Some? {
        session := SpakeAnswer(h, e, secret.w);
      }
      if session.None? {
        limiter.SettleAttempt(attempt, false, e.t, e.u);
        o := Failed(Protocol, None);
      } else {
        o := Send(session.value, Some(attempt));
      }
    }

    /** One side of SPAKE2, finished with the viewer's share. */
    method SpakeAnswer(h: Hello, e: Env, w: nat) returns (session: Option<Session>)
      requires c.setup.group.order > 0 && h.share.Some?
      requires Scalar(c.setup.group, w) && Scalar(c.setup.group, e.scalar) && S.Share(c.setup.group, S.B, w, e.scalar) != 0
      ensures session == SpakeSession(c, h, e.nonce, w, e.scalar)
    {
      var hostKey := PublicKey(c.device);
      var bind := Binding(h, hostKey, c.hostName, e.nonce, None);
      var spake := new S.Exchange(c.setup.group, S.B, h.viewerId, DeviceId(c), w, e.scalar);
      var result := spake.FinishWith(h.share.value, bind);
      match result {
        case Refused => session := None;
        case Finished(keys) =>
          session := Some(Session(h, hostKey, c.hostName, e.nonce, None, h.share.value, spake.share, keys));
      }
    }

    method Send(session: Session, attempt: Option<nat>) returns (o: HelloOutcome)
      requires Valid() && (attempt.Some? ==> attempt.value < |limiter.attempts|)
      modifies this`pendings
      ensures Valid() && (View(), o) == Pend(old(View()), session, attempt)
    {
      o := Challenged(ChallengeOf(session), |pendings|);
      pendings := pendings + [Pending(session, attempt, false)];
    }

    /** The viewer's last message. A handshake is confirmed, refused or abandoned once. */
    method ConfirmPending(i: nat, m: Confirm, t: int, u: int) returns (o: ConfirmOutcome)
      requires Valid() && i < |pendings|
      modifies this`pendings, limiter
      ensures Valid()
      ensures o == if old(pendings[i].done) then NotAccepted(Protocol) else OnConfirm(old(pendings[i].session), m)
      ensures View() == if old(pendings[i].done) then old(View()) else Settle(old(View()), i, o.Accepted?, t, u, Limits())
    {
      if pendings[i].done {
        return NotAccepted(Protocol);
      }
      var s := pendings[i].session;
      pendings := pendings[i := pendings[i].(done := true)];
      if m.confirm != s.keys.macA {
        SettleOf(i, false, t, u);
        return NotAccepted(BadAuth);
      }
      if !Verify(s.hello.viewerKey, VIEWER_SIG, SignedBody(s, m.confirm), m.signature) {
        SettleOf(i, false, t, u);
        return NotAccepted(Protocol);
      }
      SettleOf(i, true, t, u);
      o := Accepted(ViewerOf(s));
    }

    /** The viewer went away: the guess is spent all the same. */
    method Abandon(i: nat, t: int, u: int)
      requires Valid() && i < |pendings|
      modifies this`pendings, limiter
      ensures Valid()
      ensures View() == if old(pendings[i].done) then old(View()) else Settle(old(View()), i, false, t, u, Limits())
    {
      if pendings[i].done {
        return;
      }
      pendings := pendings[i := pendings[i].(done := true)];
      SettleOf(i, false, t, u);
    }

    method SettleOf(i: nat, success: bool, t: int, u: int)
      requires Valid() && i < |pendings|
      modifies limiter
      ensures Valid()
      ensures limiter.View() == if pendings[i].attempt.Some?
                                then L.Settle(old(limiter.View()), pendings[i].attempt.value, success, t, u, limiter.policy)
                                else old(limiter.View())
    {
      if pendings[i].attempt.Some? {
        limiter.SettleAttempt(pendings[i].attempt.value, success, t, u);
      }
    }
  }

  class ViewerHandshake {
    const v: ViewerConfig
    const spake: S.Exchange?
    var finished: bool

    ghost predicate Valid()
      reads this, spake
    {
      && v.setup.group.order > 0
      && (match v.secret
          case Ephemeral(_) => spake == null
          case Password(w, scalar) =>
            && spake != null && spake.Valid() && v.hello.share == Some(spake.share) && (spake.finished ==> finished)
            && (spake.g, spake.role, spake.idA, spake.idB, spake.w, spake.scalar)
                 == (v.setup.group, S.A, v.hello.viewerId, v.hostId, w, scalar))
    }

    /** `scalar` is the random number drawn: a SPAKE2 scalar, or the secret of an ephemeral key. */
    constructor (c: Setup, device: nat, name: Name, hostId: Data12, expected: Option<Data32>, cred: Credential,
                 nonce: Data32, time: Time, scalar: nat)
      requires c.group.order > 0 && ValidCredential(c, cred, scalar)
      ensures Valid() && !finished && v == Create(c, device, name, hostId, expected, cred, nonce, time, scalar)
    {
      v := Create(c, device, name, hostId, expected, cred, nonce, time, scalar);
      finished := false;
      if cred.ByCode? || cred.ByGrant? {
        spake := new S.Exchange(c.group, S.A, c.idOf(PublicKey(device)), hostId, cred.w, scalar);
      } else {
        spake := null;
      }
    }

    method Answer(c: Challenge) returns (o: ChallengeOutcome)
      requires Valid()
      modifies this, spake
      ensures Valid() && finished
      ensures o == if old(finished) then NotAnswered(Protocol) else OnChallenge(v, c)
    {
      if finished {
        return NotAnswered(Protocol);
      }
      finished := true;
      if v.setup.idOf(c.hostKey) != v.hostId {
        return NotAnswered(IdentityMismatch);
      }
      if v.expectedHostKey.Some? && v.expectedHostKey.value != c.hostKey {
        return NotAnswered(IdentityMismatch);
      }
      var session := SessionWith(c);
      if session.None? {
        return NotAnswered(Protocol);
      }
      var s := session.value;
      if c.confirm != s.keys.macB {
        return NotAnswered(BadAuth);
      }
      if !Verify(c.hostKey, HOST_SIG, SignedBody(s, c.confirm), c.signature) {
        return NotAnswered(IdentityMismatch);
      }
      o := Answered(ConfirmOf(s), Host(v.hostId, c.hostKey, c.hostName, Root(s)));
    }

    method SessionWith(c: Challenge) returns (session: Option<Session>)
      requires Valid() && finished && (spake != null ==> !spake.finished)
      modifies spake
      ensures Valid() && session == ViewerSession(v, c)
    {
      match v.secret {
        case Ephemeral(secret) =>
          if c.dh.None? {
            return None;
          }
          var bind := Binding(v.hello, c.hostKey, c.hostName, c.nonce, c.dh);
          var keys := DeriveExchange(v.setup, secret, c.dh.value, bind);
          if keys.None? {
            return None;
          }
          session := Some(Session(v.hello, c.hostKey, c.hostName, c.nonce, c.dh, DhKey(secret), c.dh.value, keys.value));
        case Password(w, scalar) =>
          if c.share.None? {
            return None;
          }
          var bind := Binding(v.hello, c.hostKey, c.hostName, c.nonce, None);
          var result := spake.FinishWith(c.share.value, bind);
          match result {
            case Refused => session := None;
            case Finished(keys) =>
              session := Some(Session(v.hello, c.hostKey, c.hostName, c.nonce, None, spake.share, c.share.value, keys));
          }
      }
    }
  }
}
