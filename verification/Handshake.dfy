/** The three-message handshake: hello, challenge, confirm. */
module Handshake {
  import opened Wrappers
  import opened Bytes
  import S = Spake2
  import L = Limiter
  import T = Throttles
  import R = Replay

  // ---- messages, with the field sizes their schema enforces -----------------------------------------

  type Data12 = b: Data | |b| == 12 witness Digits(0, 12)
  type Data24 = b: Data | |b| == 24 witness Digits(0, 24)
  type Data32 = b: Data | |b| == 32 witness Digits(0, 32)
  type Data64 = b: Data | |b| == 64 witness Digits(0, 64)
  type Data65 = b: Data | |b| == 65 witness Digits(0, 65)
  type Name = b: Data | |b| <= 192 witness []
  type Version = n: nat | n <= 1000
  type Time = n: nat | n < 0x20_0000_0000_0000

  datatype AuthKind = Code | Grant | Paired | Account

  datatype Hello = Hello(v: Version, hostId: Data12, viewerId: Data12, viewerKey: Data32, viewerName: Name, nonce: Data32,
                         time: Time, auth: AuthKind, grantId: Option<Data24>, share: Option<Data65>, dh: Option<Data32>)

  datatype Challenge = Challenge(hostKey: Data32, hostName: Name, nonce: Data32, share: Option<Data65>,
                                 dh: Option<Data32>, confirm: Data32, signature: Data64)

  datatype Confirm = Confirm(confirm: Data32, signature: Data64)

  datatype ErrorCode =
    | UnsupportedVersion | UnknownDevice | RateLimited | BadAuth | GrantInvalid | NotPaired | CodeDisabled
    | NotAuthorised | Replayed | ClockSkew | Busy | Protocol | IdentityMismatch | TimedOut | LinkClosed

  /** What all devices share: the SPAKE2 group, the X25519 inputs that are refused, the Device ID of a key. */
  datatype Setup = Setup(group: S.Group, lowOrder: set<Data>, idOf: Data -> Data12)

  ghost predicate ValidSetup(c: Setup) {
    S.ValidGroup(c.group) && forall s: nat :: Block(DhPublic(s), 0, 32) !in c.lowOrder
  }

  const PROTOCOL_VERSION: Version := 1
  const HOST_SIG: string := "hopdesk/handshake/host/v1"
  const VIEWER_SIG: string := "hopdesk/handshake/viewer/v1"

  function PublicKey(device: nat): Data32 { Block(Identity(device), 0, 32) }

  /** What is handed to the signature scheme: the domain, a zero byte, the message. */
  function Signed(domain: string, m: Data): Data { Utf8(domain) + [Lit(0)] + m }
  function Sign(key: Data32, domain: string, m: Data): Data64 { Block(Signature(key, Signed(domain, m)), 0, 64) }
  predicate Verify(key: Data32, domain: string, m: Data, signature: Data64) { signature == Sign(key, domain, m) }

  function AuthName(a: AuthKind): string {
    match a case Code => "code" case Grant => "grant" case Paired => "paired" case Account => "account"
  }

  function OrEmpty(o: Option<Data>): Data { if o.Some? then o.value else [] }

  // ---- sessions: what one end believes it is part of ---------------------------------------------------

  /** The two ends' shares are `a` (the viewer's) and `b`; `keys.macA` is the viewer's confirmation. */
  datatype Session = Session(hello: Hello, hostKey: Data32, hostName: Name, hostNonce: Data32, hostDh: Option<Data32>,
                             a: Data, b: Data, keys: S.Keys)

  function BindingFields(h: Hello, hostKey: Data32, hostName: Name, hostNonce: Data32, hostDh: Option<Data32>): seq<Data> {
    [Utf8("hopdesk/handshake/binding/v1"), Decimal(h.v), h.hostId, h.viewerId, h.viewerKey, hostKey, h.viewerName,
     hostName, h.nonce, hostNonce, Decimal(h.time), Utf8(AuthName(h.auth)), OrEmpty(h.grantId), OrEmpty(h.dh), OrEmpty(hostDh)]
  }

  function Binding(h: Hello, hostKey: Data32, hostName: Name, hostNonce: Data32, hostDh: Option<Data32>): Data {
    Sha256(EncodeFields(BindingFields(h, hostKey, hostName, hostNonce, hostDh)))
  }

  function Bind(s: Session): Data { Binding(s.hello, s.hostKey, s.hostName, s.hostNonce, s.hostDh) }

  function SignedBody(s: Session, mac: Data): Data { Bind(s) + s.a + s.b + mac }

  function DeriveSessionRoot(ke: Data, hash: Data): Data {
    Block(Kdf(ke, hash, Utf8("hopdesk/session-root/v1")), 0, 32)
  }

  function Root(s: Session): Data {
    DeriveSessionRoot(s.keys.ke, Sha256(EncodeFields([Bind(s), s.a, s.b, s.keys.macA, s.keys.macB])))
  }

  // ---- the exchange that needs no typed secret -----------------------------------------------------------

  function DhKey(secret: nat): Data32 { Block(DhPublic(secret), 0, 32) }

  function DhSecretOf(key: Data): Option<nat> {
    if |key| == 32 && key[0].Part? && key[0].of.DhPublic? && key == DhKey(key[0].of.secret)
    then Some(key[0].of.secret) else None
  }

  function SharedSecret(secret: nat, theirs: Data): Data {
    match DhSecretOf(theirs)
    case Some(t) => Block(if secret <= t then DhShared(secret, t) else DhShared(t, secret), 0, 32)
    case None => Block(DhOther(secret, theirs), 0, 32)
  }

  function ExchangeKeys(shared: Data, bind: Data): S.Keys {
    var keys := Kdf(shared, bind, Utf8("hopdesk/account-exchange/v1"));
    var macKey := Block(keys, 32, 64);
    S.Keys(Block(keys, 0, 16), Hmac(macKey, Utf8("viewer")), Hmac(macKey, Utf8("host")))
  }

  function DeriveExchange(c: Setup, secret: nat, theirs: Data32, bind: Data): Option<S.Keys> {
    if theirs in c.lowOrder then None else Some(ExchangeKeys(SharedSecret(secret, theirs), bind))
  }

  // ---- the host -------------------------------------------------------------------------------------------

  datatype HostConfig = HostConfig(setup: Setup, device: nat, hostName: Name)

  function DeviceId(c: HostConfig): Data12 { c.setup.idOf(PublicKey(c.device)) }

  /** A challenge that was sent and waits for its confirm. */
  datatype Pending = Pending(session: Session, attempt: Option<nat>, done: bool)

  datatype CodeSecret = Disabled | Unusable | Secret(w: nat)

  /** What one hello meets: the clock, its caller, what the host's lists and secrets say of it, and
      the random numbers drawn. A grant is found together with the scalar of its secret. */
  datatype Env = Env(t: int, u: int, who: nat, paired: bool, account: bool, grant: Option<nat>, code: CodeSecret,
                     nonce: Data32, scalar: nat, dhSecret: nat)

  predicate Scalar(g: S.Group, w: nat) { 0 < w < g.order }

  /** Secrets are reduced to scalars of the group, and the scalar drawn gives a share that can be sent. */
  predicate ValidEnv(c: Setup, e: Env) {
    var g := c.group;
    && (e.grant.Some? ==> Scalar(g, e.grant.value) && S.Share(g, S.B, e.grant.value, e.scalar) != 0)
    && (e.code.Secret? ==> Scalar(g, e.code.w))
    && Scalar(g, e.scalar)
  }

  predicate ValidSecret(c: Setup, secret: CodeSecret, e: Env) {
    Scalar(c.group, e.scalar) && (secret.Secret? ==> Scalar(c.group, secret.w) && S.Share(c.group, S.B, secret.w, e.scalar) != 0)
  }

  /** The session of a host that answers with a SPAKE2 share, unless the viewer's share is refused. */
  function SpakeSession(c: HostConfig, h: Hello, nonce: Data32, w: nat, scalar: nat): Option<Session>
    requires c.setup.group.order > 0 && h.share.Some?
  {
    var key := PublicKey(c.device);
    var b := S.Encode(S.Share(c.setup.group, S.B, w, scalar));
    match S.Finish(c.setup.group, S.B, h.viewerId, DeviceId(c), w, scalar, b, h.share.value,
                   Binding(h, key, c.hostName, nonce, None))
    case Refused => None
    case Finished(keys) => Some(Session(h, key, c.hostName, nonce, None, h.share.value, b, keys))
  }

  /** The session of a host that answers with an ephemeral key. */
  function ExchangeSession(c: HostConfig, h: Hello, nonce: Data32, secret: nat): Option<Session>
    requires h.dh.Some?
  {
    var key := PublicKey(c.device);
    var dh := DhKey(secret);
    match DeriveExchange(c.setup, secret, h.dh.value, Binding(h, key, c.hostName, nonce, Some(dh)))
    case None => None
    case Some(keys) => Some(Session(h, key, c.hostName, nonce, Some(dh), h.dh.value, dh, keys))
  }

  function ChallengeOf(s: Session): Challenge {
    Challenge(s.hostKey, s.hostName, s.hostNonce, if s.hostDh.Some? || |s.b| != 65 then None else Some(s.b), s.hostDh,
              if |s.keys.macB| == 32 then s.keys.macB else Digits(0, 32),
              Sign(s.hostKey, HOST_SIG, SignedBody(s, s.keys.macB)))
  }

  datatype HostState = HostState(limiter: L.State, windows: map<T.Key, T.Row>, seen: seq<R.Entry>, pendings: seq<Pending>)

  datatype Policies = Policies(limiter: L.Policy, throttle: T.Policy, windowMs: nat, maxEntries: nat)

  /** With an access code, the answer waits for a slow hash of it, under an attempt that has begun. */
  datatype HelloOutcome =
    | Challenged(reply: Challenge, pending: nat)
    | Deriving(attempt: nat, secret: CodeSecret)
    | Failed(code: ErrorCode, retryAfterMs: Option<int>)

  /** The refusals that come before any limit is touched. */
  function Malformed(c: HostConfig, h: Hello): Option<ErrorCode> {
    if h.v != PROTOCOL_VERSION then Some(UnsupportedVersion)
    else if h.hostId != DeviceId(c) then Some(UnknownDevice)
    else if c.setup.idOf(h.viewerKey) != h.viewerId then Some(Protocol)
    else if h.auth.Grant? != h.grantId.Some? then Some(Protocol)
    else None
  }

  /** What is left of `onHello` for the kinds without an access code, once the throttle let them in. */
  function KeyedSession(c: HostConfig, h: Hello, e: Env): (Option<Session>, ErrorCode)
    requires c.setup.group.order > 0 && !h.auth.Code?
  {
    match h.auth
    case Account =>
      if h.dh.None? then (None, Protocol) else if !e.account then (None, NotAuthorised)
      else (ExchangeSession(c, h, e.nonce, e.dhSecret), Protocol)
    case Paired =>
      if h.dh.None? then (None, Protocol) else if !e.paired then (None, NotPaired)
      else (ExchangeSession(c, h, e.nonce, e.dhSecret), Protocol)
    case Grant =>
      if h.share.None? then (None, Protocol) else if e.grant.None? then (None, GrantInvalid)
      else (SpakeSession(c, h, e.nonce, e.grant.value, e.scalar), Protocol)
  }

  function Pend(s: HostState, session: Session, attempt: Option<nat>): (HostState, HelloOutcome) {
    (s.(pendings := s.pendings + [Pending(session, attempt, false)]), Challenged(ChallengeOf(session), |s.pendings|))
  }

  /** The access-code kind: an attempt begins, with the code as it is now. */
  function OnCode(s: HostState, h: Hello, e: Env, p: Policies, victim: Option<L.Peer>): (HostState, HelloOutcome) {
    if h.share.None? then (s, Failed(Protocol, None))
    else if e.code.Disabled? then (s, Failed(CodeDisabled, None))
    else
      var begun := L.Begin(s.limiter, e.who, e.t, p.limiter, victim);
      var s1 := s.(limiter := begun.0);
      match begun.1
      case Locked(ms) => (s1, Failed(RateLimited, Some(ms)))
      case Busy => (s1, Failed(ErrorCode.Busy, Some(1000)))
      case Allowed(i) => (s1, Deriving(i, e.code))
  }

  /** The rest of it, once the code is hashed: the attempt fails at once when no challenge can be sent. */
  function OnDerived(c: HostConfig, s: HostState, h: Hello, attempt: nat, secret: CodeSecret, e: Env, p: Policies)
    : (HostState, HelloOutcome)
    requires c.setup.group.order > 0
  {
    var session := if secret.Secret? && h.share.Some? then SpakeSession(c, h, e.nonce, secret.w, e.scalar) else None;
    if session.Some? then Pend(s, session.value, Some(attempt))
    else if attempt < |s.limiter.attempts|
    then (s.(limiter := L.Settle(s.limiter, attempt, false, e.t, e.u, p.limiter)), Failed(Protocol, None))
    else (s, Failed(Protocol, None))
  }

  function OnHello(c: HostConfig, s: HostState, h: Hello, e: Env, p: Policies, victim: Option<L.Peer>): (HostState, HelloOutcome)
    requires c.setup.group.order > 0
  {
    var malformed := Malformed(c, h);
    if malformed.Some? then (s, Failed(malformed.value, None))
    else
      var checked := R.Check(s.seen, h.nonce, h.time, e.t, p.windowMs, p.maxEntries);
      var s1 := s.(seen := checked.0);
      match checked.1
      case Replayed => (s1, Failed(ErrorCode.Replayed, None))
      case ClockSkew => (s1, Failed(ErrorCode.ClockSkew, None))
      case Ok =>
        if h.auth.Code? then OnCode(s1, h, e, p, victim)
        else
          var allowed := T.Allow(s1.windows, e.who, e.t, p.throttle);
          var s2 := s1.(windows := allowed.0);
          if allowed.1.Wait? then (s2, Failed(ErrorCode.Busy, Some(allowed.1.retryAfterMs)))
          else
            var r := KeyedSession(c, h, e);
            if r.0.None? then (s2, Failed(r.1, None)) else Pend(s2, r.0.value, None)
  }

  datatype Viewer = Viewer(viewerId: Data12, viewerKey: Data32, viewerName: Name, auth: AuthKind, grantId: Option<Data24>, root: Data)

  datatype ConfirmOutcome = Accepted(viewer: Viewer) | NotAccepted(code: ErrorCode)

  function ViewerOf(s: Session): Viewer {
    Viewer(s.hello.viewerId, s.hello.viewerKey, s.hello.viewerName, s.hello.auth, s.hello.grantId, Root(s))
  }

  function OnConfirm(s: Session, m: Confirm): ConfirmOutcome {
    if m.confirm != s.keys.macA then NotAccepted(BadAuth)
    else if !Verify(s.hello.viewerKey, VIEWER_SIG, SignedBody(s, m.confirm), m.signature) then NotAccepted(Protocol)
    else Accepted(ViewerOf(s))
  }

  /** The state once pending handshake `i` is over, its attempt settled as a success or a failure. */
  function Settle(s: HostState, i: nat, success: bool, t: int, u: int, p: Policies): HostState
    requires i < |s.pendings|
  {
    var attempt := s.pendings[i].attempt;
    var s1 := s.(pendings := s.pendings[i := s.pendings[i].(done := true)]);
    if attempt.Some? && attempt.value < |s.limiter.attempts|
    then s1.(limiter := L.Settle(s.limiter, attempt.value, success, t, u, p.limiter))
    else s1
  }

  // ---- the viewer -------------------------------------------------------------------------------------------

  datatype ShareSecret = Password(w: nat, scalar: nat) | Ephemeral(secret: nat)

  datatype ViewerConfig = ViewerConfig(setup: Setup, device: nat, hostId: Data12, expectedHostKey: Option<Data32>,
                                       hello: Hello, secret: ShareSecret)

  /** How the viewer will prove itself, with the scalar of its secret where it has one. */
  datatype Credential = ByCode(w: nat) | ByGrant(id: Data24, w: nat) | ByTrust | ByAccount

  predicate ValidCredential(c: Setup, cred: Credential, scalar: nat) {
    var g := c.group;
    match cred
    case ByTrust => true
    case ByAccount => true
    case _ => Scalar(g, scalar) && Scalar(g, cred.w) && S.Share(g, S.A, cred.w, scalar) != 0
  }

  function KindOf(cred: Credential): AuthKind {
    match cred case ByCode(_) => Code case ByGrant(_, _) => Grant case ByTrust => Paired case ByAccount => Account
  }

  /** The hello of a viewer, and what it keeps to itself. */
  function Create(c: Setup, device: nat, name: Name, hostId: Data12, expected: Option<Data32>, cred: Credential,
                  nonce: Data32, time: Time, scalar: nat): ViewerConfig
    requires c.group.order > 0
  {
    var key := PublicKey(device);
    var hello := Hello(PROTOCOL_VERSION, hostId, c.idOf(key), key, name, nonce, time, KindOf(cred), None, None, None);
    match cred
    case ByCode(w) =>
      ViewerConfig(c, device, hostId, expected, hello.(share := Some(S.Encode(S.Share(c.group, S.A, w, scalar)))), Password(w, scalar))
    case ByGrant(id, w) =>
      ViewerConfig(c, device, hostId, expected,
                   hello.(share := Some(S.Encode(S.Share(c.group, S.A, w, scalar))), grantId := Some(id)), Password(w, scalar))
    case _ =>
      ViewerConfig(c, device, hostId, expected, hello.(dh := Some(DhKey(scalar))), Ephemeral(scalar))
  }

  datatype Host = Host(hostId: Data12, hostKey: Data32, hostName: Name, root: Data)

  datatype ChallengeOutcome = Answered(confirm: Confirm, host: Host) | NotAnswered(code: ErrorCode)

  /** What the viewer makes of a challenge, unless it carries no acceptable share. */
  function ViewerSession(v: ViewerConfig, c: Challenge): Option<Session>
    requires v.setup.group.order > 0
  {
    match v.secret
    case Password(w, scalar) =>
      if c.share.None? || v.hello.share.None? then None
      else
        var bind := Binding(v.hello, c.hostKey, c.hostName, c.nonce, None);
        (match S.Finish(v.setup.group, S.A, v.hello.viewerId, v.hostId, w, scalar, v.hello.share.value, c.share.value, bind)
         case Refused => None
         case Finished(keys) =>
           Some(Session(v.hello, c.hostKey, c.hostName, c.nonce, None, v.hello.share.value, c.share.value, keys)))
    case Ephemeral(secret) =>
      if c.dh.None? then None
      else
        var bind := Binding(v.hello, c.hostKey, c.hostName, c.nonce, c.dh);
        (match DeriveExchange(v.setup, secret, c.dh.value, bind)
         case None => None
         case Some(keys) => Some(Session(v.hello, c.hostKey, c.hostName, c.nonce, c.dh, DhKey(secret), c.dh.value, keys)))
  }

  function ConfirmOf(s: Session): Confirm {
    Confirm(if |s.keys.macA| == 32 then s.keys.macA else Digits(0, 32),
            Sign(s.hello.viewerKey, VIEWER_SIG, SignedBody(s, s.keys.macA)))
  }

  function OnChallenge(v: ViewerConfig, c: Challenge): ChallengeOutcome
    requires v.setup.group.order > 0
  {
    if v.setup.idOf(c.hostKey) != v.hostId then NotAnswered(IdentityMismatch)
    else if v.expectedHostKey.Some? && v.expectedHostKey.value != c.hostKey then NotAnswered(IdentityMismatch)
    else
      match ViewerSession(v, c)
      case None => NotAnswered(Protocol)
      case Some(s) =>
        if c.confirm != s.keys.macB then NotAnswered(BadAuth)
        else if !Verify(c.hostKey, HOST_SIG, SignedBody(s, c.confirm), c.signature) then NotAnswered(IdentityMismatch)
        else Answered(ConfirmOf(s), Host(v.hostId, c.hostKey, c.hostName, Root(s)))
  }
}
