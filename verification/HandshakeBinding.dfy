/** Why the binding, the signed bodies and the confirmations of the handshake pin a session down. */
module HandshakeBinding {
  import opened Wrappers
  import opened Bytes
  import S = Spake2
  import opened Spake2Theorems
  import opened Handshake

  lemma {:induction false} DecimalShort(n: nat)
    ensures |Decimal(n)| <= n + 1
  {
    if n >= 10 { DecimalShort(n / 10); }
  }

  lemma LengthBound()
    ensures Pow256(8) > 0x20_0000_0000_0001
  {
    assert Pow256(2) == 0x1_0000;
    assert Pow256(3) == 256 * Pow256(2) && Pow256(4) == 256 * Pow256(3);
    assert Pow256(5) == 256 * Pow256(4) && Pow256(6) == 256 * Pow256(5);
    assert Pow256(7) == 256 * Pow256(6) && Pow256(8) == 256 * Pow256(7);
  }

  lemma FieldsMeasurable(h: Hello, hostKey: Data32, hostName: Name, hostNonce: Data32, hostDh: Option<Data32>)
    ensures Measurable(BindingFields(h, hostKey, hostName, hostNonce, hostDh))
  {
    LengthBound();
    DecimalShort(h.v);
    DecimalShort(h.time);
    hide Pow256, Decimal;
  }

  lemma AuthNameInjective(a: AuthKind, b: AuthKind)
    requires Utf8(AuthName(a)) == Utf8(AuthName(b))
    ensures a == b
  {
    Utf8Injective(AuthName(a), AuthName(b));
  }

  /** All that a session is bound to, which is everything but the shares. */
  predicate SameBound(s: Session, t: Session) {
    && s.hello.(share := t.hello.share) == t.hello
    && (s.hostKey, s.hostName, s.hostNonce, s.hostDh) == (t.hostKey, t.hostName, t.hostNonce, t.hostDh)
  }

  lemma BindInjective(s: Session, t: Session)
    requires Bind(s) == Bind(t)
    ensures SameBound(s, t)
  {
    hide EncodeFields, Measurable, Decimal, Utf8, Block, AuthName;
    var fs := BindingFields(s.hello, s.hostKey, s.hostName, s.hostNonce, s.hostDh);
    var gs := BindingFields(t.hello, t.hostKey, t.hostName, t.hostNonce, t.hostDh);
    BlockInjective(Hash(EncodeFields(fs)), Hash(EncodeFields(gs)), 0, 32);
    FieldsMeasurable(s.hello, s.hostKey, s.hostName, s.hostNonce, s.hostDh);
    FieldsMeasurable(t.hello, t.hostKey, t.hostName, t.hostNonce, t.hostDh);
    EncodeFieldsInjective(fs, gs);
    assert fs[1] == gs[1] && fs[10] == gs[10] && fs[11] == gs[11];
    DecimalInjective(s.hello.v, t.hello.v);
    DecimalInjective(s.hello.time, t.hello.time);
    AuthNameInjective(s.hello.auth, t.hello.auth);
    assert fs[2] == gs[2] && fs[3] == gs[3] && fs[4] == gs[4] && fs[5] == gs[5] && fs[6] == gs[6];
    assert fs[7] == gs[7] && fs[8] == gs[8] && fs[9] == gs[9];
    assert fs[12] == gs[12] && fs[13] == gs[13] && fs[14] == gs[14];
  }

  predicate ByPassword(a: AuthKind) { a.Code? || a.Grant? }

  /** A session as either end builds it: the shares are those of its kind, and the keys come from the
      key schedule of that kind over the session's own binding. */
  ghost predicate Formed(s: Session) {
    if ByPassword(s.hello.auth) then
      && |s.a| == |s.b| == 65 && s.hello.share == Some(s.a) && s.hostDh.None?
      && exists tt :: s.keys == S.KeySchedule(tt, Bind(s))
    else
      && |s.a| == |s.b| == 32 && s.hello.dh == Some(s.a) && s.hostDh == Some(s.b)
      && exists shared :: s.keys == ExchangeKeys(shared, Bind(s))
  }

  lemma FormedMacs(s: Session)
    requires Formed(s)
    ensures |s.keys.macA| == |s.keys.macB| == 32 && |s.a| == |s.b| <= 65
  {
  }

  /** Everything two ends can agree on: all the fields of the hello the kind uses, the host's answer,
      the shares and the keys. Only a share beside an exchange, which nothing reads, may differ. */
  predicate Agree(s: Session, t: Session) {
    && s.(hello := t.hello) == t && s.hello.(share := t.hello.share) == t.hello
    && (ByPassword(s.hello.auth) ==> s == t)
  }

  /** The signed body is a concatenation without length prefixes; its parts have fixed lengths. */
  lemma BodyInjective(s: Session, t: Session, m: Data, n: Data)
    requires |s.a| == |s.b| && |t.a| == |t.b| && |m| == |n| == 32
    requires SignedBody(s, m) == SignedBody(t, n)
    ensures Bind(s) == Bind(t) && s.a == t.a && s.b == t.b && m == n
  {
    var x, y, k := SignedBody(s, m), SignedBody(t, n), |s.a|;
    hide Bind;
    var p, q := Bind(s), Bind(t);
    assert |p| == |q| == 32 by { BindLength(s); BindLength(t); }
    assert |x| == |y| && |t.a| == k;
    assert p == x[..32] == y[..32] == q;
    assert s.a == x[32..32 + k] == y[32..32 + k] == t.a;
    assert s.b == x[32 + k..32 + 2 * k] == y[32 + k..32 + 2 * k] == t.b;
    assert m == x[32 + 2 * k..] == y[32 + 2 * k..] == n;
  }

  lemma BindLength(s: Session)
    ensures |Bind(s)| == 32
  {
  }

  /** The keys of an exchange are pinned down by either confirmation. */
  lemma ExchangeKeysInjective(x: Data, y: Data, bind: Data)
    requires ExchangeKeys(x, bind).macA == ExchangeKeys(y, bind).macA || ExchangeKeys(x, bind).macB == ExchangeKeys(y, bind).macB
    ensures ExchangeKeys(x, bind) == ExchangeKeys(y, bind)
  {
    var info := Utf8("hopdesk/account-exchange/v1");
    var k, l := Kdf(x, bind, info), Kdf(y, bind, info);
    if ExchangeKeys(x, bind).macA == ExchangeKeys(y, bind).macA {
      BlockInjective(Mac(Block(k, 32, 64), Utf8("viewer")), Mac(Block(l, 32, 64), Utf8("viewer")), 0, 32);
    } else {
      BlockInjective(Mac(Block(k, 32, 64), Utf8("host")), Mac(Block(l, 32, 64), Utf8("host")), 0, 32);
    }
    BlockInjective(k, l, 32, 64);
  }

  lemma KeysAgree(s: Session, t: Session)
    requires Formed(s) && Formed(t) && Bind(s) == Bind(t) && s.hello.auth == t.hello.auth
    requires s.keys.macA == t.keys.macA || s.keys.macB == t.keys.macB
    ensures s.keys == t.keys
  {
    hide Bind, S.KeySchedule, ExchangeKeys;
    if ByPassword(s.hello.auth) {
      var x :| s.keys == S.KeySchedule(x, Bind(s));
      var y :| t.keys == S.KeySchedule(y, Bind(t));
      ScheduleInjective(x, Bind(s), y, Bind(t));
    } else {
      var x :| s.keys == ExchangeKeys(x, Bind(s));
      var y :| t.keys == ExchangeKeys(y, Bind(t));
      ExchangeKeysInjective(x, y, Bind(s));
    }
  }

  /** Two sessions for which the same body was signed agree on everything, and have one root. */
  lemma SameBodyAgrees(s: Session, t: Session, viewer: bool)
    requires Formed(s) && Formed(t)
    requires if viewer then SignedBody(s, s.keys.macA) == SignedBody(t, t.keys.macA)
             else SignedBody(s, s.keys.macB) == SignedBody(t, t.keys.macB)
    ensures Agree(s, t) && Root(s) == Root(t)
  {
    FormedMacs(s);
    FormedMacs(t);
    if viewer {
      BodyInjective(s, t, s.keys.macA, t.keys.macA);
    } else {
      BodyInjective(s, t, s.keys.macB, t.keys.macB);
    }
    BindInjective(s, t);
    KeysAgree(s, t);
  }

  /** And the root determines the session: two ends with one root agree on everything. */
  lemma RootDeterminesSession(s: Session, t: Session)
    requires Formed(s) && Formed(t) && Root(s) == Root(t)
    ensures Agree(s, t)
  {
    FormedMacs(s);
    FormedMacs(t);
    BindLength(s);
    BindLength(t);
    hide Formed, Bind, Utf8;
    var fs := [Bind(s), s.a, s.b, s.keys.macA, s.keys.macB];
    var gs := [Bind(t), t.a, t.b, t.keys.macA, t.keys.macB];
    var info := Utf8("hopdesk/session-root/v1");
    BlockInjective(Kdf(s.keys.ke, Sha256(EncodeFields(fs)), info), Kdf(t.keys.ke, Sha256(EncodeFields(gs)), info), 0, 32);
    BlockInjective(Hash(EncodeFields(fs)), Hash(EncodeFields(gs)), 0, 32);
    FiveMeasurable(fs);
    FiveMeasurable(gs);
    EncodeFieldsInjective(fs, gs);
    hide EncodeFields, Block, Measurable;
    assert fs[0] == gs[0] && fs[1] == gs[1] && fs[2] == gs[2] && fs[3] == gs[3];
    BindInjective(s, t);
    KeysAgree(s, t);
    SameShare(s, t);
  }

  lemma FiveMeasurable(fs: seq<Data>)
    requires forall i :: 0 <= i < |fs| ==> |fs[i]| <= 65
    ensures Measurable(fs)
  {
    LengthBound();
    hide Pow256;
  }

  lemma SameShare(s: Session, t: Session)
    requires Formed(s) && Formed(t) && SameBound(s, t) && s.a == t.a && s.b == t.b && s.keys == t.keys
    ensures Agree(s, t)
  {
  }

  lemma SpakeSessionFormed(c: HostConfig, h: Hello, nonce: Data32, w: nat, scalar: nat)
    requires c.setup.group.order > 0 && ByPassword(h.auth) && h.share.Some? && SpakeSession(c, h, nonce, w, scalar).Some?
    ensures Formed(SpakeSession(c, h, nonce, w, scalar).value)
  {
    hide S.KeySchedule, S.Transcript, Binding;
    var s := SpakeSession(c, h, nonce, w, scalar).value;
    assert Bind(s) == Binding(h, PublicKey(c.device), c.hostName, nonce, None);
  }

  lemma ExchangeSessionFormed(c: HostConfig, h: Hello, nonce: Data32, secret: nat)
    requires !ByPassword(h.auth) && h.dh.Some? && ExchangeSession(c, h, nonce, secret).Some?
    ensures Formed(ExchangeSession(c, h, nonce, secret).value)
  {
    hide ExchangeKeys, Binding;
    var s := ExchangeSession(c, h, nonce, secret).value;
    assert s.keys == ExchangeKeys(SharedSecret(secret, h.dh.value), Bind(s));
  }

  lemma ViewerSessionFormed(v: ViewerConfig, c: Challenge)
    requires v.setup.group.order > 0 && ViewerSession(v, c).Some?
    requires v.secret.Password? <==> ByPassword(v.hello.auth)
    requires v.secret.Ephemeral? ==> v.hello.dh == Some(DhKey(v.secret.secret))
    ensures Formed(ViewerSession(v, c).value)
  {
    hide S.KeySchedule, ExchangeKeys, S.Transcript, Binding;
    var s := ViewerSession(v, c).value;
    if v.secret.Ephemeral? {
      assert s.keys == ExchangeKeys(SharedSecret(v.secret.secret, c.dh.value), Bind(s));
    } else {
      assert Bind(s) == Binding(v.hello, c.hostKey, c.hostName, c.nonce, None);
    }
  }

  predicate NoZero(d: string) { forall i :: 0 <= i < |d| ==> d[i] as nat != 0 }

  /** The first zero byte of what is signed ends the name of the domain. */
  lemma FirstZero(d: string, m: Data)
    requires NoZero(d)
    ensures var x := Signed(d, m);
            |x| == |d| + 1 + |m| && x[|d|] == Lit(0) && forall i :: 0 <= i < |d| ==> x[i] != Lit(0)
  {
  }

  /** A signature for one domain is no signature for another, if neither name contains a zero byte. */
  lemma DomainsSeparate(d: string, e: string, m: Data, n: Data)
    requires NoZero(d) && NoZero(e) && Signed(d, m) == Signed(e, n)
    ensures d == e && m == n
  {
    var x, y, k := Signed(d, m), Signed(e, n), |d|;
    FirstZero(d, m);
    FirstZero(e, n);
    assert |d| == |e|;
    assert Utf8(d) == x[..k] == y[..k] == Utf8(e);
    Utf8Injective(d, e);
    assert m == x[k + 1..] == y[k + 1..] == n;
  }
}
