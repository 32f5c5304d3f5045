/** What is signed is unambiguous, and a block is felt everywhere within the grace window. */
module AuthorizationTheorems {
  import opened Wrappers
  import opened Bytes
  import opened Authorization

  predicate NoNul(d: Data) { forall i :: 0 <= i < |d| ==> d[i] != Lit(0) }

  // ---- the encoding ----------------------------------------------------------------------------------

  /** The first NUL ends a field without one, and the last begins one. */
  lemma NulPlaces(a: Data, x: Data)
    requires NoNul(a)
    ensures var p := a + [Lit(0)] + x;
            |p| == |a| + 1 + |x| && p[|a|] == Lit(0) && forall i :: 0 <= i < |a| ==> p[i] != Lit(0)
    ensures var q := x + [Lit(0)] + a;
            |q| == |a| + 1 + |x| && q[|x|] == Lit(0) && forall i :: |x| < i < |q| ==> q[i] != Lit(0)
  {
  }

  lemma FirstField(a: Data, b: Data, x: Data, y: Data)
    requires NoNul(a) && NoNul(b) && a + [Lit(0)] + x == b + [Lit(0)] + y
    ensures a == b && x == y
  {
    var p, q := a + [Lit(0)] + x, b + [Lit(0)] + y;
    NulPlaces(a, x);
    NulPlaces(b, y);
    assert |a| == |b|;
    assert a == p[..|a|] == q[..|b|] == b;
    assert x == p[|a| + 1..] == q[|b| + 1..] == y;
  }

  lemma LastField(a: Data, b: Data, x: Data, y: Data)
    requires NoNul(a) && NoNul(b) && x + [Lit(0)] + a == y + [Lit(0)] + b
    ensures a == b && x == y
  {
    var p, q := x + [Lit(0)] + a, y + [Lit(0)] + b;
    NulPlaces(a, x);
    NulPlaces(b, y);
    assert |x| == |y|;
    assert x == p[..|x|] == q[..|y|] == y;
    assert a == p[|x| + 1..] == q[|y| + 1..] == b;
  }

  lemma StatusNames(a: Standing, b: Standing)
    ensures NoNul(StatusName(a))
    ensures StatusName(a) == StatusName(b) ==> a == b
  {
    assert |StatusName(Active)| == 6 && |StatusName(Blocked)| == 7;
  }

  lemma FiveFields(a: Data, b: Data, c: Data, d: Data, e: Data)
    ensures JoinNul([a, b, c, d, e]) == a + [Lit(0)] + (b + [Lit(0)] + (c + [Lit(0)] + (d + [Lit(0)] + e)))
  {
    var z := [a, b, c, d, e];
    assert z[1..] == [b, c, d, e] && z[1..][1..] == [c, d, e] && z[1..][1..][1..] == [d, e] && z[1..][1..][1..][1..] == [e];
    assert JoinNul([e]) == e;
    assert JoinNul([d, e]) == d + [Lit(0)] + e;
    assert JoinNul([c, d, e]) == c + [Lit(0)] + JoinNul([d, e]);
    assert JoinNul([b, c, d, e]) == b + [Lit(0)] + JoinNul([c, d, e]);
  }

  /** Two verdicts with the same bytes are the same, except that no reason and an empty one are alike.
      Only the id needs to be free of NULs: the reason may contain anything. */
  lemma VerdictBytesUnambiguous(v: Verdict, w: Verdict)
    requires NoNul(v.installationId) && NoNul(w.installationId) && VerdictBytes(v) == VerdictBytes(w)
    ensures v.(reason := w.reason) == w && OrEmpty(v.reason) == OrEmpty(w.reason)
  {
    StatusNames(v.status, w.status);
    StatusNames(w.status, v.status);
    hide StatusName, JoinNul, Decimal;
    var a, b, c, d, e := v.installationId, StatusName(v.status), OrEmpty(v.reason), Decimal(v.checkedAt), Decimal(v.validUntil);
    var a', b', c', d', e' := w.installationId, StatusName(w.status), OrEmpty(w.reason), Decimal(w.checkedAt), Decimal(w.validUntil);
    FiveFields(a, b, c, d, e);
    FiveFields(a', b', c', d', e');
    var z := [Lit(0)];
    FirstField(a, a', b + z + (c + z + (d + z + e)), b' + z + (c' + z + (d' + z + e')));
    FirstField(b, b', c + z + (d + z + e), c' + z + (d' + z + e'));
    assert c + z + (d + z + e) == (c + z + d) + z + e && c' + z + (d' + z + e') == (c' + z + d') + z + e';
    LastField(e, e', c + z + d, c' + z + d');
    LastField(d, d', c, c');
    DecimalInjective(v.checkedAt, w.checkedAt);
    DecimalInjective(v.validUntil, w.validUntil);
  }

  lemma SignedUnambiguous(v: Verdict, w: Verdict)
    requires NoNul(v.installationId) && NoNul(w.installationId) && Statement(v) == Statement(w)
    ensures v.(reason := w.reason) == w
  {
    hide VerdictBytes, Utf8;
    var head := Utf8(VERDICT_LABEL) + [Lit(0)];
    assert VerdictBytes(v) == Statement(v)[|head|..] == Statement(w)[|head|..] == VerdictBytes(w);
    VerdictBytesUnambiguous(v, w);
  }

  // ---- the service and one installation, on a shared clock ------------------------------------------------

  /** Since when the installation has been blocked without a break, all that the service has signed,
      and the installation's copy. A block on top of a block does not start anew. */
  datatype World = World(now: nat, blockedAt: Option<nat>, issued: seq<Verdict>, cached: Option<Verdict>, file: Option<Reply>)

  datatype Event =
    | Passes(ms: nat)
    | Blocks(at: nat)
    | Unblocks
    | Answers(reason: Option<Data>)                    // the service signs a verdict about this installation
    | AnswersOthers(v: Verdict)                        // or about another one
    | Receives(r: Reply)                               // a reply, new or replayed; a lost one is no event
    | Edits(file: Option<Reply>)                       // the cache file is changed
    | Restarts

  /** What the service says at this moment, as it does after registering and after verifying. */
  function ServiceVerdict(w: World, c: Config, graceMs: nat, reason: Option<Data>): Verdict {
    Verdict(c.installationId, if w.blockedAt.Some? then Blocked else Active, reason, w.now, w.now + graceMs)
  }

  /** Signatures under the service's key are those of verdicts it signed. */
  ghost predicate Presentable(w: World, c: Config, r: Reply) {
    c.servicePublicKey.Some? && r.signature.Some? ==>
      forall v :: r.signature.value == Signed(c.servicePublicKey.value, v) ==>
        exists i :: 0 <= i < |w.issued| && Statement(w.issued[i]) == Statement(v)
  }

  ghost predicate Can(w: World, e: Event, c: Config) {
    match e
    case Blocks(at) => at == w.now
    case AnswersOthers(v) => NoNul(v.installationId) && v.installationId != c.installationId
    case Receives(r) => Presentable(w, c, r)
    case Edits(file) => file.Some? ==> Presentable(w, c, file.value)
    case _ => true
  }

  function Next(w: World, e: Event, c: Config, graceMs: nat): World {
    match e
    case Passes(ms) => w.(now := w.now + ms)
    case Blocks(at) => if w.blockedAt.Some? then w else w.(blockedAt := Some(at))
    case Unblocks => w.(blockedAt := None)
    case Answers(reason) => w.(issued := w.issued + [ServiceVerdict(w, c, graceMs, reason)])
    case AnswersOthers(v) => w.(issued := w.issued + [v])
    case Receives(r) => if Believed(c, r).Some? then w.(cached := Believed(c, r), file := Some(r)) else w
    case Edits(file) => w.(file := file)
    case Restarts => w.(cached := if w.file.Some? then Believed(c, w.file.value) else None)
  }

  ghost predicate Run(w: World, es: seq<Event>, v: World, c: Config, graceMs: nat)
    decreases |es|
  {
    if es == [] then v == w else Can(w, es[0], c) && Run(Next(w, es[0], c, graceMs), es[1..], v, c, graceMs)
  }

  /** A verdict about this installation was signed at its time with the service's grace; an active one
      not after the time `B` from which the installation has been blocked. */
  predicate Told(v: Verdict, w: World, c: Config, graceMs: nat) {
    v.installationId == c.installationId ==>
      && v.validUntil == v.checkedAt + graceMs && v.checkedAt <= w.now
      && (v.status.Active? && w.blockedAt.Some? ==> v.checkedAt <= w.blockedAt.value)
  }

  ghost predicate Inv(w: World, c: Config, graceMs: nat) {
    && (w.blockedAt.Some? ==> w.blockedAt.value <= w.now)
    && (forall i :: 0 <= i < |w.issued| ==> NoNul(w.issued[i].installationId) && Told(w.issued[i], w, c, graceMs))
    && (w.cached.Some? ==> w.cached.value.installationId == c.installationId && Told(w.cached.value, w, c, graceMs))
    && (w.file.Some? ==> Presentable(w, c, w.file.value))
  }

  /** A believed reply says what some signed verdict says. */
  lemma BelievedIsTold(w: World, c: Config, graceMs: nat, r: Reply)
    requires Inv(w, c, graceMs) && Presentable(w, c, r) && NoNul(c.installationId) && Believed(c, r).Some?
    ensures Told(Believed(c, r).value, w, c, graceMs) && Believed(c, r).value.installationId == c.installationId
  {
    hide Signed, Statement, VerdictFrom, NoNul;
    var v := Believed(c, r).value;
    assert r.signature.value == Signed(c.servicePublicKey.value, v);
    var i :| 0 <= i < |w.issued| && Statement(w.issued[i]) == Statement(v);
    SignedUnambiguous(w.issued[i], v);
  }

  lemma NextKeeps(w: World, e: Event, c: Config, graceMs: nat)
    requires Inv(w, c, graceMs) && Can(w, e, c) && NoNul(c.installationId)
    ensures Inv(Next(w, e, c, graceMs), c, graceMs)
  {
    hide Statement, Signed, NoNul, Believed;
    match e
    case Receives(r) => if Believed(c, r).Some? { BelievedIsTold(w, c, graceMs, r); }
    case Restarts => if w.file.Some? && Believed(c, w.file.value).Some? { BelievedIsTold(w, c, graceMs, w.file.value); }
    case Answers(reason) => IssuingKeeps(w, c, graceMs, ServiceVerdict(w, c, graceMs, reason));
    case AnswersOthers(v) => IssuingKeeps(w, c, graceMs, v);
    case _ =>
  }

  lemma IssuingKeeps(w: World, c: Config, graceMs: nat, v: Verdict)
    requires Inv(w, c, graceMs) && NoNul(v.installationId) && Told(v, w, c, graceMs)
    ensures Inv(w.(issued := w.issued + [v]), c, graceMs)
  {
    hide Statement, Signed, NoNul;
    var more := w.(issued := w.issued + [v]);
    if w.file.Some? && c.servicePublicKey.Some? && w.file.value.signature.Some? {
      forall u | w.file.value.signature.value == Signed(c.servicePublicKey.value, u)
        ensures exists i :: 0 <= i < |more.issued| && Statement(more.issued[i]) == Statement(u)
      {
        var i :| 0 <= i < |w.issued| && Statement(w.issued[i]) == Statement(u);
        assert more.issued[i] == w.issued[i];
      }
    }
  }

  lemma {:induction false} RunKeeps(w: World, es: seq<Event>, v: World, c: Config, graceMs: nat)
    requires Inv(w, c, graceMs) && Run(w, es, v, c, graceMs) && NoNul(c.installationId)
    ensures Inv(v, c, graceMs)
    decreases |es|
  {
    hide Inv, Can, Next;
    if es != [] {
      NextKeeps(w, es[0], c, graceMs);
      RunKeeps(Next(w, es[0], c, graceMs), es[1..], v, c, graceMs);
    }
  }

  /** From `min(grace, 30 days)` after a block that still holds, a configured installation never reports
      that it may host: whatever it checks, whichever replies are lost or repeated, whatever is done to
      its cache, and however often it restarts. */
  lemma BlocksReachEveryInstallation(now: nat, es: seq<Event>, w: World, c: Config, graceMs: nat)
    requires Configured(c) && NoNul(c.installationId)
    requires Run(World(now, None, [], None, None), es, w, c, graceMs)
    requires w.blockedAt.Some? && w.now >= w.blockedAt.value + Min(graceMs, MAX_GRACE_MS)
    ensures !MayHost(c, w.cached, w.now)
  {
    RunKeeps(World(now, None, [], None, None), es, w, c, graceMs);
    hide Run, NoNul, Presentable;
  }

  /** The window cannot be closed sooner: until then, a verdict from the moment of the block stands. */
  lemma TheGraceIsUsed(c: Config, b: nat, graceMs: nat, now: nat)
    requires Configured(c) && b <= now < b + Min(graceMs, MAX_GRACE_MS)
    ensures MayHost(c, Some(ServiceVerdict(World(b, None, [], None, None), c, graceMs, None)), now)
  {
  }

  /** Whatever the service writes into it, a verdict lets an installation host for less than 31 days, none
      of them after 30 days from its date or more than a day before it. */
  lemma AVerdictStandsBriefly(c: Config, v: Verdict, early: int, late: int)
    requires Configured(c) && early <= late && MayHost(c, Some(v), early) && MayHost(c, Some(v), late)
    ensures v.status.Active? && late < v.validUntil
    ensures v.checkedAt - 86400000 <= early && late < v.checkedAt + 30 * 86400000
    ensures late - early < 31 * 86400000
  {
  }
}
