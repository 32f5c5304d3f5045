/** Agreement: what acceptance means when many devices run the handshake at once over a network that
    delivers, changes, repeats and invents messages at will. The one thing it cannot do is present a
    signature of an honest device that the device did not issue. */
module HandshakeWorld {
  import opened Wrappers
  import opened Bytes
  import S = Spake2
  import opened Handshake
  import opened HandshakeBinding

  /** One `ViewerHandshake`; its session is there once it has accepted a host and sent its confirm. */
  datatype ViewerRun = ViewerRun(v: ViewerConfig, finished: bool, session: Option<Session>)

  /** One challenge of an honest host. */
  datatype HostRun = HostRun(c: HostConfig, session: Session, done: bool, accepted: bool)

  /** `elsewhere` are the signatures devices issue for anything but the handshake; `drawn` counts the
      random nonces that have been drawn, none of which comes twice. */
  datatype World = World(viewers: seq<ViewerRun>, hosts: seq<HostRun>, elsewhere: set<(nat, string, Data)>, drawn: nat)

  const START: World := World([], [], {}, 0)

  datatype Event =
    | Starts(device: nat, name: Name, hostId: Data12, expected: Option<Data32>, cred: Credential, time: Time, scalar: nat)
    | Challenges(c: HostConfig, h: Hello, secret: ShareSecret)
    | Answers(i: nat, challenge: Challenge)
    | Confirms(j: nat, confirm: Confirm)
    | Abandons(j: nat)
    | SignsElsewhere(device: nat, domain: string, body: Data)

  function Draw(n: nat): Data32 { Block(Random(n), 0, 32) }

  function ViewerBody(s: Session): Data { SignedBody(s, s.keys.macA) }
  function HostBody(s: Session): Data { SignedBody(s, s.keys.macB) }

  ghost predicate Issued(w: World, device: nat, m: Data) {
    || (exists i :: 0 <= i < |w.viewers| && w.viewers[i].session.Some? && w.viewers[i].v.device == device
                    && m == Signed(VIEWER_SIG, ViewerBody(w.viewers[i].session.value)))
    || (exists j :: 0 <= j < |w.hosts| && w.hosts[j].c.device == device && m == Signed(HOST_SIG, HostBody(w.hosts[j].session)))
    || (exists domain, body :: (device, domain, body) in w.elsewhere && m == Signed(domain, body))
  }

  /** Unforgeability: only issued signatures of honest devices can be presented. */
  ghost predicate Presentable(w: World, signature: Data64, honest: set<nat>) {
    forall d, m :: d in honest && signature == Block(Signature(PublicKey(d), m), 0, 64) ==> Issued(w, d, m)
  }

  function HostSession(c: HostConfig, h: Hello, nonce: Data32, secret: ShareSecret): Option<Session>
    requires c.setup.group.order > 0
  {
    match secret
    case Password(x, scalar) => if ByPassword(h.auth) && h.share.Some? then SpakeSession(c, h, nonce, x, scalar) else None
    case Ephemeral(s) => if !ByPassword(h.auth) && h.dh.Some? then ExchangeSession(c, h, nonce, s) else None
  }

  ghost predicate Can(w: World, e: Event, c: Setup, honest: set<nat>) {
    match e
    case Starts(device, _, _, _, cred, _, scalar) => c.group.order > 0 && device in honest && ValidCredential(c, cred, scalar)
    case Challenges(hc, h, _) => c.group.order > 0 && hc.setup == c && hc.device in honest
    case Answers(i, challenge) => i < |w.viewers| && Presentable(w, challenge.signature, honest)
    case Confirms(j, confirm) => j < |w.hosts| && Presentable(w, confirm.signature, honest)
    case Abandons(j) => j < |w.hosts|
    case SignsElsewhere(device, domain, _) => device in honest && NoZero(domain) && domain != HOST_SIG && domain != VIEWER_SIG
  }

  function Start(w: World, v: ViewerConfig): World {
    w.(viewers := w.viewers + [ViewerRun(v, false, None)], drawn := w.drawn + 1)
  }

  function Challenged(w: World, c: HostConfig, s: Option<Session>): World {
    w.(drawn := w.drawn + 1, hosts := if s.Some? then w.hosts + [HostRun(c, s.value, false, false)] else w.hosts)
  }

  function Answer(w: World, i: nat, c: Challenge): World
    requires i < |w.viewers|
  {
    var r := w.viewers[i];
    if r.finished || r.v.setup.group.order == 0 then w
    else
      w.(viewers := w.viewers[i := ViewerRun(r.v, true, if OnChallenge(r.v, c).Answered? then ViewerSession(r.v, c) else None)])
  }

  function ConfirmRun(w: World, j: nat, m: Confirm): World
    requires j < |w.hosts|
  {
    var r := w.hosts[j];
    if r.done then w else w.(hosts := w.hosts[j := r.(done := true, accepted := OnConfirm(r.session, m).Accepted?)])
  }

  function AbandonRun(w: World, j: nat): World
    requires j < |w.hosts|
  {
    var r := w.hosts[j];
    if r.done then w else w.(hosts := w.hosts[j := r.(done := true)])
  }

  ghost function Next(w: World, e: Event, c: Setup, honest: set<nat>): World
    requires Can(w, e, c, honest)
  {
    match e
    case Starts(device, name, hostId, expected, cred, time, scalar) =>
      Start(w, Create(c, device, name, hostId, expected, cred, Draw(w.drawn), time, scalar))
    case Challenges(hc, h, secret) => Challenged(w, hc, HostSession(hc, h, Draw(w.drawn), secret))
    case Answers(i, challenge) => Answer(w, i, challenge)
    case Confirms(j, confirm) => ConfirmRun(w, j, confirm)
    case Abandons(j) => AbandonRun(w, j)
    case SignsElsewhere(device, domain, body) => w.(elsewhere := w.elsewhere + {(device, domain, body)})
  }

  ghost predicate Run(w: World, es: seq<Event>, v: World, c: Setup, honest: set<nat>)
    decreases |es|
  {
    if es == [] then v == w else Can(w, es[0], c, honest) && Run(Next(w, es[0], c, honest), es[1..], v, c, honest)
  }

  // ---- the invariant ----------------------------------------------------------------------------------

  /** A viewer's run is of an honest device, and a host it accepted has signed the session it is in. */
  ghost predicate ViewerOk(w: World, r: ViewerRun, honest: set<nat>) {
    && r.v.device in honest && r.v.hello.viewerKey == PublicKey(r.v.device)
    && (r.v.secret.Password? <==> ByPassword(r.v.hello.auth))
    && (r.v.secret.Ephemeral? ==> r.v.hello.dh == Some(DhKey(r.v.secret.secret)))
    && (r.session.Some? ==>
          var s := r.session.value;
          && r.finished && Formed(s) && s.hello == r.v.hello
          && forall d :: d in honest && s.hostKey == PublicKey(d) ==> Issued(w, d, Signed(HOST_SIG, HostBody(s))))
  }

  ghost predicate HostOk(w: World, r: HostRun, honest: set<nat>) {
    && r.c.device in honest && r.session.hostKey == PublicKey(r.c.device) && Formed(r.session)
    && (r.accepted ==>
          forall d :: d in honest && r.session.hello.viewerKey == PublicKey(d) ==>
            Issued(w, d, Signed(VIEWER_SIG, ViewerBody(r.session))))
  }

  ghost predicate DrawnBefore(nonce: Data32, drawn: nat) { exists n: nat :: IsDraw(n, drawn, nonce) }

  predicate IsDraw(n: nat, drawn: nat, nonce: Data32) { n < drawn && nonce == Draw(n) }

  ghost predicate Fresh(nonces: seq<Data32>, drawn: nat) {
    && (forall i :: 0 <= i < |nonces| ==> DrawnBefore(nonces[i], drawn))
    && (forall i, j :: 0 <= i < j < |nonces| ==> nonces[i] != nonces[j])
  }

  function ViewerNonces(w: World): seq<Data32> {
    seq(|w.viewers|, i requires 0 <= i < |w.viewers| => w.viewers[i].v.hello.nonce)
  }

  function HostNonces(w: World): seq<Data32> {
    seq(|w.hosts|, j requires 0 <= j < |w.hosts| => w.hosts[j].session.hostNonce)
  }

  predicate Elsewhere(w: World) {
    forall x :: x in w.elsewhere ==> NoZero(x.1) && x.1 != HOST_SIG && x.1 != VIEWER_SIG
  }

  ghost predicate Inv(w: World, honest: set<nat>) {
    && (forall i :: 0 <= i < |w.viewers| ==> ViewerOk(w, w.viewers[i], honest))
    && (forall j :: 0 <= j < |w.hosts| ==> HostOk(w, w.hosts[j], honest))
    && Fresh(ViewerNonces(w), w.drawn) && Fresh(HostNonces(w), w.drawn) && Elsewhere(w)
  }

  /** Runs are added, and finish; what was signed stays signed. */
  ghost predicate Grows(w: World, v: World) {
    && |w.viewers| <= |v.viewers| && |w.hosts| <= |v.hosts| && w.elsewhere <= v.elsewhere
    && (forall i :: 0 <= i < |w.viewers| ==>
          v.viewers[i].v == w.viewers[i].v && (w.viewers[i].session.Some? ==> v.viewers[i].session == w.viewers[i].session))
    && (forall j :: 0 <= j < |w.hosts| ==> v.hosts[j].c == w.hosts[j].c && v.hosts[j].session == w.hosts[j].session)
  }

  lemma IssuedStays(w: World, v: World, device: nat, m: Data)
    requires Grows(w, v) && Issued(w, device, m)
    ensures Issued(v, device, m)
  {
    if i :| 0 <= i < |w.viewers| && w.viewers[i].session.Some? && w.viewers[i].v.device == device
            && m == Signed(VIEWER_SIG, ViewerBody(w.viewers[i].session.value)) {
      assert v.viewers[i].session.Some? && m == Signed(VIEWER_SIG, ViewerBody(v.viewers[i].session.value));
    } else if j :| 0 <= j < |w.hosts| && w.hosts[j].c.device == device && m == Signed(HOST_SIG, HostBody(w.hosts[j].session)) {
      assert v.hosts[j].c.device == device && m == Signed(HOST_SIG, HostBody(v.hosts[j].session));
    }
  }

  lemma OksStay(w: World, v: World, honest: set<nat>)
    requires Inv(w, honest) && Grows(w, v)
    ensures forall i :: 0 <= i < |w.viewers| ==> ViewerOk(v, w.viewers[i], honest)
    ensures forall j :: 0 <= j < |w.hosts| ==> HostOk(v, w.hosts[j], honest)
  {
    forall d, m | Issued(w, d, m) ensures Issued(v, d, m) { IssuedStays(w, v, d, m); }
    hide Issued, Formed;
    forall i | 0 <= i < |w.viewers| ensures ViewerOk(v, w.viewers[i], honest) { assert ViewerOk(w, w.viewers[i], honest); }
    forall j | 0 <= j < |w.hosts| ensures HostOk(v, w.hosts[j], honest) { assert HostOk(w, w.hosts[j], honest); }
  }

  lemma FreshLater(nonces: seq<Data32>, drawn: nat)
    requires Fresh(nonces, drawn)
    ensures Fresh(nonces, drawn + 1) && Fresh(nonces + [Draw(drawn)], drawn + 1)
  {
    var more := nonces + [Draw(drawn)];
    forall i | 0 <= i < |nonces| ensures more[i] != Draw(drawn) && DrawnBefore(nonces[i], drawn + 1) {
      assert DrawnBefore(nonces[i], drawn);
      DrawnLater(nonces[i], drawn);
    }
    assert IsDraw(drawn, drawn + 1, Draw(drawn));
    assert DrawnBefore(Draw(drawn), drawn + 1);
    hide DrawnBefore, IsDraw, Draw;
    forall i | 0 <= i < |more| ensures DrawnBefore(more[i], drawn + 1) {
      if i < |nonces| { assert more[i] == nonces[i]; }
    }
  }

  /** What was drawn before is not drawn again. */
  lemma DrawnLater(nonce: Data32, drawn: nat)
    requires DrawnBefore(nonce, drawn)
    ensures nonce != Draw(drawn) && DrawnBefore(nonce, drawn + 1)
  {
    var n: nat :| IsDraw(n, drawn, nonce);
    assert IsDraw(n, drawn + 1, nonce);
    if nonce == Draw(drawn) { BlockInjective(Random(n), Random(drawn), 0, 32); }
  }

  lemma StartKeeps(w: World, e: Event, c: Setup, honest: set<nat>)
    requires Inv(w, honest) && Can(w, e, c, honest) && e.Starts?
    ensures Inv(Next(w, e, c, honest), honest)
  {
    var v := Next(w, e, c, honest);
    OksStay(w, v, honest);
    FreshLater(ViewerNonces(w), w.drawn);
    FreshLater(HostNonces(w), w.drawn);
    assert ViewerOk(v, v.viewers[|w.viewers|], honest);
    hide ViewerOk, HostOk, Fresh, Draw, Create;
    assert v.viewers[|w.viewers|].v.hello.nonce == Draw(w.drawn) by { CreateNonce(c, e, Draw(w.drawn)); }
    assert ViewerNonces(v) == ViewerNonces(w) + [Draw(w.drawn)];
    assert HostNonces(v) == HostNonces(w);
  }

  lemma CreateNonce(c: Setup, e: Event, nonce: Data32)
    requires e.Starts? && c.group.order > 0
    ensures Create(c, e.device, e.name, e.hostId, e.expected, e.cred, nonce, e.time, e.scalar).hello.nonce == nonce
  {
  }

  lemma HostSessionFormed(c: HostConfig, h: Hello, nonce: Data32, secret: ShareSecret)
    requires c.setup.group.order > 0 && HostSession(c, h, nonce, secret).Some?
    ensures var s := HostSession(c, h, nonce, secret).value;
            Formed(s) && s.hostKey == PublicKey(c.device) && s.hostNonce == nonce && s.hello == h
  {
    match secret
    case Password(x, scalar) => SpakeSessionFormed(c, h, nonce, x, scalar);
    case Ephemeral(s) => ExchangeSessionFormed(c, h, nonce, s);
  }

  lemma ChallengeKeeps(w: World, e: Event, c: Setup, honest: set<nat>)
    requires Inv(w, honest) && Can(w, e, c, honest) && e.Challenges?
    ensures Inv(Next(w, e, c, honest), honest)
  {
    hide Fresh, Draw, ViewerOk, Formed;
    var v := Next(w, e, c, honest);
    var s := HostSession(e.c, e.h, Draw(w.drawn), e.secret);
    OksStay(w, v, honest);
    FreshLater(ViewerNonces(w), w.drawn);
    FreshLater(HostNonces(w), w.drawn);
    assert ViewerNonces(v) == ViewerNonces(w);
    if s.Some? {
      HostSessionFormed(e.c, e.h, Draw(w.drawn), e.secret);
      hide HostSession;
      assert HostOk(v, v.hosts[|w.hosts|], honest);
      hide HostOk;
      assert HostNonces(v) == HostNonces(w) + [Draw(w.drawn)];
    } else {
      assert HostNonces(v) == HostNonces(w);
    }
  }

  /** An honest host key whose signature verified has issued it. */
  lemma VerifiedIsIssued(w: World, d: nat, domain: string, m: Data, signature: Data64, honest: set<nat>)
    requires d in honest && Presentable(w, signature, honest) && Verify(PublicKey(d), domain, m, signature)
    ensures Issued(w, d, Signed(domain, m))
  {
  }

  lemma AnswerKeeps(w: World, i: nat, ch: Challenge, c: Setup, honest: set<nat>)
    requires Inv(w, honest) && Can(w, Answers(i, ch), c, honest)
    ensures Inv(Answer(w, i, ch), honest)
  {
    hide Fresh, HostOk;
    var v, r := Answer(w, i, ch), w.viewers[i];
    assert ViewerOk(w, r, honest);
    OksStay(w, v, honest);
    assert ViewerNonces(v) == ViewerNonces(w) && HostNonces(v) == HostNonces(w);
    if !r.finished && r.v.setup.group.order > 0 && OnChallenge(r.v, ch).Answered? {
      var s := ViewerSession(r.v, ch).value;
      ViewerSessionFormed(r.v, ch);
      hide Formed, Issued, Presentable, ViewerBody, Fresh;
      assert s.hello == r.v.hello && s.hostKey == ch.hostKey && ch.confirm == s.keys.macB;
      forall d | d in honest && s.hostKey == PublicKey(d) ensures Issued(v, d, Signed(HOST_SIG, HostBody(s))) {
        VerifiedIsIssued(w, d, HOST_SIG, HostBody(s), ch.signature, honest);
        IssuedStays(w, v, d, Signed(HOST_SIG, HostBody(s)));
      }
    }
  }

  lemma ConfirmKeeps(w: World, j: nat, m: Confirm, c: Setup, honest: set<nat>)
    requires Inv(w, honest) && Can(w, Confirms(j, m), c, honest)
    ensures Inv(ConfirmRun(w, j, m), honest)
  {
    hide Fresh, ViewerOk;
    var v := ConfirmRun(w, j, m);
    OksStay(w, v, honest);
    assert ViewerNonces(v) == ViewerNonces(w) && HostNonces(v) == HostNonces(w);
    var r := w.hosts[j];
    assert HostOk(w, r, honest);
    if !r.done && OnConfirm(r.session, m).Accepted? {
      hide Formed, Issued, Presentable, HostBody, Fresh;
      forall d | d in honest && r.session.hello.viewerKey == PublicKey(d)
        ensures Issued(v, d, Signed(VIEWER_SIG, ViewerBody(r.session)))
      {
        VerifiedIsIssued(w, d, VIEWER_SIG, ViewerBody(r.session), m.signature, honest);
        IssuedStays(w, v, d, Signed(VIEWER_SIG, ViewerBody(r.session)));
      }
    }
  }

  lemma NextKeeps(w: World, e: Event, c: Setup, honest: set<nat>)
    requires Inv(w, honest) && Can(w, e, c, honest)
    ensures Inv(Next(w, e, c, honest), honest)
  {
    hide Inv, OnChallenge, OnConfirm, HostSession, Presentable, Create;
    match e
    case Starts(_, _, _, _, _, _, _) => StartKeeps(w, e, c, honest);
    case Challenges(_, _, _) => ChallengeKeeps(w, e, c, honest);
    case Answers(i, challenge) => AnswerKeeps(w, i, challenge, c, honest);
    case Confirms(j, confirm) => ConfirmKeeps(w, j, confirm, c, honest);
    case Abandons(j) => AbandonKeeps(w, j, honest);
    case SignsElsewhere(device, domain, body) => ElsewhereKeeps(w, device, domain, body, honest);
  }

  lemma AbandonKeeps(w: World, j: nat, honest: set<nat>)
    requires Inv(w, honest) && j < |w.hosts|
    ensures Inv(AbandonRun(w, j), honest)
  {
    hide Fresh, ViewerOk, Formed;
    OksStay(w, AbandonRun(w, j), honest);
    assert HostOk(w, w.hosts[j], honest);
    assert ViewerNonces(AbandonRun(w, j)) == ViewerNonces(w) && HostNonces(AbandonRun(w, j)) == HostNonces(w);
  }

  lemma ElsewhereKeeps(w: World, device: nat, domain: string, body: Data, honest: set<nat>)
    requires Inv(w, honest) && NoZero(domain) && domain != HOST_SIG && domain != VIEWER_SIG
    ensures Inv(w.(elsewhere := w.elsewhere + {(device, domain, body)}), honest)
  {
    hide Fresh, ViewerOk, HostOk, HOST_SIG, VIEWER_SIG, NoZero;
    var v := w.(elsewhere := w.elsewhere + {(device, domain, body)});
    OksStay(w, v, honest);
    assert ViewerNonces(v) == ViewerNonces(w) && HostNonces(v) == HostNonces(w);
  }

  lemma {:induction false} RunKeeps(w: World, es: seq<Event>, v: World, c: Setup, honest: set<nat>)
    requires Inv(w, honest) && Run(w, es, v, c, honest)
    ensures Inv(v, honest)
    decreases |es|
  {
    hide Inv, Can, Next;
    if es != [] {
      NextKeeps(w, es[0], c, honest);
      RunKeeps(Next(w, es[0], c, honest), es[1..], v, c, honest);
    }
  }
}
