/** The host's side of one connection, from its first message to a session or its end. */
module Acceptance {
  import opened Wrappers
  import L = Limiter
  import opened Handshake
  import opened HandshakeEnds

  datatype Phase =
    | AwaitHello
    | Derives(h: Hello, attempt: nat, secret: CodeSecret)
    | AwaitConfirm(pending: nat)
    | Established(viewer: Viewer)
    | Over(code: ErrorCode)

  datatype Inbound = HelloArrives(h: Hello) | ConfirmArrives(m: Confirm) | OtherArrives

  datatype Reply = SendChallenge(c: Challenge) | SendError(code: ErrorCode, retryAfterMs: Option<int>) | Nothing

  function Abandoned(s: HostState, i: nat, t: int, u: int, p: Policies): HostState
    requires i < |s.pendings|
  {
    if s.pendings[i].done then s else Settle(s, i, false, t, u, p)
  }

  /** The phase a message leads to. An established or ended connection takes no more of them, and while
      the code is hashed they wait. */
  function OnInbound(c: HostConfig, s: HostState, phase: Phase, m: Inbound, e: Env, p: Policies, victim: Option<L.Peer>)
    : (HostState, Phase, Reply)
    requires c.setup.group.order > 0 && (phase.AwaitConfirm? ==> phase.pending < |s.pendings|)
  {
    match phase
    case AwaitHello =>
      if !m.HelloArrives? then (s, Over(Protocol), Nothing)
      else
        (match OnHello(c, s, m.h, e, p, victim)
         case (s1, Failed(code, ms)) => (s1, Over(code), SendError(code, ms))
         case (s1, Deriving(attempt, secret)) => (s1, Derives(m.h, attempt, secret), Nothing)
         case (s1, Challenged(reply, i)) => (s1, AwaitConfirm(i), SendChallenge(reply)))
    case AwaitConfirm(i) =>
      if !m.ConfirmArrives? then (Abandoned(s, i, e.t, e.u, p), Over(Protocol), Nothing)
      else if s.pendings[i].done then (s, Over(Protocol), Nothing)
      else
        var o := OnConfirm(s.pendings[i].session, m.m);
        (Settle(s, i, o.Accepted?, e.t, e.u, p),
         if o.Accepted? then Established(o.viewer) else Over(o.code),
         if o == NotAccepted(BadAuth) then SendError(BadAuth, None) else Nothing)
    case _ => (s, phase, Nothing)
  }

  /** The code is hashed. */
  function OnDerivation(c: HostConfig, s: HostState, phase: Phase, e: Env, p: Policies): (HostState, Phase, Reply)
    requires c.setup.group.order > 0
  {
    if !phase.Derives? then (s, phase, Nothing)
    else
      match OnDerived(c, s, phase.h, phase.attempt, phase.secret, e, p)
      case (s1, Challenged(reply, i)) => (s1, AwaitConfirm(i), SendChallenge(reply))
      case (s1, Failed(code, ms)) => (s1, Over(code), SendError(code, ms))
      case (s1, _) => (s1, phase, Nothing)
  }

  /** Nothing came in time, or the link closed, or its message was not one of the protocol's. */
  function OnFailure(s: HostState, phase: Phase, code: ErrorCode, t: int, u: int, p: Policies): (HostState, Phase)
    requires phase.AwaitConfirm? ==> phase.pending < |s.pendings|
  {
    match phase
    case AwaitHello => (s, Over(code))
    case AwaitConfirm(i) => (Abandoned(s, i, t, u, p), Over(code))
    case _ => (s, phase)
  }

  class Acceptor {
    const auth: HostAuthenticator
    var phase: Phase

    ghost predicate Valid()
      reads this, auth, auth.limiter
    {
      && auth.Valid() && (phase.AwaitConfirm? ==> phase.pending < |auth.pendings|)
      && (phase.Derives? ==> phase.attempt < |auth.limiter.attempts|)
    }

    constructor (auth: HostAuthenticator)
      requires auth.Valid()
      ensures Valid() && this.auth == auth && phase == AwaitHello
    {
      this.auth, phase := auth, AwaitHello;
    }

    method Message(m: Inbound, e: Env) returns (reply: Reply, ghost victim: Option<L.Peer>)
      requires Valid() && ValidEnv(auth.c.setup, e)
      modifies this, auth, auth.limiter, auth.throttle, auth.nonces
      ensures Valid()
      ensures (auth.View(), phase, reply) == OnInbound(auth.c, old(auth.View()), old(phase), m, e, auth.Limits(), victim)
    {
      hide OnHello, OnConfirm;
      reply, victim := Nothing, None;
      match phase {
        case AwaitHello =>
          if !m.HelloArrives? {
            phase := Over(Protocol);
            return;
          }
          var outcome;
          outcome, victim := auth.Hello(m.h, e);
          match outcome {
            case Failed(code, ms) => reply, phase := SendError(code, ms), Over(code);
            case Deriving(attempt, secret) => phase := Derives(m.h, attempt, secret);
            case Challenged(c, i) => reply, phase := SendChallenge(c), AwaitConfirm(i);
          }
        case AwaitConfirm(i) =>
          if !m.ConfirmArrives? {
            auth.Abandon(i, e.t, e.u);
            phase := Over(Protocol);
            return;
          }
          var outcome := auth.ConfirmPending(i, m.m, e.t, e.u);
          match outcome {
            case Accepted(viewer) => phase := Established(viewer);
            case NotAccepted(code) =>
              phase := Over(code);
              if code == BadAuth {
                reply := SendError(BadAuth, None);
              }
          }
        case _ =>
      }
    }

    method Derivation(e: Env) returns (reply: Reply)
      requires Valid() && phase.Derives? && ValidSecret(auth.c.setup, phase.secret, e)
      modifies this, auth, auth.limiter
      ensures Valid()
      ensures (auth.View(), phase, reply) == OnDerivation(auth.c, old(auth.View()), old(phase), e, auth.Limits())
    {
      var outcome := auth.Derived(phase.h, phase.attempt, phase.secret, e);
      match outcome {
        case Failed(code, ms) => reply, phase := SendError(code, ms), Over(code);
        case Challenged(c, i) => reply, phase := SendChallenge(c), AwaitConfirm(i);
      }
    }

    method Failure(code: ErrorCode, t: int, u: int)
      requires Valid()
      modifies this, auth, auth.limiter
      ensures Valid()
      ensures (auth.View(), phase) == OnFailure(old(auth.View()), old(phase), code, t, u, auth.Limits())
    {
      match phase {
        case AwaitHello => phase := Over(code);
        case AwaitConfirm(i) =>
          auth.Abandon(i, t, u);
          phase := Over(code);
        case _ =>
      }
    }
  }
}
