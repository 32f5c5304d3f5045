/** Guessing protection for the access code: per-peer lockouts, global caps, a rotating code. */
module Limiter {
  import opened Wrappers

  type Peer = nat

  datatype Policy = Policy(
    maxPending: nat, maxPendingPerPeer: nat, freeFailures: nat, baseLockoutMs: nat, maxLockoutMs: nat,
    rotateAfter: nat, peerTtlMs: nat, maxPeers: nat)

  const DEFAULT_LIMITER_POLICY: Policy := Policy(3, 2, 3, 2000, 300000, 10, 3600000, 1024)

  datatype Record = Record(pending: int, consecutive: nat, lockedUntil: int, seen: int)

  /** One `begin` that was let in: whose it is, and whether it has been settled. */
  datatype Attempt = Attempt(peer: Peer, settled: bool)

  datatype State = State(peers: map<Peer, Record>, pending: int, sinceRotation: nat, attempts: seq<Attempt>)

  const FRESH: State := State(map[], 0, 0, [])

  datatype Decision = Allowed(attempt: nat) | Locked(retryAfterMs: int) | Busy

  // ---- specification -------------------------------------------------------------------------

  function Pow2(n: nat): (r: nat)
    ensures r >= 1
  {
    if n == 0 then 1 else 2 * Pow2(n - 1)
  }

  function Min(a: int, b: int): int { if a < b then a else b }
  function Max(a: int, b: int): int { if a < b then b else a }

  /** Quiet, out of its lockout and not mid-handshake. */
  predicate Stale(r: Record, t: int, p: Policy) {
    r.pending <= 0 && t >= r.lockedUntil && t - r.seen > p.peerTtlMs
  }

  function Prune(peers: map<Peer, Record>, t: int, p: Policy): map<Peer, Record> {
    map k | k in peers && !Stale(peers[k], t, p) :: peers[k]
  }

  /** The peer to drop when the table is full: of those with nothing in flight, one not seen for
      longest; none when all are in flight. */
  predicate IsVictim(peers: map<Peer, Record>, victim: Option<Peer>) {
    match victim
    case None => forall k :: k in peers ==> peers[k].pending > 0
    case Some(v) =>
      && v in peers && peers[v].pending <= 0
      && forall k :: k in peers && peers[k].pending <= 0 ==> peers[v].seen <= peers[k].seen
  }

  /** Whether `victim` is what making room for `peer` may drop. */
  predicate MayDrop(peers: map<Peer, Record>, peer: Peer, p: Policy, victim: Option<Peer>) {
    peer !in peers && |peers| >= p.maxPeers ==> IsVictim(peers, victim)
  }

  function Recorded(peers: map<Peer, Record>, peer: Peer, t: int, p: Policy, victim: Option<Peer>): map<Peer, Record> {
    if peer in peers then peers[peer := peers[peer].(seen := t)]
    else
      var rest := if |peers| >= p.maxPeers && victim.Some? then peers - {victim.value} else peers;
      rest[peer := Record(0, 0, 0, t)]
  }

  function Begin(s: State, peer: Peer, t: int, p: Policy, victim: Option<Peer>): (State, Decision) {
    var peers := Recorded(Prune(s.peers, t, p), peer, t, p, victim);
    var r := peers[peer];
    var s1 := s.(peers := peers);
    if t < r.lockedUntil then (s1, Locked(r.lockedUntil - t))
    else if s.pending >= p.maxPending || r.pending >= p.maxPendingPerPeer then (s1, Busy)
    else
      (State(peers[peer := r.(pending := r.pending + 1)], s.pending + 1, s.sinceRotation,
             s.attempts + [Attempt(peer, false)]),
       Allowed(|s.attempts|))
  }

  function Delay(consecutive: nat, p: Policy): int
    requires consecutive >= p.freeFailures
  {
    Min(p.maxLockoutMs, p.baseLockoutMs * Pow2(if consecutive - p.freeFailures < 20 then consecutive - p.freeFailures else 20))
  }

  /** The record of a peer after one of its attempts is settled, at `t` (and the clock read again at `u`). */
  function Settled(r: Record, success: bool, t: int, u: int, p: Policy): Record {
    var r1 := r.(pending := r.pending - 1, seen := t);
    if success then r1.(consecutive := 0)
    else
      var r2 := r1.(consecutive := r1.consecutive + 1);
      if r2.consecutive >= p.freeFailures
      then r2.(lockedUntil := Max(r2.lockedUntil, u + Delay(r2.consecutive, p))) else r2
  }

  predicate Rotates(s: State, success: bool, p: Policy) { !success && s.sinceRotation + 1 >= p.rotateAfter }

  /** `succeed()` and `fail()` of attempt `i`: only the first call has an effect. */
  function Settle(s: State, i: nat, success: bool, t: int, u: int, p: Policy): State
    requires i < |s.attempts|
  {
    var peer := s.attempts[i].peer;
    if s.attempts[i].settled then s
    else
      State(if peer in s.peers then s.peers[peer := Settled(s.peers[peer], success, t, u, p)] else s.peers, s.pending - 1,
            if success then s.sinceRotation else if Rotates(s, success, p) then 0 else s.sinceRotation + 1,
            s.attempts[i := Attempt(peer, true)])
  }

  // ---- the class -----------------------------------------------------------------------------

  class AttemptLimiter {
    const policy: Policy
    var peers: map<Peer, Record>
    var pending: int
    var sinceRotation: nat
    var attempts: seq<Attempt>
    var rotations: nat    // how often `onRotate` has been called

    ghost function View(): State
      reads this
    {
      State(peers, pending, sinceRotation, attempts)
    }

    constructor (policy: Policy)
      ensures this.policy == policy && View() == FRESH && rotations == 0
    {
      this.policy := policy;
      peers, pending, sinceRotation, attempts, rotations := map[], 0, 0, [], 0;
    }

    method BeginAttempt(peer: Peer, t: int) returns (d: Decision, ghost victim: Option<Peer>)
      modifies this
      ensures MayDrop(Prune(old(peers), t, policy), peer, policy, victim)
      ensures (View(), d) == Begin(old(View()), peer, t, policy, victim)
      ensures rotations == old(rotations)
    {
      PruneStale(t);
      victim := FindRecord(peer, t);
      var r := peers[peer];
      if t < r.lockedUntil {
        d := Locked(r.lockedUntil - t);
      } else if pending >= policy.maxPending || r.pending >= policy.maxPendingPerPeer {
        d := Busy;
      } else {
        pending := pending + 1;
        peers := peers[peer := r.(pending := r.pending + 1)];
        d := Allowed(|attempts|);
        attempts := attempts + [Attempt(peer, false)];
      }
    }

    method SettleAttempt(i: nat, success: bool, t: int, u: int)
      requires i < |attempts|
      modifies this
      ensures View() == Settle(old(View()), i, success, t, u, policy)
      ensures rotations == old(rotations) +
                if !old(attempts[i].settled) && Rotates(old(View()), success, policy) then 1 else 0
    {
      var peer := attempts[i].peer;
      if attempts[i].settled {
        return;
      }
      attempts := attempts[i := Attempt(peer, true)];
      pending := pending - 1;
      var r := if peer in peers then peers[peer] else Record(0, 0, 0, t);
      r := r.(pending := r.pending - 1, seen := t);
      if success {
        if peer in peers {
          peers := peers[peer := r.(consecutive := 0)];
        }
        return;
      }
      r := r.(consecutive := r.consecutive + 1);
      sinceRotation := sinceRotation + 1;
      if sinceRotation >= policy.rotateAfter {
        sinceRotation := 0;
        rotations := rotations + 1;
      }
      if r.consecutive >= policy.freeFailures {
        r := r.(lockedUntil := Max(r.lockedUntil, u + Delay(r.consecutive, policy)));
      }
      if peer in peers {
        peers := peers[peer := r];
      }
    }

    method ResetForNewCode()
      modifies this
      ensures View() == old(View()).(sinceRotation := 0) && rotations == old(rotations)
    {
      sinceRotation := 0;
    }

    method PruneStale(t: int)
      modifies this`peers
      ensures peers == Prune(old(peers), t, policy)
    {
      var todo := peers.Keys;
      ghost var before := peers;
      while todo != {}
        invariant todo <= before.Keys
        invariant forall k :: k in peers <==> k in before && (k in todo || !Stale(before[k], t, policy))
        invariant forall k :: k in peers ==> peers[k] == before[k]
        decreases |todo|
      {
        var k :| k in todo;
        todo := todo - {k};
        if peers[k].pending > 0 || t < peers[k].lockedUntil {
          continue;
        }
        if t - peers[k].seen > policy.peerTtlMs {
          peers := peers - {k};
        }
      }
    }

    method FindRecord(peer: Peer, t: int) returns (ghost victim: Option<Peer>)
      modifies this`peers
      ensures MayDrop(old(peers), peer, policy, victim)
      ensures peers == Recorded(old(peers), peer, t, policy, victim)
    {
      victim := None;
      if peer in peers {
        peers := peers[peer := peers[peer].(seen := t)];
        return;
      }
      if |peers| >= policy.maxPeers {
        var oldest := Oldest();
        if oldest.Some? {
          peers := peers - {oldest.value};
        }
        victim := oldest;
      }
      peers := peers[peer := Record(0, 0, 0, t)];
    }

    method Oldest() returns (oldest: Option<Peer>)
      ensures IsVictim(peers, oldest)
    {
      oldest := None;
      var todo := peers.Keys;
      while todo != {}
        invariant todo <= peers.Keys
        invariant oldest.Some? ==> oldest.value in peers && peers[oldest.value].pending <= 0
        invariant forall k :: k in peers && k !in todo && peers[k].pending <= 0 ==>
                    oldest.Some? && peers[oldest.value].seen <= peers[k].seen
        decreases |todo|
      {
        var k :| k in todo;
        todo := todo - {k};
        if peers[k].pending > 0 {
          continue;
        }
        if oldest.None? || peers[k].seen < peers[oldest.value].seen {
          oldest := Some(k);
        }
      }
    }
  }
}
