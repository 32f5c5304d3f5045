/** Two ways of slowing callers down: fixed windows per peer, and the store's sliding lockout. */
module Throttles {
  import opened Wrappers

  type Key = nat

  /** A counter and the moment it lapses. */
  datatype Row = Row(count: nat, until: int)

  datatype Answer = Go | Wait(retryAfterMs: int)

  datatype Policy = Policy(perWindow: nat, windowMs: nat, maxPeers: nat)

  const DEFAULT_THROTTLE_POLICY: Policy := Policy(15, 10000, 1024)

  // ---- fixed windows --------------------------------------------------------------------------

  function Live(windows: map<Key, Row>, t: int): map<Key, Row> {
    map k | k in windows && windows[k].until > t :: windows[k]
  }

  function Allow(windows: map<Key, Row>, peer: Key, t: int, p: Policy): (map<Key, Row>, Answer) {
    var live := Live(windows, t);
    if |live| >= p.maxPeers && peer !in live then (live, Wait(p.windowMs))
    else
      var w := if peer in live then live[peer] else Row(0, t + p.windowMs);
      var counted := if w.until <= t then Row(1, t + p.windowMs) else Row(w.count + 1, w.until);
      (live[peer := counted], if counted.count > p.perWindow then Wait(counted.until - t) else Go)
  }

  class PeerThrottle {
    const policy: Policy
    var windows: map<Key, Row>

    constructor (policy: Policy)
      ensures this.policy == policy && windows == map[]
    {
      this.policy, windows := policy, map[];
    }

    method AllowAttempt(peer: Key, t: int) returns (a: Answer)
      modifies this
      ensures (windows, a) == Allow(old(windows), peer, t, policy)
    {
      DropLapsed(t);
      if |windows| >= policy.maxPeers && peer !in windows {
        return Wait(policy.windowMs);
      }
      var w := if peer in windows then windows[peer] else Row(0, t + policy.windowMs);
      if w.until <= t {
        w := Row(0, t + policy.windowMs);
      }
      w := Row(w.count + 1, w.until);
      windows := windows[peer := w];
      a := if w.count > policy.perWindow then Wait(w.until - t) else Go;
    }

    method DropLapsed(t: int)
      modifies this
      ensures windows == Live(old(windows), t)
    {
      var todo := windows.Keys;
      ghost var before := windows;
      while todo != {}
        invariant todo <= before.Keys
        invariant forall k :: k in windows <==> k in before && (k in todo || before[k].until > t)
        invariant forall k :: k in windows ==> windows[k] == before[k]
        decreases |todo|
      {
        var k :| k in todo;
        todo := todo - {k};
        if windows[k].until <= t {
          windows := windows - {k};
        }
      }
    }
  }

  // ---- the store's lockout ----------------------------------------------------------------------

  function Throttle(rows: map<Key, Row>, key: Key, t: int, limit: nat, windowMs: nat): (map<Key, Row>, Answer) {
    var live := key in rows && rows[key].until > t;
    if live && rows[key].count >= limit then (rows, Wait(rows[key].until - t))
    else (rows[key := Row(if live then rows[key].count + 1 else 1, t + windowMs)], Go)
  }

  class ThrottleTable {
    var rows: map<Key, Row>

    constructor ()
      ensures rows == map[]
    {
      rows := map[];
    }

    method Attempt(key: Key, t: int, limit: nat, windowMs: nat) returns (a: Answer)
      modifies this
      ensures (rows, a) == Throttle(old(rows), key, t, limit, windowMs)
    {
      var row := if key in rows then Some(rows[key]) else None;
      if row.Some? && row.value.until > t && row.value.count >= limit {
        return Wait(row.value.until - t);
      }
      var count := if row.Some? && row.value.until > t then row.value.count + 1 else 1;
      rows := rows[key := Row(count, t + windowMs)];
      a := Go;
    }

    method Clear(key: Key)
      modifies this
      ensures rows == old(rows) - {key}
    {
      rows := rows - {key};
    }
  }
}
