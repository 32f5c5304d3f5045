/** The cache that refuses a handshake nonce it has already seen. */
module Replay {
  import Bytes

  type Nonce = Bytes.Data

  datatype Entry = Entry(nonce: Nonce, at: int)

  datatype Verdict = Ok | Replayed | ClockSkew

  // ---- specification: the map as the sequence of its entries in insertion order --------------------

  function Abs(n: int): int { if n < 0 then -n else n }
  function Cap(maxEntries: nat): nat { if maxEntries == 0 then 1 else maxEntries }

  predicate Holds(seen: seq<Entry>, nonce: Nonce) {
    exists i :: 0 <= i < |seen| && seen[i].nonce == nonce
  }

  /** The loop over the entries stops at the first one that is young enough. */
  function Pruned(seen: seq<Entry>, t: int, windowMs: nat): seq<Entry> {
    if seen == [] || t - seen[0].at <= 2 * windowMs then seen else Pruned(seen[1..], t, windowMs)
  }

  function Check(seen: seq<Entry>, nonce: Nonce, time: int, t: int, windowMs: nat, maxEntries: nat): (seq<Entry>, Verdict) {
    var pruned := Pruned(seen, t, windowMs);
    if Abs(t - time) > windowMs then (seen, ClockSkew)
    else if Holds(pruned, nonce) then (pruned, Replayed)
    else
      ((if |pruned| >= maxEntries && pruned != [] then pruned[1..] else pruned) + [Entry(nonce, t)], Ok)
  }

  class NonceCache {
    const windowMs: nat
    const maxEntries: nat
    var seen: seq<Entry>

    constructor (windowMs: nat, maxEntries: nat)
      ensures this.windowMs == windowMs && this.maxEntries == maxEntries && seen == []
    {
      this.windowMs, this.maxEntries, seen := windowMs, maxEntries, [];
    }

    method CheckNonce(nonce: Nonce, time: int, t: int) returns (v: Verdict)
      modifies this
      ensures (seen, v) == Check(old(seen), nonce, time, t, windowMs, maxEntries)
    {
      if Abs(t - time) > windowMs {
        return ClockSkew;
      }
      Prune(t);
      if exists i :: 0 <= i < |seen| && seen[i].nonce == nonce {
        return Replayed;
      }
      if |seen| >= maxEntries && seen != [] {
        seen := seen[1..];
      }
      seen := seen + [Entry(nonce, t)];
      v := Ok;
    }

    method Prune(t: int)
      modifies this
      ensures seen == Pruned(old(seen), t, windowMs)
    {
      while seen != []
        invariant Pruned(seen, t, windowMs) == Pruned(old(seen), t, windowMs)
        decreases |seen|
      {
        if t - seen[0].at <= 2 * windowMs {
          break;
        }
        seen := seen[1..];
      }
    }
  }

  // ---- every run with a monotone clock ---------------------------------------------------------------

  datatype Request = Request(nonce: Nonce, time: int, t: int)

  /** What was accepted, oldest first: the nonce, the time it claimed, and the clock then. */
  datatype Accepted = Accepted(nonce: Nonce, time: int, at: int)

  datatype History = History(seen: seq<Entry>, clock: int, log: seq<Accepted>)

  function Next(h: History, q: Request, windowMs: nat, maxEntries: nat): History {
    var r := Check(h.seen, q.nonce, q.time, q.t, windowMs, maxEntries);
    History(r.0, q.t, if r.1.Ok? then h.log + [Accepted(q.nonce, q.time, q.t)] else h.log)
  }

  ghost predicate Run(h: History, qs: seq<Request>, v: History, windowMs: nat, maxEntries: nat)
    decreases |qs|
  {
    if qs == [] then v == h
    else qs[0].t >= h.clock && Run(Next(h, qs[0], windowMs, maxEntries), qs[1..], v, windowMs, maxEntries)
  }

  /** The cache holds the newest acceptances, and the others are `maxEntries` back or too old. */
  predicate Inv(h: History, windowMs: nat, maxEntries: nat, dropped: nat) {
    && dropped + |h.seen| == |h.log|
    && |h.seen| <= Cap(maxEntries)
    && (forall i :: 0 <= i < |h.seen| ==> h.seen[i] == Entry(h.log[dropped + i].nonce, h.log[dropped + i].at))
    && (forall i :: 0 <= i < |h.log| ==> h.log[i].at <= h.clock && Abs(h.log[i].at - h.log[i].time) <= windowMs)
    && (forall i, j :: 0 <= i < j < |h.log| ==> h.log[i].at <= h.log[j].at)
    && (forall i, j :: dropped <= i < j < |h.log| ==> h.log[i].nonce != h.log[j].nonce)
    && forall i :: 0 <= i < dropped ==> |h.log| - 1 - i >= Cap(maxEntries) || h.clock - h.log[i].at > 2 * windowMs
  }

  predicate Ordered(seen: seq<Entry>) {
    forall i, j :: 0 <= i < j < |seen| ==> seen[i].at <= seen[j].at
  }

  /** Entries are inserted in time order, so stopping early loses nothing: exactly the entries that
      are too old go. */
  lemma {:induction false} EarlyBreakIsComplete(seen: seq<Entry>, t: int, windowMs: nat) returns (k: nat)
    requires Ordered(seen)
    ensures k <= |seen| && Pruned(seen, t, windowMs) == seen[k..]
    ensures forall i :: 0 <= i < |seen| ==> (i < k <==> t - seen[i].at > 2 * windowMs)
  {
    if seen == [] || t - seen[0].at <= 2 * windowMs {
      k := 0;
    } else {
      var n := EarlyBreakIsComplete(seen[1..], t, windowMs);
      forall i | 0 <= i < |seen| ensures i < n + 1 <==> t - seen[i].at > 2 * windowMs {
        if i > 0 { assert seen[1..][i - 1] == seen[i]; }
      }
      k := n + 1;
    }
  }

  /** Dropping the entries that are too old. */
  lemma PrunedKeeps(h: History, t: int, windowMs: nat, maxEntries: nat, dropped: nat, k: nat)
    requires Inv(h, windowMs, maxEntries, dropped) && t >= h.clock && k <= |h.seen|
    requires forall i :: 0 <= i < k ==> t - h.seen[i].at > 2 * windowMs
    ensures Inv(History(h.seen[k..], t, h.log), windowMs, maxEntries, dropped + k)
  {
    forall i | 0 <= i < dropped + k
      ensures |h.log| - 1 - i >= Cap(maxEntries) || t - h.log[i].at > 2 * windowMs
    {
      if i >= dropped { assert h.seen[i - dropped].at == h.log[i].at; }
    }
  }

  /** Taking a new nonce in, at the cost of the oldest entry when the cache is full. */
  lemma AcceptedKeeps(h: History, q: Request, windowMs: nat, maxEntries: nat, dropped: nat, e: nat)
    requires Inv(h, windowMs, maxEntries, dropped) && q.t == h.clock && Abs(q.t - q.time) <= windowMs
    requires !Holds(h.seen, q.nonce)
    requires e == if |h.seen| >= maxEntries && h.seen != [] then 1 else 0
    ensures Inv(History(h.seen[e..] + [Entry(q.nonce, q.t)], q.t, h.log + [Accepted(q.nonce, q.time, q.t)]),
                windowMs, maxEntries, dropped + e)
  {
    var log := h.log + [Accepted(q.nonce, q.time, q.t)];
    forall i, j | dropped + e <= i < j < |log| ensures log[i].nonce != log[j].nonce {
      if j == |h.log| { assert h.seen[i - dropped].nonce == h.log[i].nonce; }
    }
  }

  lemma InvOrdered(h: History, windowMs: nat, maxEntries: nat, dropped: nat)
    requires Inv(h, windowMs, maxEntries, dropped)
    ensures Ordered(h.seen)
  {
  }

  /** A request whose clock check fails leaves the cache alone. */
  lemma SkewedKeeps(h: History, t: int, windowMs: nat, maxEntries: nat, dropped: nat)
    requires Inv(h, windowMs, maxEntries, dropped) && t >= h.clock
    ensures Inv(h.(clock := t), windowMs, maxEntries, dropped)
  {
  }

  lemma NextKeeps(h: History, q: Request, windowMs: nat, maxEntries: nat, dropped: nat) returns (d: nat)
    requires Inv(h, windowMs, maxEntries, dropped) && q.t >= h.clock
    ensures Inv(Next(h, q, windowMs, maxEntries), windowMs, maxEntries, d)
  {
    hide Inv;
    InvOrdered(h, windowMs, maxEntries, dropped);
    if Abs(q.t - q.time) > windowMs {
      SkewedKeeps(h, q.t, windowMs, maxEntries, dropped);
      d := dropped;
    } else {
      var k := EarlyBreakIsComplete(h.seen, q.t, windowMs);
      d := dropped + k;
      PrunedKeeps(h, q.t, windowMs, maxEntries, dropped, k);
      if !Holds(h.seen[k..], q.nonce) {
        var e := if |h.seen[k..]| >= maxEntries && h.seen[k..] != [] then 1 else 0;
        AcceptedKeeps(History(h.seen[k..], q.t, h.log), q, windowMs, maxEntries, d, e);
        assert e == 0 ==> h.seen[k..][e..] == h.seen[k..];
        d := d + e;
      }
    }
  }

  lemma {:induction false} RunKeeps(h: History, qs: seq<Request>, v: History, windowMs: nat, maxEntries: nat, dropped: nat)
    returns (d: nat)
    requires Inv(h, windowMs, maxEntries, dropped) && Run(h, qs, v, windowMs, maxEntries)
    ensures Inv(v, windowMs, maxEntries, d)
    decreases |qs|
  {
    d := dropped;
    if qs != [] {
      d := NextKeeps(h, qs[0], windowMs, maxEntries, d);
      d := RunKeeps(Next(h, qs[0], windowMs, maxEntries), qs[1..], v, windowMs, maxEntries, d);
    }
  }

  /** In every run from an empty cache: for a request that was accepted to be accepted again, at least
      `maxEntries` others must have been accepted since, whatever else became of its nonce. */
  lemma AcceptedAgainNeedsEvictions(start: int, qs: seq<Request>, h: History, windowMs: nat, maxEntries: nat, i: nat, t: int)
    requires Run(History([], start, []), qs, h, windowMs, maxEntries) && t >= h.clock && i < |h.log|
    ensures Check(h.seen, h.log[i].nonce, h.log[i].time, t, windowMs, maxEntries).1.Ok? ==> |h.log| - 1 - i >= Cap(maxEntries)
  {
    var d := RunKeeps(History([], start, []), qs, h, windowMs, maxEntries, 0);
    if Abs(t - h.log[i].time) <= windowMs && |h.log| - 1 - i < Cap(maxEntries) {
      var k := EarlyBreakIsComplete(h.seen, t, windowMs);
      assert h.log[i].at <= h.clock && t - h.log[i].at <= 2 * windowMs;
      assert i >= d && h.seen[i - d].at == h.log[i].at;
      assert h.seen[k..][i - d - k].nonce == h.log[i].nonce;
    }
  }

  /** In every run from an empty cache, a nonce accepted with some time and presented again with that
      time, while its clock check still passes, is accepted if and only if at least `maxEntries`
      others were accepted since; no clock movement alone ever lets it in again. */
  lemma ReplayNeedsEvictions(start: int, qs: seq<Request>, h: History, windowMs: nat, maxEntries: nat, i: nat, t: int)
    requires Run(History([], start, []), qs, h, windowMs, maxEntries) && t >= h.clock
    requires i < |h.log| && forall j :: i < j < |h.log| ==> h.log[j].nonce != h.log[i].nonce
    ensures |h.seen| <= Cap(maxEntries)
    ensures Check(h.seen, h.log[i].nonce, h.log[i].time, t, windowMs, maxEntries).1 ==
              if Abs(t - h.log[i].time) > windowMs then ClockSkew
              else if |h.log| - 1 - i >= Cap(maxEntries) then Ok
              else Replayed
  {
    var d := RunKeeps(History([], start, []), qs, h, windowMs, maxEntries, 0);
    if Abs(t - h.log[i].time) <= windowMs {
      var k := EarlyBreakIsComplete(h.seen, t, windowMs);
      var pruned := h.seen[k..];
      if |h.log| - 1 - i >= Cap(maxEntries) {
        forall j | 0 <= j < |pruned| ensures pruned[j].nonce != h.log[i].nonce {
          assert pruned[j] == h.seen[k + j] && h.seen[k + j].nonce == h.log[d + k + j].nonce;
        }
      } else {
        assert h.log[i].at <= h.clock && t - h.log[i].at <= 2 * windowMs;
        assert i >= d;
        assert h.seen[i - d].at == h.log[i].at;
        assert pruned[i - d - k].nonce == h.log[i].nonce;
      }
    }
  }
}
