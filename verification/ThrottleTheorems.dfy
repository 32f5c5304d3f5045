/** What the two throttles admit, over every run with a monotone clock. */
module ThrottleTheorems {
  import opened Wrappers
  import opened Counting
  import opened Throttles

  /** One attempt that was let in, and when its window (or its burst) began. */
  datatype Hit = Hit(t: int, begun: int)

  function Of(begun: int): Hit -> bool { (e: Hit) => e.begun == begun }

  /** Let in during the half-open interval of `span` that begins at `from`. */
  function Within(from: int, span: nat): Hit -> bool { (e: Hit) => from <= e.t < from + span }

  function WithinOf(from: int, span: nat, begun: int): Hit -> bool {
    (e: Hit) => from <= e.t < from + span && e.begun == begun
  }

  // ---- fixed windows: one key among many -----------------------------------------------------------

  datatype Call = Call(key: Key, t: int)

  /** The table, and the attempts of the watched key that were let in. */
  datatype History = History(windows: map<Key, Row>, clock: int, log: seq<Hit>)

  function RowOf(rows: map<Key, Row>, key: Key): Option<Row> { if key in rows then Some(rows[key]) else None }

  function Next(h: History, c: Call, p: Policy, key: Key): History {
    var r := Allow(h.windows, c.key, c.t, p);
    History(r.0, c.t,
            if c.key == key && r.1.Go? && key in r.0 then h.log + [Hit(c.t, r.0[key].until - p.windowMs)] else h.log)
  }

  ghost predicate Run(h: History, cs: seq<Call>, v: History, p: Policy, key: Key)
    decreases |cs|
  {
    if cs == [] then v == h else cs[0].t >= h.clock && Run(Next(h, cs[0], p, key), cs[1..], v, p, key)
  }

  /** The hits lie in their windows; two windows do not overlap, and each begins with a hit. */
  predicate Windowed(log: seq<Hit>, windowMs: nat) {
    && (forall i :: 0 <= i < |log| ==> log[i].begun <= log[i].t < log[i].begun + windowMs)
    && (forall i, j :: 0 <= i < j < |log| ==>
          log[i].begun == log[j].begun || log[i].begun + windowMs <= log[j].begun)
    && Openings(log)
  }

  /** Every window that let anything in let in the hit that opened it. */
  predicate Openings(log: seq<Hit>) { forall i :: 0 <= i < |log| ==> Hit(log[i].begun, log[i].begun) in log }

  function LetIn(count: nat, p: Policy): nat { if count < p.perWindow then count else p.perWindow }

  /** The row is the newest window, and its count tells how many were let in. */
  predicate Newest(row: Option<Row>, clock: int, log: seq<Hit>, p: Policy) {
    match row
    case None => forall i :: 0 <= i < |log| ==> log[i].begun + p.windowMs <= clock
    case Some(w) =>
      var begun := w.until - p.windowMs;
      && begun <= clock && Count(log, Of(begun)) == LetIn(w.count, p)
      && (p.perWindow > 0 ==> Hit(begun, begun) in log)
      && forall i :: 0 <= i < |log| ==> log[i].begun == begun || log[i].begun + p.windowMs <= begun
  }

  ghost predicate Capped(log: seq<Hit>, limit: nat) {
    forall begun :: Count(log, Of(begun)) <= limit
  }

  ghost predicate Inv(row: Option<Row>, clock: int, log: seq<Hit>, p: Policy) {
    Windowed(log, p.windowMs) && Newest(row, clock, log, p) && Capped(log, p.perWindow)
  }

  lemma CappedAppend(log: seq<Hit>, hit: Hit, limit: nat)
    requires Capped(log, limit) && Count(log, Of(hit.begun)) < limit
    ensures Capped(log + [hit], limit)
    ensures Count(log + [hit], Of(hit.begun)) == Count(log, Of(hit.begun)) + 1
  {
    forall begun ensures Count(log + [hit], Of(begun)) <= limit { CountAppend(log, hit, Of(begun)); }
    CountAppend(log, hit, Of(hit.begun));
  }

  lemma WindowedAppend(log: seq<Hit>, hit: Hit, windowMs: nat)
    requires Windowed(log, windowMs) && hit.begun <= hit.t < hit.begun + windowMs
    requires hit.t == hit.begun || Hit(hit.begun, hit.begun) in log
    requires forall i :: 0 <= i < |log| ==> log[i].begun == hit.begun || log[i].begun + windowMs <= hit.begun
    ensures Windowed(log + [hit], windowMs)
  {
    OpeningsAppend(log, hit);
    hide Openings;
  }

  lemma OpeningsAppend(log: seq<Hit>, hit: Hit)
    requires Openings(log) && (hit.t == hit.begun || Hit(hit.begun, hit.begun) in log)
    ensures Openings(log + [hit])
  {
    var longer := log + [hit];
    assert longer[|log|] == hit;
    forall h | h in log ensures h in longer {}
    forall i | 0 <= i < |longer| ensures Hit(longer[i].begun, longer[i].begun) in longer {
      assert i < |log| ==> longer[i] == log[i];
    }
  }

  /** Time passes, and a window that has lapsed is deleted. */
  lemma LapseKeeps(row: Option<Row>, clock: int, log: seq<Hit>, p: Policy, t: int)
    requires Inv(row, clock, log, p) && t >= clock
    ensures Inv(if row.Some? && row.value.until > t then row else None, t, log, p)
  {
  }

  lemma NewestOpens(clock: int, log: seq<Hit>, p: Policy)
    requires Newest(None, clock, log, p) && p.windowMs > 0
    ensures Count(log, Of(clock)) == 0
    ensures p.perWindow > 0 ==> Newest(Some(Row(1, clock + p.windowMs)), clock, log + [Hit(clock, clock)], p)
    ensures p.perWindow == 0 ==> Newest(Some(Row(1, clock + p.windowMs)), clock, log, p)
  {
    CountNone(log, Of(clock));
    CountAppend(log, Hit(clock, clock), Of(clock));
    hide Count;
    assert (log + [Hit(clock, clock)])[|log|] == Hit(clock, clock);
  }

  lemma OpensKeeps(clock: int, log: seq<Hit>, p: Policy)
    requires Inv(None, clock, log, p) && p.windowMs > 0
    ensures Inv(Some(Row(1, clock + p.windowMs)), clock,
                if 1 > p.perWindow then log else log + [Hit(clock, clock)], p)
  {
    NewestOpens(clock, log, p);
    assert forall i :: 0 <= i < |log| ==> log[i].begun + p.windowMs <= clock;
    hide Newest, Windowed, Capped, Count;
    if 1 <= p.perWindow {
      CappedAppend(log, Hit(clock, clock), p.perWindow);
      WindowedAppend(log, Hit(clock, clock), p.windowMs);
    }
  }

  lemma NewestAppend(w: Row, clock: int, log: seq<Hit>, p: Policy, hit: Hit)
    requires Newest(Some(w), clock, log, p) && w.count < p.perWindow && hit == Hit(clock, w.until - p.windowMs)
    requires Count(log + [hit], Of(hit.begun)) == Count(log, Of(hit.begun)) + 1
    ensures Newest(Some(Row(w.count + 1, w.until)), clock, log + [hit], p)
  {
    hide Count;
    var longer := log + [hit];
    assert p.perWindow > 0 ==> Hit(hit.begun, hit.begun) in log && Hit(hit.begun, hit.begun) in longer;
  }

  lemma CountsKeeps(w: Row, clock: int, log: seq<Hit>, p: Policy)
    requires Inv(Some(w), clock, log, p) && w.until > clock
    ensures Inv(Some(Row(w.count + 1, w.until)), clock,
                if w.count + 1 > p.perWindow then log else log + [Hit(clock, w.until - p.windowMs)], p)
  {
    var hit := Hit(clock, w.until - p.windowMs);
    assert w.count >= p.perWindow ==> Newest(Some(Row(w.count + 1, w.until)), clock, log, p);
    assert Count(log, Of(hit.begun)) == LetIn(w.count, p) && hit.begun <= clock;
    assert forall i :: 0 <= i < |log| ==> log[i].begun == hit.begun || log[i].begun + p.windowMs <= hit.begun;
    assert p.perWindow > 0 ==> Hit(hit.begun, hit.begun) in log;
    hide Newest, Windowed, Capped, Count;
    if w.count + 1 <= p.perWindow {
      CappedAppend(log, hit, p.perWindow);
      WindowedAppend(log, hit, p.windowMs);
      NewestAppend(w, clock, log, p, hit);
    }
  }

  lemma CardLive(windows: map<Key, Row>, t: int)
    ensures |Live(windows, t)| <= |windows|
  {
    var live := Live(windows, t);
    assert windows.Keys == live.Keys + (windows.Keys - live.Keys);
    assert |live.Keys| == |live| && |windows.Keys| == |windows|;
  }

  lemma CardPut(windows: map<Key, Row>, k: Key, r: Row)
    ensures |windows[k := r]| == if k in windows then |windows| else |windows| + 1
  {
    assert windows[k := r].Keys == windows.Keys + {k};
    assert |windows.Keys| == |windows| && |windows[k := r].Keys| == |windows[k := r]|;
  }

  ghost predicate HistoryInv(h: History, p: Policy, key: Key) {
    Inv(RowOf(h.windows, key), h.clock, h.log, p) && |h.windows| <= p.maxPeers
  }

  lemma NextKeeps(h: History, c: Call, p: Policy, key: Key)
    requires HistoryInv(h, p, key) && p.windowMs > 0 && c.t >= h.clock
    ensures HistoryInv(Next(h, c, p, key), p, key)
  {
    hide Inv;
    LapseKeeps(RowOf(h.windows, key), h.clock, h.log, p, c.t);
    var live := Live(h.windows, c.t);
    CardLive(h.windows, c.t);
    assert RowOf(live, key) == if key in h.windows && h.windows[key].until > c.t then Some(h.windows[key]) else None;
    if c.key in live {
      CardPut(live, c.key, Row(live[c.key].count + 1, live[c.key].until));
      if c.key == key { CountsKeeps(live[key], c.t, h.log, p); }
    } else if |live| < p.maxPeers {
      CardPut(live, c.key, Row(1, c.t + p.windowMs));
      if c.key == key { OpensKeeps(c.t, h.log, p); }
    }
  }

  lemma {:induction false} RunKeeps(h: History, cs: seq<Call>, v: History, p: Policy, key: Key)
    requires HistoryInv(h, p, key) && p.windowMs > 0 && Run(h, cs, v, p, key)
    ensures HistoryInv(v, p, key)
    decreases |cs|
  {
    hide HistoryInv, Next;
    if cs != [] {
      NextKeeps(h, cs[0], p, key);
      RunKeeps(Next(h, cs[0], p, key), cs[1..], v, p, key);
    }
  }

  /** All hits within one span belong to at most two windows, of which the first began before it. */
  lemma TwoWindows(log: seq<Hit>, windowMs: nat, from: int) returns (early: int, late: int)
    requires Windowed(log, windowMs)
    ensures forall i :: 0 <= i < |log| && Within(from, windowMs)(log[i]) ==>
              log[i].begun == early || log[i].begun == late
    ensures early != late ==> Hit(early, early) in log && early < from
  {
    var inside := Within(from, windowMs);
    early, late := 0, 0;
    if i :| 0 <= i < |log| && inside(log[i]) {
      early, late := log[i].begun, log[i].begun;
      if j :| 0 <= j < |log| && inside(log[j]) && log[j].begun != log[i].begun {
        if log[j].begun < early {
          early := log[j].begun;
        } else {
          late := log[j].begun;
        }
      }
    }
  }

  /** At most `perWindow` attempts of a peer are let in within one of its windows, at most
      `2 * perWindow - 1` within any half-open interval as long as a window, and the table holds at
      most `maxPeers` of them. */
  lemma PeerThrottleBounds(start: int, cs: seq<Call>, v: History, p: Policy, key: Key, from: int)
    requires p.windowMs > 0 && Run(History(map[], start, []), cs, v, p, key)
    ensures Count(v.log, Of(from)) <= p.perWindow
    ensures p.perWindow > 0 ==> Count(v.log, Within(from, p.windowMs)) <= 2 * p.perWindow - 1
    ensures p.perWindow == 0 ==> v.log == []
    ensures |v.windows| <= p.maxPeers
  {
    RunKeeps(History(map[], start, []), cs, v, p, key);
    assert Inv(RowOf(v.windows, key), v.clock, v.log, p);
    var early, late := TwoWindows(v.log, p.windowMs, from);
    if v.log != [] { CountOne(v.log, 0, Of(v.log[0].begun)); }
    hide Count, Run;
    var inside := Within(from, p.windowMs);
    assert Count(v.log, Of(early)) <= p.perWindow && Count(v.log, Of(late)) <= p.perWindow;
    if early == late {
      CountLess(v.log, inside, Of(late));
    } else {
      var k :| 0 <= k < |v.log| && v.log[k] == Hit(early, early);
      CountUnion(v.log, inside, WithinOf(from, p.windowMs, early), Of(late));
      CountStrict(v.log, WithinOf(from, p.windowMs, early), Of(early), k);
    }
  }

  /** With the limits HopDesk uses: at most 29 attempts of a peer within any ten seconds. */
  lemma DefaultThrottle(start: int, cs: seq<Call>, v: History, key: Key, from: int)
    requires Run(History(map[], start, []), cs, v, DEFAULT_THROTTLE_POLICY, key)
    ensures Count(v.log, Within(from, 10000)) <= 29
  {
    PeerThrottleBounds(start, cs, v, DEFAULT_THROTTLE_POLICY, key, from);
  }

  /** A peer is let in exactly if its open window has room for one more, or it has none and the table
      has room for one. */
  lemma PeerThrottleLetsInExactly(start: int, cs: seq<Call>, v: History, p: Policy, key: Key, t: int)
    requires p.windowMs > 0 && Run(History(map[], start, []), cs, v, p, key) && t >= v.clock
    ensures var live := Live(v.windows, t);
            Allow(v.windows, key, t, p).1.Go? <==>
              if key in live then Count(v.log, Of(live[key].until - p.windowMs)) < p.perWindow
              else |live| < p.maxPeers && p.perWindow > 0
  {
    StartKeeps(start, p, key);
    hide HistoryInv, Run, Count, Live, Allow;
    RunKeeps(History(map[], start, []), cs, v, p, key);
    LetsInExactly(v, p, key, t);
  }

  lemma StartKeeps(start: int, p: Policy, key: Key)
    ensures HistoryInv(History(map[], start, []), p, key)
  {
  }

  lemma LetsInExactly(v: History, p: Policy, key: Key, t: int)
    requires HistoryInv(v, p, key) && p.windowMs > 0
    ensures var live := Live(v.windows, t);
            Allow(v.windows, key, t, p).1.Go? <==>
              if key in live then Count(v.log, Of(live[key].until - p.windowMs)) < p.perWindow
              else |live| < p.maxPeers && p.perWindow > 0
  {
    hide Inv, Live, Allow, Count;
    GoShape(v.windows, key, t, p);
    if key in v.windows { RowCounts(v.windows[key], v.clock, v.log, p); }
  }

  lemma GoShape(windows: map<Key, Row>, key: Key, t: int, p: Policy)
    requires p.windowMs > 0
    ensures var live := Live(windows, t);
            && (key in live ==> key in windows && live[key] == windows[key])
            && (Allow(windows, key, t, p).1.Go? <==>
                  if key in live then live[key].count < p.perWindow else |live| < p.maxPeers && p.perWindow > 0)
  {
  }

  lemma RowCounts(w: Row, clock: int, log: seq<Hit>, p: Policy)
    requires Inv(Some(w), clock, log, p)
    ensures Count(log, Of(w.until - p.windowMs)) == LetIn(w.count, p)
  {
  }

  const TWO_PER_TEN: Policy := Policy(2, 10, 1)

  lemma Steps(h: History, c: Call, key: Key, live: map<Key, Row>)
    requires Live(h.windows, c.t) == live && c.key == key && (key in live || |live| == 0)
    ensures var w := if key in live then live[key] else Row(0, c.t + 10);
            Next(h, c, TWO_PER_TEN, key) ==
              History(live[key := Row(w.count + 1, w.until)], c.t,
                      if w.count + 1 > 2 then h.log else h.log + [Hit(c.t, w.until - 10)])
  {
  }

  /** The bound for an arbitrary interval is reached, and it is more than `perWindow`. */
  lemma PeerThrottleBoundIsReached() returns (v: History)
    ensures Run(History(map[], 0, []), [Call(7, 0), Call(7, 9), Call(7, 10), Call(7, 11)], v, TWO_PER_TEN, 7)
    ensures Count(v.log, Within(9, TWO_PER_TEN.windowMs)) == 2 * TWO_PER_TEN.perWindow - 1 > TWO_PER_TEN.perWindow
  {
    var cs := [Call(7, 0), Call(7, 9), Call(7, 10), Call(7, 11)];
    var h := History(map[], 0, []);
    assert Live(map[], 0) == map[];
    Steps(h, cs[0], 7, map[]);
    var a := Next(h, cs[0], TWO_PER_TEN, 7);
    assert Live(a.windows, 9) == a.windows;
    Steps(a, cs[1], 7, a.windows);
    var b := Next(a, cs[1], TWO_PER_TEN, 7);
    assert Live(b.windows, 10) == map[];
    Steps(b, cs[2], 7, map[]);
    var c := Next(b, cs[2], TWO_PER_TEN, 7);
    assert Live(c.windows, 11) == c.windows;
    Steps(c, cs[3], 7, c.windows);
    v := Next(c, cs[3], TWO_PER_TEN, 7);
    hide Next, Live, Allow;
    assert Run(c, [cs[3]], v, TWO_PER_TEN, 7);
    assert cs[1..][1..] == [cs[2], cs[3]] && [cs[2], cs[3]][1..] == [cs[3]];
    assert Run(b, [cs[2], cs[3]], v, TWO_PER_TEN, 7);
    ThreeOfFour(v.log);
  }

  lemma ThreeOfFour(log: seq<Hit>)
    requires log == [Hit(0, 0), Hit(9, 0), Hit(10, 10), Hit(11, 10)]
    ensures Count(log, Within(9, 10)) == 3
  {
    assert log[..3][..2][..1] == [Hit(0, 0)] && log[..3][..2] == [Hit(0, 0), Hit(9, 0)];
    assert Count(log[..3][..2][..1], Within(9, 10)) == 0;
    assert Count(log[..3][..2], Within(9, 10)) == 1;
  }

  // ---- the store's lockout ---------------------------------------------------------------------------

  /** The table, and what was let in for the watched key since it last had no row. */
  datatype Usage = Usage(rows: map<Key, Row>, clock: int, log: seq<Hit>, burst: int)

  datatype Use = Attempt(key: Key, t: int, limit: nat, windowMs: nat) | Clear(key: Key, t: int)

  /** The watched key has one limit and one window, and is not cleared; other keys may do anything. */
  predicate Regular(u: Use, key: Key, limit: nat, windowMs: nat) {
    u.key == key ==> u.Attempt? && u.limit == limit && u.windowMs == windowMs
  }

  function NextUse(h: Usage, u: Use, key: Key): Usage {
    match u
    case Clear(k, t) => h.(rows := h.rows - {k}, clock := t)
    case Attempt(k, t, limit, windowMs) =>
      var r := Throttle(h.rows, k, t, limit, windowMs);
      var goes := k == key && r.1.Go?;
      var burst := if goes && !(k in h.rows && h.rows[k].until > t) then t else h.burst;
      Usage(r.0, t, if goes then h.log + [Hit(t, burst)] else h.log, burst)
  }

  ghost predicate RunUses(h: Usage, us: seq<Use>, v: Usage, key: Key, limit: nat, windowMs: nat)
    decreases |us|
  {
    if us == [] then v == h
    else
      && us[0].t >= h.clock && Regular(us[0], key, limit, windowMs)
      && RunUses(NextUse(h, us[0], key), us[1..], v, key, limit, windowMs)
  }

  function AtLeastOne(n: nat): nat { if n == 0 then 1 else n }

  /** Attempts of different bursts are a whole window apart. */
  predicate Spaced(log: seq<Hit>, windowMs: nat) {
    forall i, j :: 0 <= i < j < |log| ==> log[i].begun == log[j].begun || log[i].t + windowMs <= log[j].t
  }

  /** Every attempt that was let in keeps the row until its own window is over. */
  predicate Past(row: Option<Row>, clock: int, log: seq<Hit>, burst: int, windowMs: nat) {
    && (forall i :: 0 <= i < |log| ==> log[i].begun <= log[i].t && row.Some? && log[i].t + windowMs <= row.value.until)
    && (forall i :: 0 <= i < |log| ==> log[i].begun == burst || log[i].t + windowMs <= clock)
  }

  /** The row counts the present burst, and lapses a window after its last attempt. */
  predicate Last(row: Option<Row>, clock: int, log: seq<Hit>, burst: int, windowMs: nat) {
    row.Some? ==>
      && log != [] && log[|log| - 1].begun == burst && log[|log| - 1].t + windowMs == row.value.until
      && burst <= clock && row.value.until <= clock + windowMs && Count(log, Of(burst)) == row.value.count
  }

  ghost predicate BurstInv(row: Option<Row>, clock: int, log: seq<Hit>, burst: int, limit: nat, windowMs: nat) {
    Spaced(log, windowMs) && Past(row, clock, log, burst, windowMs) && Last(row, clock, log, burst, windowMs)
    && Capped(log, AtLeastOne(limit))
  }

  lemma SpacedAppend(log: seq<Hit>, hit: Hit, windowMs: nat)
    requires Spaced(log, windowMs)
    requires forall i :: 0 <= i < |log| ==> log[i].begun == hit.begun || log[i].t + windowMs <= hit.t
    ensures Spaced(log + [hit], windowMs)
  {
  }

  lemma BurstOpens(row: Option<Row>, clock: int, log: seq<Hit>, burst: int, limit: nat, windowMs: nat, t: int)
    requires BurstInv(row, clock, log, burst, limit, windowMs) && t >= clock && windowMs > 0
    requires row.Some? ==> row.value.until <= t
    ensures BurstInv(Some(Row(1, t + windowMs)), t, log + [Hit(t, t)], t, limit, windowMs)
  {
    CountNone(log, Of(t));
    SpacedAppend(log, Hit(t, t), windowMs);
    hide Count, Capped, Spaced;
    CappedAppend(log, Hit(t, t), AtLeastOne(limit));
    assert Last(Some(Row(1, t + windowMs)), t, log + [Hit(t, t)], t, windowMs);
    hide Last;
    assert Past(Some(Row(1, t + windowMs)), t, log + [Hit(t, t)], t, windowMs);
  }

  lemma BurstGrows(row: Row, clock: int, log: seq<Hit>, burst: int, limit: nat, windowMs: nat, t: int)
    requires BurstInv(Some(row), clock, log, burst, limit, windowMs) && t >= clock && row.count < limit
    requires row.until > t
    ensures BurstInv(Some(Row(row.count + 1, t + windowMs)), t, log + [Hit(t, burst)], burst, limit, windowMs)
  {
    SpacedAppend(log, Hit(t, burst), windowMs);
    hide Count, Capped, Spaced;
    CappedAppend(log, Hit(t, burst), AtLeastOne(limit));
    assert Last(Some(Row(row.count + 1, t + windowMs)), t, log + [Hit(t, burst)], burst, windowMs);
    hide Last;
    assert Past(Some(Row(row.count + 1, t + windowMs)), t, log + [Hit(t, burst)], burst, windowMs);
  }

  lemma NextUseKeeps(h: Usage, u: Use, key: Key, limit: nat, windowMs: nat)
    requires UsageInv(h, key, limit, windowMs) && windowMs > 0 && u.t >= h.clock && Regular(u, key, limit, windowMs)
    ensures UsageInv(NextUse(h, u, key), key, limit, windowMs)
  {
    hide BurstInv;
    var row := RowOf(h.rows, key);
    BurstWaits(row, h.clock, h.log, h.burst, limit, windowMs, u.t);
    if u.key == key && !(row.Some? && row.value.until > u.t) {
      BurstOpens(row, h.clock, h.log, h.burst, limit, windowMs, u.t);
    } else if u.key == key && row.value.count < limit {
      BurstGrows(row.value, h.clock, h.log, h.burst, limit, windowMs, u.t);
    }
  }

  lemma BurstWaits(row: Option<Row>, clock: int, log: seq<Hit>, burst: int, limit: nat, windowMs: nat, t: int)
    requires BurstInv(row, clock, log, burst, limit, windowMs) && t >= clock
    ensures BurstInv(row, t, log, burst, limit, windowMs)
  {
  }

  ghost predicate UsageInv(h: Usage, key: Key, limit: nat, windowMs: nat) {
    BurstInv(RowOf(h.rows, key), h.clock, h.log, h.burst, limit, windowMs)
  }

  lemma {:induction false} RunUsesKeeps(h: Usage, us: seq<Use>, v: Usage, key: Key, limit: nat, windowMs: nat)
    requires UsageInv(h, key, limit, windowMs) && windowMs > 0 && RunUses(h, us, v, key, limit, windowMs)
    ensures UsageInv(v, key, limit, windowMs)
    decreases |us|
  {
    hide UsageInv, NextUse;
    if us != [] {
      NextUseKeeps(h, us[0], key, limit, windowMs);
      RunUsesKeeps(NextUse(h, us[0], key), us[1..], v, key, limit, windowMs);
    }
  }

  /** Exactly when it is locked: while its last burst has the limit and the last attempt that was let in
      is less than a window ago. */
  lemma StoreThrottleLocksExactly(h: Usage, us: seq<Use>, v: Usage, key: Key, limit: nat, windowMs: nat, t: int)
    requires key !in h.rows && h.log == [] && windowMs > 0 && RunUses(h, us, v, key, limit, windowMs)
    ensures Throttle(v.rows, key, t, limit, windowMs).1.Wait? <==>
              && v.log != [] && t < v.log[|v.log| - 1].t + windowMs
              && Count(v.log, Of(v.log[|v.log| - 1].begun)) >= limit
  {
    RunUsesKeeps(h, us, v, key, limit, windowMs);
    hide Count, RunUses, Capped;
    RowsAndLog(h, us, v, key, limit, windowMs);
  }

  /** Something was let in exactly if there is a row. */
  lemma {:induction false} RowsAndLog(h: Usage, us: seq<Use>, v: Usage, key: Key, limit: nat, windowMs: nat)
    requires (key in h.rows <==> h.log != []) && RunUses(h, us, v, key, limit, windowMs)
    ensures key in v.rows <==> v.log != []
    decreases |us|
  {
    if us != [] { RowsAndLog(NextUse(h, us[0], key), us[1..], v, key, limit, windowMs); }
  }

  /** From a moment when a key has no row, and until it is cleared, at most `limit` of its attempts are
      let in within any half-open interval of `windowMs`. A limit of zero lets one in, like a limit of one. */
  lemma StoreThrottleSlides(h: Usage, us: seq<Use>, v: Usage, key: Key, limit: nat, windowMs: nat, from: int)
    requires key !in h.rows && h.log == [] && windowMs > 0 && RunUses(h, us, v, key, limit, windowMs)
    ensures Count(v.log, Within(from, windowMs)) <= AtLeastOne(limit)
  {
    RunUsesKeeps(h, us, v, key, limit, windowMs);
    var inside := Within(from, windowMs);
    if i :| 0 <= i < |v.log| && inside(v.log[i]) {
      hide Count, RunUses;
      CountLess(v.log, inside, Of(v.log[i].begun));
      assert Capped(v.log, AtLeastOne(limit));
    } else {
      CountNone(v.log, inside);
    }
  }
}
