/** Every family of refresh tokens is a chain with one live end, and a replay ends it for good. */
module TokenTheorems {
  import opened Wrappers
  import opened Tokens

  /** One token that was issued: its family, and the token it was exchanged for. */
  datatype Entry = Entry(family: Family, parent: Option<Id>)

  /** The table, and all tokens ever issued, numbered in that order; families are numbered too. */
  datatype History = History(rows: Rows, log: seq<Entry>, families: nat)

  const START: History := History(map[], [], 0)

  datatype Event =
    | SignsIn(account: Account, secret: Secret, ttlMs: int, now: int)
    | Presents(token: Token, secret: Secret, ttlMs: int, now: int)
    | SignsOut(id: Id)
    | Bans(account: Account)
    | Prunes(now: int)

  function Next(h: History, e: Event): History {
    var n := |h.log|;
    match e
    case SignsIn(account, secret, ttlMs, now) =>
      History(Issue(h.rows, account, ttlMs, now, h.families, Token(n, secret)), h.log + [Entry(h.families, None)], h.families + 1)
    case Presents(token, secret, ttlMs, now) =>
      var r := Rotate(h.rows, token, ttlMs, now, Token(n, secret));
      h.(rows := r.0, log := if r.1.Rotated? && token.id < n then h.log + [Entry(h.log[token.id].family, Some(token.id))] else h.log)
    case SignsOut(id) => h.(rows := Revoke(h.rows, id).0)
    case Bans(account) => h.(rows := RevokeAccount(h.rows, account))
    case Prunes(now) => h.(rows := Prune(h.rows, now))
  }

  function Run(h: History, es: seq<Event>): History
    decreases |es|
  {
    if es == [] then h else Run(Next(h, es[0]), es[1..])
  }

  /** The newest token of its family. */
  predicate Newest(log: seq<Entry>, id: Id) {
    id < |log| && forall j :: id < j < |log| ==> log[j].family != log[id].family
  }

  /** Every token but the first of its family was exchanged for the one issued just before it. */
  predicate Chained(log: seq<Entry>) {
    forall j :: 0 <= j < |log| ==>
      match log[j].parent
      case None => forall i :: 0 <= i < j ==> log[i].family != log[j].family
      case Some(p) => p < j && log[p].family == log[j].family && forall i :: p < i < j ==> log[i].family != log[j].family
  }

  predicate Live(r: Row) { r.usedAt.None? && !r.revoked }

  predicate Known(h: History) {
    && (forall id :: id in h.rows ==> id < |h.log| && h.rows[id].family == h.log[id].family)
    && forall i :: 0 <= i < |h.log| ==> h.log[i].family < h.families
  }

  predicate LiveAreNewest(h: History) { forall id :: id in h.rows && Live(h.rows[id]) ==> Newest(h.log, id) }

  /** The tokens of a family belong to one account and are revoked together. */
  predicate Uniform(rows: Rows) {
    forall i, j :: i in rows && j in rows && rows[i].family == rows[j].family ==>
      rows[i].revoked == rows[j].revoked && rows[i].account == rows[j].account
  }

  predicate Inv(h: History) { Known(h) && Chained(h.log) && LiveAreNewest(h) && Uniform(h.rows) }

  /** A token added at the end of its family's chain, or as the first of a new family. */
  lemma ChainGrows(log: seq<Entry>, e: Entry, families: nat)
    requires Chained(log) && forall i :: 0 <= i < |log| ==> log[i].family < families
    requires match e.parent
             case None => e.family == families
             case Some(p) => Newest(log, p) && e.family == log[p].family
    ensures Chained(log + [e]) && Newest(log + [e], |log|)
    ensures forall i: nat :: Newest(log, i) && log[i].family != e.family ==> Newest(log + [e], i)
  {
    var more := log + [e];
    forall j | 0 <= j < |more| && more[j].parent.Some?
      ensures var p := more[j].parent.value;
              p < j && more[p].family == more[j].family && forall i :: p < i < j ==> more[i].family != more[j].family
    {
      if j < |log| { assert log[j] == more[j]; }
    }
    forall j | 0 <= j < |more| && more[j].parent.None? ensures forall i :: 0 <= i < j ==> more[i].family != more[j].family {
      if j < |log| { assert log[j] == more[j]; }
    }
  }

  lemma SignInKeeps(h: History, e: Event)
    requires Inv(h) && e.SignsIn?
    ensures Inv(Next(h, e))
  {
    var v, n := Next(h, e), |h.log|;
    var r := Row(h.families, e.account, e.secret, e.now + e.ttlMs, None, false);
    assert v.rows == h.rows[n := r] && v.log == h.log + [Entry(h.families, None)] && v.families == h.families + 1;
    hide Next, Chained, Newest;
    ChainGrows(h.log, Entry(h.families, None), h.families);
    UniformPut(h.rows, n, r);
    hide Uniform;
    assert Known(v);
    LiveGrows(h, v, n);
  }

  /** The live tokens of other families are still the newest of theirs. */
  lemma LiveGrows(h: History, v: History, n: Id)
    requires Known(h) && LiveAreNewest(h) && n == |h.log| && |v.log| == n + 1 && v.log[..n] == h.log && n in v.rows
    requires Newest(v.log, n)
    requires forall i: nat :: Newest(h.log, i) && h.log[i].family != v.log[n].family ==> Newest(v.log, i)
    requires forall id :: id in v.rows && id != n && Live(v.rows[id]) ==>
               id in h.rows && Live(h.rows[id]) && h.log[id].family != v.log[n].family
    ensures LiveAreNewest(v)
  {
    hide Newest;
  }

  lemma UniformPut(rows: Rows, n: Id, r: Row)
    requires Uniform(rows) && n !in rows
    requires forall i :: i in rows && rows[i].family == r.family ==> rows[i].revoked == r.revoked && rows[i].account == r.account
    ensures Uniform(rows[n := r])
  {
  }

  /** One live token is used, and its successor takes its place. */
  predicate Exchanged(h: History, v: History, id: Id, used: Row, r: Row) {
    var n := |h.log|;
    && id < n && id in h.rows && Live(h.rows[id]) && v.families == h.families
    && used.family == r.family == h.log[id].family == h.rows[id].family && used.account == r.account == h.rows[id].account
    && used.usedAt.Some? && !used.revoked && Live(r)
    && v.log == h.log + [Entry(h.log[id].family, Some(id))] && v.rows == h.rows[id := used][n := r]
  }

  lemma RotatedKeeps(h: History, e: Event)
    requires Inv(h) && e.Presents? && Rotate(h.rows, e.token, e.ttlMs, e.now, Token(|h.log|, e.secret)).1.Rotated?
    ensures Inv(Next(h, e))
  {
    hide Chained, LiveAreNewest, Uniform, Known, Newest, Next, Rotate, Exchanged;
    var used, r := RotatedExchanges(h, e);
    var v, id := Next(h, e), e.token.id;
    ExchangeKnown(h, v, id, used, r);
    ExchangeChain(h, v, id, used, r);
    ExchangeLive(h, v, id, used, r);
    ExchangeUniform(h, v, id, used, r);
  }

  lemma RotatedExchanges(h: History, e: Event) returns (used: Row, r: Row)
    requires Known(h) && e.Presents? && Rotate(h.rows, e.token, e.ttlMs, e.now, Token(|h.log|, e.secret)).1.Rotated?
    ensures Exchanged(h, Next(h, e), e.token.id, used, r)
  {
    used := h.rows[e.token.id].(usedAt := Some(e.now));
    r := Row(used.family, used.account, e.secret, e.now + e.ttlMs, None, false);
  }

  lemma ExchangeKnown(h: History, v: History, id: Id, used: Row, r: Row)
    requires Known(h) && Exchanged(h, v, id, used, r)
    ensures Known(v)
  {
  }

  lemma ExchangeChain(h: History, v: History, id: Id, used: Row, r: Row)
    requires Known(h) && Chained(h.log) && LiveAreNewest(h) && Exchanged(h, v, id, used, r)
    ensures Chained(v.log)
  {
    assert Newest(h.log, id);
    hide Chained, Newest;
    ChainGrows(h.log, Entry(h.log[id].family, Some(id)), h.families);
  }

  lemma ExchangeLive(h: History, v: History, id: Id, used: Row, r: Row)
    requires Known(h) && Chained(h.log) && LiveAreNewest(h) && Exchanged(h, v, id, used, r)
    ensures LiveAreNewest(v)
  {
    assert Newest(h.log, id);
    OthersLive(h, id);
    hide Chained, Newest, LiveAreNewest;
    ChainGrows(h.log, Entry(h.log[id].family, Some(id)), h.families);
    LiveGrows(h, v, |h.log|);
  }

  lemma ExchangeUniform(h: History, v: History, id: Id, used: Row, r: Row)
    requires Known(h) && Uniform(h.rows) && Exchanged(h, v, id, used, r)
    ensures Uniform(v.rows)
  {
    assert |h.log| !in h.rows[id := used];
    UniformPut(h.rows[id := used], |h.log|, r);
  }

  lemma OthersLive(h: History, id: Id)
    requires LiveAreNewest(h) && Known(h) && id in h.rows && Live(h.rows[id])
    ensures forall k :: k in h.rows && k != id && Live(h.rows[k]) ==> h.log[k].family != h.log[id].family
  {
    forall k | k in h.rows && k != id && Live(h.rows[k]) ensures h.log[k].family != h.log[id].family {
      assert Newest(h.log, k) && Newest(h.log, id);
    }
  }

  /** Revoking a whole family or account, or deleting rows. */
  lemma FewerKeeps(h: History, rows: Rows)
    requires Inv(h) && rows.Keys <= h.rows.Keys
    requires forall id :: id in rows ==> rows[id].(revoked := h.rows[id].revoked) == h.rows[id] && (h.rows[id].revoked ==> rows[id].revoked)
    requires forall i, j :: i in rows && j in rows && rows[i].family == rows[j].family ==> rows[i].revoked == rows[j].revoked
    ensures Inv(h.(rows := rows))
  {
    hide Chained, Newest;
    forall id | id in rows && Live(rows[id]) ensures Newest(h.log, id) { assert Live(h.rows[id]); }
    assert LiveAreNewest(h.(rows := rows)) && Uniform(rows);
  }

  lemma NextKeeps(h: History, e: Event)
    requires Inv(h)
    ensures Inv(Next(h, e))
  {
    hide Chained, Newest;
    match e
    case SignsIn(_, _, _, _) => SignInKeeps(h, e);
    case Presents(token, secret, ttlMs, now) =>
      if Rotate(h.rows, token, ttlMs, now, Token(|h.log|, secret)).1.Rotated? {
        RotatedKeeps(h, e);
      } else {
        FewerKeeps(h, Next(h, e).rows);
      }
    case _ => FewerKeeps(h, Next(h, e).rows);
  }

  lemma {:induction false} RunKeeps(h: History, es: seq<Event>)
    requires Inv(h)
    ensures Inv(Run(h, es))
    decreases |es|
  {
    hide Inv, Next;
    if es != [] {
      NextKeeps(h, es[0]);
      RunKeeps(Next(h, es[0]), es[1..]);
    }
  }

  /** In every interleaving, a family is a chain, of whose tokens at most one is neither used nor
      revoked: its newest. */
  lemma FamiliesAreChains(es: seq<Event>)
    ensures var h := Run(START, es);
            && Chained(h.log)
            && (forall i, j :: i in h.rows && j in h.rows && Live(h.rows[i]) && Live(h.rows[j]) && h.rows[i].family == h.rows[j].family ==> i == j)
            && forall i :: i in h.rows && Live(h.rows[i]) ==> Newest(h.log, i)
  {
    RunKeeps(START, es);
    hide Next, Run, Chained;
  }

  /** All that is left of a family is revoked, and the family is no new one. */
  predicate Dead(h: History, family: Family) {
    family < h.families && forall id :: id in h.rows && h.rows[id].family == family ==> h.rows[id].revoked
  }

  lemma DeadStays(h: History, e: Event, family: Family)
    requires Inv(h) && Dead(h, family)
    ensures Dead(Next(h, e), family)
  {
  }

  lemma {:induction false} DeadForever(h: History, es: seq<Event>, family: Family)
    requires Inv(h) && Dead(h, family)
    ensures Dead(Run(h, es), family)
    decreases |es|
  {
    hide Inv, Next, Dead;
    if es != [] {
      DeadStays(h, es[0], family);
      NextKeeps(h, es[0]);
      DeadForever(Next(h, es[0]), es[1..], family);
    }
  }

  /** Once a used token that is still stored is presented again with its secret, no token of its family
      is ever exchanged again, whatever happens in between. */
  lemma ReplayEndsTheFamily(before: seq<Event>, used: Token, secret: Secret, ttlMs: int, now: int,
                            between: seq<Event>, later: Token, next: Token, ttlMs2: int, now2: int)
    requires var h := Run(START, before);
             used.id in h.rows && h.rows[used.id].secret == used.secret && h.rows[used.id].usedAt.Some?
    ensures var h := Run(START, before);
            var family := h.rows[used.id].family;
            var v := Run(Next(h, Presents(used, secret, ttlMs, now)), between);
            && Rotate(h.rows, used, ttlMs, now, Token(|h.log|, secret)).1 == Refused(Reused)
            && (later.id in v.rows && v.rows[later.id].family == family ==>
                  Rotate(v.rows, later, ttlMs2, now2, next).1.Refused?)
  {
    RunKeeps(START, before);
    var h := Run(START, before);
    var e := Presents(used, secret, ttlMs, now);
    assert Dead(Next(h, e), h.rows[used.id].family);
    NextKeeps(h, e);
    DeadForever(Next(h, e), between, h.rows[used.id].family);
  }

  /** A token that is exchanged was stored, unused, unrevoked and unexpired; the one it is exchanged for
      can be exchanged until it expires in turn, and the old one ends the family. */
  lemma ExchangeGoesOn(rows: Rows, token: Token, ttlMs: int, now: int, next: Token, later: int, third: Token)
    requires next.id !in rows
    ensures Rotate(rows, token, ttlMs, now, next).1.Rotated? <==>
              && token.id in rows && rows[token.id].secret == token.secret
              && Live(rows[token.id]) && rows[token.id].expiresAt > now
    ensures var r := Rotate(rows, token, ttlMs, now, next);
            r.1.Rotated? ==>
              && r.1 == Rotated(rows[token.id].account, next, now + ttlMs)
              && (Rotate(r.0, next, ttlMs, later, third).1.Rotated? <==> later < now + ttlMs)
              && Rotate(r.0, token, ttlMs, later, third).1 == Refused(Reused)
              && !Rotate(Rotate(r.0, token, ttlMs, later, third).0, next, ttlMs, later, third).1.Rotated?
  {
  }
}
