/** How many entries of a log satisfy a predicate. */
module Counting {
  function Count<T>(log: seq<T>, f: T -> bool): nat {
    if log == [] then 0 else Count(log[..|log| - 1], f) + if f(log[|log| - 1]) then 1 else 0
  }

  lemma CountAppend<T>(log: seq<T>, e: T, f: T -> bool)
    ensures Count(log + [e], f) == Count(log, f) + if f(e) then 1 else 0
  {
    assert (log + [e])[..|log|] == log;
  }

  lemma {:induction false} CountUpdate<T>(log: seq<T>, i: nat, e: T, f: T -> bool)
    requires i < |log|
    ensures Count(log[i := e], f) == Count(log, f) + (if f(e) then 1 else 0) - (if f(log[i]) then 1 else 0)
  {
    var n := |log| - 1;
    if i == n {
      assert log[i := e][..n] == log[..n];
    } else {
      assert log[i := e][..n] == log[..n][i := e];
      CountUpdate(log[..n], i, e, f);
    }
  }

  lemma {:induction false} CountLess<T>(log: seq<T>, f: T -> bool, g: T -> bool)
    requires forall i :: 0 <= i < |log| && f(log[i]) ==> g(log[i])
    ensures Count(log, f) <= Count(log, g)
  {
    if log != [] {
      CountLess(log[..|log| - 1], f, g);
    }
  }

  /** One entry that only the larger predicate accepts makes the difference at least one. */
  lemma {:induction false} CountStrict<T>(log: seq<T>, f: T -> bool, g: T -> bool, k: nat)
    requires forall i :: 0 <= i < |log| && f(log[i]) ==> g(log[i])
    requires k < |log| && g(log[k]) && !f(log[k])
    ensures Count(log, f) < Count(log, g)
  {
    if k == |log| - 1 {
      CountLess(log[..|log| - 1], f, g);
    } else {
      CountStrict(log[..|log| - 1], f, g, k);
    }
  }

  lemma {:induction false} CountUnion<T>(log: seq<T>, f: T -> bool, g: T -> bool, h: T -> bool)
    requires forall i :: 0 <= i < |log| && f(log[i]) ==> g(log[i]) || h(log[i])
    ensures Count(log, f) <= Count(log, g) + Count(log, h)
  {
    if log != [] {
      CountUnion(log[..|log| - 1], f, g, h);
    }
  }

  lemma {:induction false} CountOne<T>(log: seq<T>, i: nat, f: T -> bool)
    requires i < |log| && f(log[i])
    ensures Count(log, f) > 0
  {
    if i < |log| - 1 {
      CountOne(log[..|log| - 1], i, f);
    }
  }

  lemma {:induction false} CountNone<T>(log: seq<T>, f: T -> bool)
    requires forall i :: 0 <= i < |log| ==> !f(log[i])
    ensures Count(log, f) == 0
  {
    if log != [] {
      CountNone(log[..|log| - 1], f);
    }
  }
}
