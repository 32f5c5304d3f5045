/** Checking is a projection: it only drops undeclared fields, a second time it drops nothing, and what
    it lets through has a size the schema bounds. */
module SchemaTheorems {
  import opened Wrappers
  import opened Schema

  predicate Distinct(fields: seq<Field>) {
    forall i, j :: 0 <= i < j < |fields| ==> fields[i].name != fields[j].name
  }

  /** Base64 has a limit, names are distinct, and a variant requires its own tag. */
  predicate WellFormed(s: Schema) {
    match s
    case B64(bytes, maxBytes) => bytes.Some? || maxBytes.Some?
    case Literal(value) => value.Str? || (value.Num? && value.n.Finite?)
    case Optional(of) => WellFormed(of)
    case ArrayOf(of, _) => WellFormed(of)
    case Shape(fields) => Distinct(fields) && forall i :: 0 <= i < |fields| ==> WellFormed(fields[i].schema)
    case Tagged(tag, variants) =>
      && Distinct(variants)
      && forall i :: 0 <= i < |variants| ==> WellFormed(variants[i].schema) && KeepsTag(variants[i], tag)
    case _ => true
  }

  predicate IsLiteral(f: Field, name: string, value: Value) {
    f.name == name && f.schema.Literal? && f.schema.value == value
  }

  predicate KeepsTag(variant: Field, tag: string) {
    && variant.schema.Shape?
    && exists j :: 0 <= j < |variant.schema.fields| && IsLiteral(variant.schema.fields[j], tag, Str(variant.name))
  }

  // ---- idempotence ----------------------------------------------------------------------------------

  predicate NoKey(ms: seq<Member>, name: string) { forall i :: 0 <= i < |ms| ==> ms[i].key != name }

  lemma {:induction false} LookupPast(a: seq<Member>, b: seq<Member>, name: string)
    requires NoKey(a, name)
    ensures Lookup(a + b, name) == Lookup(b, name)
  {
    if a == [] {
      assert a + b == b;
    } else {
      assert (a + b)[1..] == a[1..] + b;
      LookupPast(a[1..], b, name);
    }
  }

  lemma {:induction false} LookupMissing(a: seq<Member>, name: string)
    requires NoKey(a, name)
    ensures Lookup(a, name) == Undefined
  {
    if a != [] { LookupMissing(a[1..], name); }
  }

  /** The fields from `i` on contribute members of their own names only. */
  lemma {:induction false} Names(s: Schema, i: nat, members: seq<Member>, j: nat)
    requires s.Shape? && Distinct(s.fields) && j < i <= |s.fields| && CheckFields(s, i, members).Some?
    ensures NoKey(CheckFields(s, i, members).value, s.fields[j].name)
    decreases |s.fields| - i
  {
    hide Check;
    if i < |s.fields| { Names(s, i + 1, members, j); }
  }

  lemma {:induction false} FieldsAgain(s: Schema, i: nat, members: seq<Member>, before: seq<Member>)
    requires s.Shape? && WellFormed(s) && i <= |s.fields| && CheckFields(s, i, members).Some?
    requires forall j :: i <= j < |s.fields| ==> NoKey(before, s.fields[j].name)
    ensures CheckFields(s, i, before + CheckFields(s, i, members).value) == CheckFields(s, i, members)
    decreases s, 0, |s.fields| - i
  {
    if i < |s.fields| {
      var f := s.fields[i];
      var w, rest := Check(f.schema, Lookup(members, f.name)).value, CheckFields(s, i + 1, members).value;
      Again(f.schema, Lookup(members, f.name));
      Names(s, i + 1, members, i);
      hide Check;
      LookupPast(before, CheckFields(s, i, members).value, f.name);
      if w == Undefined {
        assert [] + rest == rest;
        LookupMissing(rest, f.name);
        FieldsAgain(s, i + 1, members, before);
      } else {
        var m := Member(f.name, w);
        assert before + ([m] + rest) == before + [m] + rest;
        FieldsAgain(s, i + 1, members, before + [m]);
      }
    }
  }

  lemma {:induction false} ItemsAgain(s: Schema, items: seq<Value>)
    requires s.ArrayOf? && WellFormed(s) && CheckItems(s, items).Some?
    ensures CheckItems(s, CheckItems(s, items).value) == CheckItems(s, items)
    ensures |CheckItems(s, items).value| == |items|
    decreases s, 0, |items|
  {
    if items != [] {
      Again(s.of, items[0]);
      ItemsAgain(s, items[1..]);
      hide Check;
      var w, rest := Check(s.of, items[0]).value, CheckItems(s, items[1..]).value;
      assert ([w] + rest)[1..] == rest;
    }
  }

  lemma {:induction false} VariantAgain(s: Schema, i: nat, tag: string, v: Value)
    requires s.Tagged? && WellFormed(s) && i <= |s.variants| && CheckVariant(s, i, tag, v).Some? && v.Obj?
    ensures var w := CheckVariant(s, i, tag, v).value;
            CheckVariant(s, i, tag, w) == Some(w) && w.Obj? && Lookup(w.members, s.tag) == Str(tag)
    decreases s, 0, |s.variants| - i
  {
    if s.variants[i].name == tag {
      var shape := s.variants[i].schema;
      assert KeepsTag(s.variants[i], s.tag);
      Again(shape, v);
      var j :| 0 <= j < |shape.fields| && IsLiteral(shape.fields[j], s.tag, Str(tag));
      KeepsLiteral(shape, 0, v.members, j);
    } else {
      VariantAgain(s, i + 1, tag, v);
    }
  }

  /** A literal field is in what the fields contribute. */
  lemma {:induction false} KeepsLiteral(s: Schema, i: nat, members: seq<Member>, j: nat)
    requires s.Shape? && Distinct(s.fields) && i <= j < |s.fields| && CheckFields(s, i, members).Some?
    requires s.fields[j].schema.Literal? && s.fields[j].schema.value != Undefined
    ensures Lookup(CheckFields(s, i, members).value, s.fields[j].name) == s.fields[j].schema.value
    decreases j - i
  {
    if i == j {
      assert Check(s.fields[i].schema, Lookup(members, s.fields[i].name)) == Some(s.fields[i].schema.value);
      hide Check;
      assert CheckFields(s, i, members).value[0] == Member(s.fields[j].name, s.fields[j].schema.value);
    } else {
      hide Check;
      KeepsLiteral(s, i + 1, members, j);
      var rest := CheckFields(s, i + 1, members).value;
      var w := Check(s.fields[i].schema, Lookup(members, s.fields[i].name)).value;
      LookupPast(if w == Undefined then [] else [Member(s.fields[i].name, w)], rest, s.fields[j].name);
    }
  }

  /** Every field has in the result what its own schema leaves of it. */
  lemma {:induction false} FieldThrough(s: Schema, i: nat, members: seq<Member>, j: nat)
    requires s.Shape? && Distinct(s.fields) && i <= j < |s.fields| && CheckFields(s, i, members).Some?
    ensures Check(s.fields[j].schema, Lookup(members, s.fields[j].name))
            == Some(Lookup(CheckFields(s, i, members).value, s.fields[j].name))
    decreases j - i
  {
    hide Check;
    var w, rest := Check(s.fields[i].schema, Lookup(members, s.fields[i].name)).value, CheckFields(s, i + 1, members).value;
    var head := if w == Undefined then [] else [Member(s.fields[i].name, w)];
    assert CheckFields(s, i, members).value == head + rest;
    if i == j {
      Names(s, i + 1, members, i);
      LookupMissing(rest, s.fields[i].name);
      assert w == Undefined ==> head + rest == rest;
      assert w != Undefined ==> (head + rest)[0] == head[0];
    } else {
      FieldThrough(s, i + 1, members, j);
      LookupPast(head, rest, s.fields[j].name);
    }
  }

  /** The members are accepted if each field is. */
  lemma {:induction false} FieldsChecked(s: Schema, i: nat, members: seq<Member>)
    requires s.Shape? && i <= |s.fields|
    ensures CheckFields(s, i, members).Some? <==>
              forall j :: i <= j < |s.fields| ==> Check(s.fields[j].schema, Lookup(members, s.fields[j].name)).Some?
    decreases |s.fields| - i
  {
    hide Check;
    if i < |s.fields| { FieldsChecked(s, i + 1, members); }
  }

  /** An accepted value is accepted again, unchanged. */
  lemma {:induction false} Again(s: Schema, v: Value)
    requires WellFormed(s) && Check(s, v).Some?
    ensures Check(s, Check(s, v).value) == Check(s, v)
    decreases s, 1
  {
    match s
    case Optional(of) => if v != Undefined { Again(of, v); }
    case ArrayOf(of, max) => ItemsAgain(s, v.items);
    case Shape(fields) =>
      FieldsAgain(s, 0, v.members, []);
      assert [] + CheckFields(s, 0, v.members).value == CheckFields(s, 0, v.members).value;
    case Tagged(tag, variants) => VariantAgain(s, 0, Lookup(v.members, tag).s, v);
    case _ =>
  }

  /** So a message that a relay has checked is, for the check at its destination, the message itself:
      checking on the way changes nothing about what arrives, and nothing at all about a message that is
      already as the schema leaves it. */
  lemma CheckedOnTheWay(s: Schema, v: Value)
    requires WellFormed(s)
    ensures (match Check(s, v) case None => None case Some(w) => Check(s, w)) == Check(s, v)
    ensures Check(s, v) == Some(v) <==> exists u :: Check(s, u) == Some(v)
  {
    if Check(s, v).Some? { Again(s, v); }
    if u :| Check(s, u) == Some(v) { Again(s, u); }
  }

  // ---- nothing but undeclared fields is dropped ------------------------------------------------------

  /** `w` is `v` without the fields the schema does not declare, at every level. */
  ghost predicate Pruned(s: Schema, v: Value, w: Value)
    decreases s, 1
  {
    match s
    case Optional(of) => (v == w == Undefined) || Pruned(of, v, w)
    case ArrayOf(of, _) =>
      v.Arr? && w.Arr? && |v.items| == |w.items| && forall i :: 0 <= i < |v.items| ==> Pruned(of, v.items[i], w.items[i])
    case Shape(fields) => v.Obj? && w.Obj? && PrunedFields(s, v.members, w.members)
    case Tagged(tag, variants) =>
      && v.Obj?
      && exists i :: 0 <= i < |variants| && Lookup(v.members, tag) == Str(variants[i].name) && Pruned(variants[i].schema, v, w)
    case _ => v == w
  }

  /** Every declared field has in `out` what its schema leaves of it, and there is nothing else. */
  ghost predicate PrunedFields(s: Schema, members: seq<Member>, out: seq<Member>)
    requires s.Shape?
    decreases s, 0
  {
    && (forall i :: 0 <= i < |s.fields| ==>
          Pruned(s.fields[i].schema, Lookup(members, s.fields[i].name), Lookup(out, s.fields[i].name)))
    && forall k :: 0 <= k < |out| ==> exists i :: 0 <= i < |s.fields| && out[k].key == s.fields[i].name
  }

  lemma {:induction false} KeysDeclared(s: Schema, i: nat, members: seq<Member>)
    requires s.Shape? && i <= |s.fields| && CheckFields(s, i, members).Some?
    ensures var out := CheckFields(s, i, members).value;
            forall k :: 0 <= k < |out| ==> exists j :: i <= j < |s.fields| && out[k].key == s.fields[j].name
    decreases |s.fields| - i
  {
    hide Check;
    if i < |s.fields| {
      KeysDeclared(s, i + 1, members);
      var out, rest := CheckFields(s, i, members).value, CheckFields(s, i + 1, members).value;
      var w := Check(s.fields[i].schema, Lookup(members, s.fields[i].name)).value;
      var head := if w == Undefined then [] else [Member(s.fields[i].name, w)];
      assert out == head + rest;
      hide CheckFields;
      forall k | 0 <= k < |out| ensures exists j :: i <= j < |s.fields| && out[k].key == s.fields[j].name {
        if k < |head| {
          assert out[k].key == s.fields[i].name;
        } else {
          var j :| i + 1 <= j < |s.fields| && rest[k - |head|].key == s.fields[j].name;
        }
      }
    }
  }

  lemma {:induction false} FieldsPruned(s: Schema, members: seq<Member>)
    requires s.Shape? && WellFormed(s) && CheckFields(s, 0, members).Some?
    ensures PrunedFields(s, members, CheckFields(s, 0, members).value)
    decreases s, 0
  {
    KeysDeclared(s, 0, members);
    forall j | 0 <= j < |s.fields|
      ensures Pruned(s.fields[j].schema, Lookup(members, s.fields[j].name),
                     Lookup(CheckFields(s, 0, members).value, s.fields[j].name))
    {
      hide Pruned, CheckFields;
      FieldThrough(s, 0, members, j);
      OnlyPrunes(s.fields[j].schema, Lookup(members, s.fields[j].name));
    }
  }

  lemma {:induction false} ItemsPruned(s: Schema, items: seq<Value>)
    requires s.ArrayOf? && WellFormed(s) && CheckItems(s, items).Some?
    ensures var out := CheckItems(s, items).value;
            |out| == |items| && forall i :: 0 <= i < |items| ==> Pruned(s.of, items[i], out[i])
    decreases s, 0, |items|
  {
    if items != [] {
      OnlyPrunes(s.of, items[0]);
      ItemsPruned(s, items[1..]);
      hide Check, Pruned;
      var out, rest := CheckItems(s, items).value, CheckItems(s, items[1..]).value;
      forall i | 0 <= i < |items| ensures Pruned(s.of, items[i], out[i]) {
        if i > 0 { assert items[i] == items[1..][i - 1] && out[i] == rest[i - 1]; }
      }
    }
  }

  lemma {:induction false} VariantPruned(s: Schema, i: nat, tag: string, v: Value)
    requires s.Tagged? && WellFormed(s) && i <= |s.variants| && CheckVariant(s, i, tag, v).Some?
    ensures exists j :: 0 <= j < |s.variants| && s.variants[j].name == tag
              && Pruned(s.variants[j].schema, v, CheckVariant(s, i, tag, v).value)
    decreases s, 0, |s.variants| - i
  {
    if s.variants[i].name == tag {
      OnlyPrunes(s.variants[i].schema, v);
    } else {
      VariantPruned(s, i + 1, tag, v);
    }
  }

  /** An accepted value is the input with undeclared fields dropped and nothing else changed. */
  lemma {:induction false} OnlyPrunes(s: Schema, v: Value)
    requires WellFormed(s) && Check(s, v).Some?
    ensures Pruned(s, v, Check(s, v).value)
    decreases s, 1
  {
    match s
    case Optional(of) => if v != Undefined { OnlyPrunes(of, v); }
    case ArrayOf(of, max) => ItemsPruned(s, v.items);
    case Shape(fields) => FieldsPruned(s, v.members);
    case Tagged(tag, variants) => VariantPruned(s, 0, Lookup(v.members, tag).s, v);
    case _ =>
  }

  // ---- sizes ---------------------------------------------------------------------------------------------

  /** Characters of text, and one for every value. */
  function Size(v: Value): nat
    decreases v, 1
  {
    match v
    case Str(s) => 1 + |s|
    case Arr(items) => 1 + SizeOfItems(v, 0)
    case Obj(members) => 1 + SizeOfMembers(v, 0)
    case _ => 1
  }

  function SizeOfItems(v: Value, i: nat): nat
    requires v.Arr? && i <= |v.items|
    decreases v, 0, |v.items| - i
  {
    if i == |v.items| then 0 else Size(v.items[i]) + SizeOfItems(v, i + 1)
  }

  function SizeOfMembers(v: Value, i: nat): nat
    requires v.Obj? && i <= |v.members|
    decreases v, 0, |v.members| - i
  {
    if i == |v.members| then 0 else |v.members[i].key| + Size(v.members[i].value) + SizeOfMembers(v, i + 1)
  }

  /** The largest size the schema lets through. */
  function Bound(s: Schema): nat
    requires WellFormed(s)
    decreases s, 1
  {
    match s
    case StrOf(_, max, _) => 1 + max
    case B64(bytes, maxBytes) => 1 + (if bytes.Some? then bytes.value + 2 else maxBytes.value + 2) / 3 * 4
    case Literal(value) => Size(value)
    case OneOf(values) => 1 + Longest(values)
    case Optional(of) => if Bound(of) > 1 then Bound(of) else 1
    case ArrayOf(of, max) => 1 + max * Bound(of)
    case Shape(fields) => 1 + BoundOfFields(s, 0)
    case Tagged(_, variants) => BoundOfVariants(s, 0)
    case _ => 1
  }

  function Longest(values: seq<string>): nat {
    if values == [] then 0
    else var rest := Longest(values[1..]); if |values[0]| > rest then |values[0]| else rest
  }

  function BoundOfFields(s: Schema, i: nat): nat
    requires s.Shape? && WellFormed(s) && i <= |s.fields|
    decreases s, 0, |s.fields| - i
  {
    if i == |s.fields| then 0 else |s.fields[i].name| + Bound(s.fields[i].schema) + BoundOfFields(s, i + 1)
  }

  function BoundOfVariants(s: Schema, i: nat): nat
    requires s.Tagged? && WellFormed(s) && i <= |s.variants|
    decreases s, 0, |s.variants| - i
  {
    if i == |s.variants| then 0
    else
      var b, rest := Bound(s.variants[i].schema), BoundOfVariants(s, i + 1);
      if b > rest then b else rest
  }

  lemma {:induction false} LongestBounds(values: seq<string>, s: string)
    requires s in values
    ensures |s| <= Longest(values)
  {
    if values[0] != s { LongestBounds(values[1..], s); }
  }

  lemma {:induction false} ItemsShift(v: Value, head: Value, i: nat)
    requires v.Arr? && i <= |v.items|
    ensures SizeOfItems(Arr([head] + v.items), i + 1) == SizeOfItems(v, i)
    decreases |v.items| - i
  {
    if i < |v.items| {
      ItemsShift(v, head, i + 1);
      assert ([head] + v.items)[i + 1] == v.items[i];
    }
  }

  lemma {:induction false} MembersShift(v: Value, head: Member, i: nat)
    requires v.Obj? && i <= |v.members|
    ensures SizeOfMembers(Obj([head] + v.members), i + 1) == SizeOfMembers(v, i)
    decreases |v.members| - i
  {
    if i < |v.members| {
      MembersShift(v, head, i + 1);
      assert ([head] + v.members)[i + 1] == v.members[i];
    }
  }

  lemma {:induction false} ItemsBounded(s: Schema, items: seq<Value>)
    requires s.ArrayOf? && WellFormed(s) && CheckItems(s, items).Some?
    ensures var out := Arr(CheckItems(s, items).value);
            |out.items| == |items| && SizeOfItems(out, 0) <= |items| * Bound(s.of)
    decreases s, 0, |items|
  {
    if items != [] {
      Bounded(s.of, items[0]);
      ItemsBounded(s, items[1..]);
      hide Check, Bound;
      var w, rest := Check(s.of, items[0]).value, CheckItems(s, items[1..]).value;
      ItemsShift(Arr(rest), w, 0);
      assert |items| * Bound(s.of) == Bound(s.of) + (|items| - 1) * Bound(s.of);
    }
  }

  lemma {:induction false} FieldsBounded(s: Schema, i: nat, members: seq<Member>)
    requires s.Shape? && WellFormed(s) && i <= |s.fields| && CheckFields(s, i, members).Some?
    ensures SizeOfMembers(Obj(CheckFields(s, i, members).value), 0) <= BoundOfFields(s, i)
    decreases s, 0, |s.fields| - i
  {
    if i < |s.fields| {
      var f := s.fields[i];
      var w, rest := Check(f.schema, Lookup(members, f.name)).value, CheckFields(s, i + 1, members).value;
      Bounded(f.schema, Lookup(members, f.name));
      FieldsBounded(s, i + 1, members);
      hide Check, Bound, Size;
      if w == Undefined {
        assert [] + rest == rest;
      } else {
        MembersShift(Obj(rest), Member(f.name, w), 0);
      }
    }
  }

  lemma {:induction false} VariantBounded(s: Schema, i: nat, tag: string, v: Value)
    requires s.Tagged? && WellFormed(s) && i <= |s.variants| && CheckVariant(s, i, tag, v).Some?
    ensures Size(CheckVariant(s, i, tag, v).value) <= BoundOfVariants(s, i)
    decreases s, 0, |s.variants| - i
  {
    if s.variants[i].name == tag {
      Bounded(s.variants[i].schema, v);
    } else {
      VariantBounded(s, i + 1, tag, v);
    }
  }

  /** What a schema lets through has a size that depends on the schema alone. */
  lemma {:induction false} Bounded(s: Schema, v: Value)
    requires WellFormed(s) && Check(s, v).Some?
    ensures Size(Check(s, v).value) <= Bound(s)
    decreases s, 1
  {
    match s
    case Optional(of) => if v != Undefined { Bounded(of, v); }
    case ArrayOf(of, max) =>
      ItemsBounded(s, v.items);
      MoreItems(|v.items|, max, Bound(of));
    case Shape(fields) => FieldsBounded(s, 0, v.members);
    case Tagged(tag, variants) => VariantBounded(s, 0, Lookup(v.members, tag).s, v);
    case OneOf(values) => LongestBounds(values, v.s);
    case _ =>
  }

  lemma MoreItems(n: nat, max: nat, bound: nat)
    requires n <= max
    ensures n * bound <= max * bound
  {
  }

  /** A variant that does not declare its tag loses it, and is then no message at all. */
  lemma TagMustBeDeclared()
    ensures var s := Tagged("type", [Field("ping", Shape([]))]);
            && Check(s, Obj([Member("type", Str("ping"))])) == Some(Obj([])) && Check(s, Obj([])) == None
            && !WellFormed(s)
  {
    var s := Tagged("type", [Field("ping", Shape([]))]);
    var v := Obj([Member("type", Str("ping"))]);
    assert CheckFields(Shape([]), 0, v.members) == Some([]);
    assert CheckVariant(s, 0, "ping", v) == Check(Shape([]), v);
    assert !KeepsTag(s.variants[0], "type");
  }
}
