/** The validator every message from outside goes through. */
module Schema {
  import opened Wrappers

  // ---- values -----------------------------------------------------------------------------------

  datatype Number = Finite(r: real) | NotFinite

  /** What JSON and JavaScript can hold; the members of an object are in insertion order. */
  datatype Value =
    | Undefined
    | Null
    | Bool(b: bool)
    | Num(n: Number)
    | Str(s: string)
    | Arr(items: seq<Value>)
    | Obj(members: seq<Member>)

  datatype Member = Member(key: string, value: Value)

  /** The value of a member, or undefined. */
  function Lookup(members: seq<Member>, key: string): Value {
    if members == [] then Undefined
    else if members[0].key == key then members[0].value
    else Lookup(members[1..], key)
  }

  // ---- schemas ----------------------------------------------------------------------------------

  datatype Schema =
    | StrOf(min: nat, max: nat, pattern: string -> bool)
    | B64(bytes: Option<nat>, maxBytes: Option<nat>)
    | IntIn(low: real, high: real)
    | NumIn(low: real, high: real)
    | AnyBool
    | Literal(value: Value)
    | OneOf(values: seq<string>)
    | Optional(of: Schema)
    | ArrayOf(of: Schema, max: nat)
    | Shape(fields: seq<Field>)
    | Tagged(tag: string, variants: seq<Field>)

  /** A named part: a field of an object, or a variant and its tag. */
  datatype Field = Field(name: string, schema: Schema)

  function FieldNamed(fields: seq<Field>, name: string): Option<Field> {
    if fields == [] then None else if fields[0].name == name then Some(fields[0]) else FieldNamed(fields[1..], name)
  }

  predicate B64Char(c: char) { 'A' <= c <= 'Z' || 'a' <= c <= 'z' || '0' <= c <= '9' || c == '+' || c == '/' }

  /** The number of `=` at the end, at most two. */
  function Padding(s: string): (n: nat)
    ensures n <= 2 && n <= |s|
  {
    if |s| >= 2 && s[|s| - 1] == '=' && s[|s| - 2] == '=' then 2 else if |s| >= 1 && s[|s| - 1] == '=' then 1 else 0
  }

  predicate IsB64(s: string) { |s| % 4 == 0 && forall i :: 0 <= i < |s| - Padding(s) ==> B64Char(s[i]) }

  function B64Bytes(s: string): int { |s| / 4 * 3 - Padding(s) }

  // ---- checking ---------------------------------------------------------------------------------

  /** The value to use, or none where the source throws. */
  function Check(s: Schema, v: Value): Option<Value>
    decreases s, 1
  {
    match s
    case StrOf(min, max, pattern) => if v.Str? && min <= |v.s| <= max && pattern(v.s) then Some(v) else None
    case B64(bytes, maxBytes) =>
      if v.Str? && IsB64(v.s) && (bytes.Some? ==> B64Bytes(v.s) == bytes.value) && (maxBytes.Some? ==> B64Bytes(v.s) <= maxBytes.value)
      then Some(v) else None
    case IntIn(low, high) =>
      if v.Num? && v.n.Finite? && v.n.r.Floor as real == v.n.r && low <= v.n.r <= high then Some(v) else None
    case NumIn(low, high) => if v.Num? && v.n.Finite? && low <= v.n.r <= high then Some(v) else None
    case AnyBool => if v.Bool? then Some(v) else None
    case Literal(value) => if v == value then Some(value) else None
    case OneOf(values) => if v.Str? && v.s in values then Some(v) else None
    case Optional(of) => if v == Undefined then Some(Undefined) else Check(of, v)
    case ArrayOf(of, max) =>
      if !v.Arr? || |v.items| > max then None
      else (match CheckItems(s, v.items) case None => None case Some(items) => Some(Arr(items)))
    case Shape(fields) =>
      if !v.Obj? then None
      else (match CheckFields(s, 0, v.members) case None => None case Some(out) => Some(Obj(out)))
    case Tagged(tag, variants) =>
      if !v.Obj? || !Lookup(v.members, tag).Str? then None
      else CheckVariant(s, 0, Lookup(v.members, tag).s, v)
  }

  function CheckItems(s: Schema, items: seq<Value>): Option<seq<Value>>
    requires s.ArrayOf?
    decreases s, 0, |items|
  {
    if items == [] then Some([])
    else
      match (Check(s.of, items[0]), CheckItems(s, items[1..]))
      case (Some(w), Some(rest)) => Some([w] + rest)
      case _ => None
  }

  /** Members before others, if there are others. */
  function Before(ms: seq<Member>, rest: Option<seq<Member>>): Option<seq<Member>> {
    match rest case None => None case Some(more) => Some(ms + more)
  }

  lemma BeforeTwice(a: seq<Member>, b: seq<Member>, rest: Option<seq<Member>>)
    ensures Before(a, Before(b, rest)) == Before(a + b, rest) && Before([], rest) == rest
  {
    if rest.Some? { assert a + (b + rest.value) == a + b + rest.value && [] + rest.value == rest.value; }
  }

  /** The members that the fields from `i` on contribute. */
  function CheckFields(s: Schema, i: nat, members: seq<Member>): Option<seq<Member>>
    requires s.Shape? && i <= |s.fields|
    decreases s, 0, |s.fields| - i
  {
    if i == |s.fields| then Some([])
    else
      match Check(s.fields[i].schema, Lookup(members, s.fields[i].name))
      case None => None
      case Some(w) => Before(if w == Undefined then [] else [Member(s.fields[i].name, w)], CheckFields(s, i + 1, members))
  }

  function CheckVariant(s: Schema, i: nat, tag: string, v: Value): Option<Value>
    requires s.Tagged? && i <= |s.variants|
    decreases s, 0, |s.variants| - i
  {
    if i == |s.variants| then None
    else if s.variants[i].name == tag then Check(s.variants[i].schema, v)
    else CheckVariant(s, i + 1, tag, v)
  }

  /** The loop of `obj`, filling its result field by field. */
  method CheckObject(s: Schema, v: Value) returns (r: Option<Value>)
    requires s.Shape?
    ensures r == Check(s, v)
  {
    if !v.Obj? {
      return None;
    }
    var out: seq<Member> := [];
    BeforeTwice([], [], CheckFields(s, 0, v.members));
    for i := 0 to |s.fields|
      invariant CheckFields(s, 0, v.members) == Before(out, CheckFields(s, i, v.members))
    {
      var f := s.fields[i];
      var value := Check(f.schema, Lookup(v.members, f.name));
      if value.None? {
        return None;
      }
      BeforeTwice([], [], CheckFields(s, i + 1, v.members));
      if value.value != Undefined {
        BeforeTwice(out, [Member(f.name, value.value)], CheckFields(s, i + 1, v.members));
        out := out + [Member(f.name, value.value)];
      }
    }
    assert out + [] == out;
    r := Some(Obj(out));
  }
}
