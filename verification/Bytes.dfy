/** Byte strings in which the outputs of ideal cryptography are blocks that say what they are of.
    Two blocks are equal exactly when they were computed from the same inputs. */
module Bytes {
  datatype Atom =
    | Lit(b: nat)
    | Part(of: Term, at: nat)

  type Data = seq<Atom>

  datatype Term =
    | Hash(m: Data)
    | Mac(key: Data, m: Data)
    | Kdf(ikm: Data, salt: Data, info: Data)
    | Identity(device: nat)                      // the public key of a device
    | Signature(key: Data, m: Data)
    | Point(exponent: nat)                       // an element of the group SPAKE2 runs in
    | DhPublic(secret: nat)
    | DhShared(low: nat, high: nat)
    | DhOther(secret: nat, theirs: Data)
    | Random(n: nat)
    | Sealed(key: Data, nonce: Data, aad: Data, plain: Data)   // an authenticated ciphertext with its tag

  /** Bytes `from` to `to` of the output `t`. */
  function Block(t: Term, from: nat, to: nat): (r: Data)
    requires from <= to
    ensures |r| == to - from
  {
    seq(to - from, i requires 0 <= i < to - from => Part(t, from + i))
  }

  lemma BlockInjective(t: Term, u: Term, from: nat, to: nat)
    requires from < to && Block(t, from, to) == Block(u, from, to)
    ensures t == u
  {
    assert Block(t, from, to)[0] == Block(u, from, to)[0];
  }

  function Sha256(m: Data): Data { Block(Hash(m), 0, 32) }
  function Hmac(key: Data, m: Data): Data { Block(Mac(key, m), 0, 32) }

  function Utf8(s: string): (r: Data)
    ensures |r| == |s|
  {
    seq(|s|, i requires 0 <= i < |s| => Lit(s[i] as nat))
  }

  lemma Utf8Injective(s: string, t: string)
    requires Utf8(s) == Utf8(t)
    ensures s == t
  {
    forall i | 0 <= i < |s| ensures s[i] == t[i] {
      assert Utf8(s)[i] == Utf8(t)[i];
    }
  }

  // ---- numbers ---------------------------------------------------------------------------------

  function Pow256(n: nat): (r: nat)
    ensures r >= 1
  {
    if n == 0 then 1 else 256 * Pow256(n - 1)
  }

  /** The `len` low base-256 digits of `n`, the least significant first. */
  function Digits(n: nat, len: nat): (r: Data)
    ensures |r| == len
  {
    if len == 0 then [] else [Lit(n % 256)] + Digits(n / 256, len - 1)
  }

  lemma {:induction false} DigitsInjective(n: nat, m: nat, len: nat)
    requires n < Pow256(len) && m < Pow256(len) && Digits(n, len) == Digits(m, len)
    ensures n == m
  {
    if len > 0 {
      assert Digits(n, len)[0] == Digits(m, len)[0];
      assert Digits(n / 256, len - 1) == Digits(n, len)[1..] == Digits(m, len)[1..] == Digits(m / 256, len - 1);
      DigitsInjective(n / 256, m / 256, len - 1);
    }
  }

  function U64le(n: nat): Data { Digits(n, 8) }

  function Reverse(s: Data): (r: Data)
    ensures |r| == |s|
    ensures forall i :: 0 <= i < |s| ==> r[i] == s[|s| - 1 - i]
  {
    seq(|s|, i requires 0 <= i < |s| => s[|s| - 1 - i])
  }

  function BigIntToBytes(n: nat, len: nat): Data { Reverse(Digits(n, len)) }

  lemma BigIntToBytesInjective(n: nat, m: nat, len: nat)
    requires n < Pow256(len) && m < Pow256(len) && BigIntToBytes(n, len) == BigIntToBytes(m, len)
    ensures n == m
  {
    assert Digits(n, len) == Reverse(BigIntToBytes(n, len)) == Reverse(BigIntToBytes(m, len)) == Digits(m, len);
    DigitsInjective(n, m, len);
  }

  /** A number in decimal, as `String(n)` writes it. */
  function Decimal(n: nat): (r: Data)
    ensures |r| > 0
    ensures forall i :: 0 <= i < |r| ==> r[i].Lit? && 48 <= r[i].b < 58
  {
    if n < 10 then [Lit(48 + n)] else Decimal(n / 10) + [Lit(48 + n % 10)]
  }

  lemma {:induction false} DecimalLeads(n: nat)
    ensures n > 0 ==> Decimal(n)[0] != Lit(48)
  {
    if n >= 10 { DecimalLeads(n / 10); }
  }

  lemma {:induction false} DecimalInjective(n: nat, m: nat)
    requires Decimal(n) == Decimal(m)
    ensures n == m
  {
    var s, k := Decimal(n), |Decimal(n)| - 1;
    assert s[k] == Decimal(m)[k];
    if n >= 10 && m >= 10 {
      assert Decimal(n / 10) == s[..k] == Decimal(m / 10);
      DecimalInjective(n / 10, m / 10);
    }
  }

  // ---- joining fields ----------------------------------------------------------------------------

  function Concat(parts: seq<Data>): Data {
    if parts == [] then [] else parts[0] + Concat(parts[1..])
  }

  /** Each field behind its 8-byte length. */
  function EncodeFields(fields: seq<Data>): Data {
    if fields == [] then [] else U64le(|fields[0]|) + fields[0] + EncodeFields(fields[1..])
  }

  predicate Measurable(fields: seq<Data>) { forall i :: 0 <= i < |fields| ==> |fields[i]| < Pow256(8) }

  /** The length prefixes make the encoding unambiguous, whatever the fields contain. */
  lemma {:induction false} EncodeFieldsInjective(fs: seq<Data>, gs: seq<Data>)
    requires Measurable(fs) && Measurable(gs) && EncodeFields(fs) == EncodeFields(gs)
    ensures fs == gs
  {
    if fs == [] || gs == [] {
      assert fs == gs;
    } else {
      var whole := EncodeFields(fs);
      assert whole[..8] == U64le(|fs[0]|) && whole[..8] == U64le(|gs[0]|);
      DigitsInjective(|fs[0]|, |gs[0]|, 8);
      var n := 8 + |fs[0]|;
      assert fs[0] == whole[8..n] == gs[0];
      assert EncodeFields(fs[1..]) == whole[n..] == EncodeFields(gs[1..]);
      EncodeFieldsInjective(fs[1..], gs[1..]);
      assert fs == [fs[0]] + fs[1..] && gs == [gs[0]] + gs[1..];
    }
  }

  lemma {:induction false} ConcatAppend(parts: seq<Data>, last: Data)
    ensures Concat(parts + [last]) == Concat(parts) + last
  {
    if parts == [] {
      assert Concat([last]) == last + Concat([]);
    } else {
      assert (parts + [last])[1..] == parts[1..] + [last];
      ConcatAppend(parts[1..], last);
    }
  }

  lemma {:induction false} ConcatSplit(parts: seq<Data>, i: nat)
    requires i <= |parts|
    ensures Concat(parts) == Concat(parts[..i]) + Concat(parts[i..])
  {
    if i == 0 {
      assert parts[0..] == parts;
    } else {
      assert parts[1..][..i - 1] == parts[..i][1..] && parts[1..][i - 1..] == parts[i..];
      ConcatSplit(parts[1..], i - 1);
    }
  }

  /** Fills one buffer of the total length with the parts, in order. */
  method Join(parts: seq<Data>) returns (out: array<Atom>)
    ensures out[..] == Concat(parts)
  {
    out := new Atom[|Concat(parts)|](_ => Lit(0));
    var at := 0;
    for i := 0 to |parts|
      invariant at == |Concat(parts[..i])| <= out.Length == |Concat(parts)|
      invariant out[..at] == Concat(parts[..i])
    {
      assert parts[..i + 1] == parts[..i] + [parts[i]];
      ConcatAppend(parts[..i], parts[i]);
      ConcatSplit(parts, i + 1);
      Set(out, parts[i], at);
      at := at + |parts[i]|;
    }
    assert parts[..|parts|] == parts;
  }

  /** Copies `part` into `out` from index `at` on. */
  method Set(out: array<Atom>, part: Data, at: nat)
    requires at + |part| <= out.Length
    modifies out
    ensures out[..] == old(out[..at]) + part + old(out[at + |part|..])
  {
    for k := 0 to |part|
      invariant out[..] == old(out[..at]) + part[..k] + old(out[at + k..])
    {
      out[at + k] := part[k];
    }
  }
}
