/** The algebra of SPAKE2, and what a confirmation that verifies proves. */
module Spake2Theorems {
  import opened Wrappers
  import opened Bytes
  import opened Spake2

  // ---- arithmetic modulo the order ----------------------------------------------------------------

  lemma ModUnique(q: nat, a: int, k: int, r: int)
    requires q > 0 && 0 <= r < q && a == k * q + r
    ensures a % q == r
  {
    var d := a / q - k;
    assert d * q == r - a % q;
    MultipleGrows(d, q);
  }

  lemma MultipleGrows(d: int, q: int)
    requires q > 0
    ensures d >= 1 ==> d * q >= q
    ensures d <= -1 ==> d * q <= -q
  {
  }

  /** If `q` divides `a * b`, it divides `a * (q % b)` too. */
  lemma DividesRemainder(q: nat, a: nat, b: nat)
    requires q > 0 && b > 0 && (a * b) % q == 0
    ensures (a * (q % b)) % q == 0
  {
    var k, r, m := q / b, q % b, (a * b) / q;
    assert q == k * b + r && a * b == m * q;
    assert a * r == a * q - k * (a * b) by {
      assert a * (k * b + r) == k * (a * b) + a * r;
    }
    assert a * r == (a - k * m) * q by { assert k * (m * q) == (k * m) * q; }
    ModUnique(q, a * r, a - k * m, 0);
  }

  /** Two non-zero residues of a prime have a non-zero product. */
  lemma {:induction false} NoZeroDivisors(q: nat, a: nat, b: nat)
    requires Prime(q) && 0 < a < q && 0 < b < q
    ensures (a * b) % q != 0
    decreases b
  {
    if b > 1 {
      NoZeroDivisors(q, a, q % b);
      if (a * b) % q == 0 { DividesRemainder(q, a, b); }
    }
  }

  /** What unblinding with the right secret leaves. */
  lemma Unblinds(g: Group, w: nat, blind: nat, y: nat)
    requires g.order > 0 && y < g.order
    ensures Plus(g, Plus(g, Times(g, w, blind), y), -Times(g, w, blind)) == y
  {
    var q, t := g.order, Times(g, w, blind);
    var p := (t + y) % q;
    ModUnique(q, p - t, -((t + y) / q), y) by { assert (t + y) == (t + y) / q * q + p; }
  }

  /** With one secret, both sides arrive at the scalar product of their secrets, which is never the
      identity. */
  lemma SharedElementAgrees(g: Group, w: nat, x: nat, y: nat)
    requires ValidGroup(g) && 0 < x < g.order && 0 < y < g.order
    ensures SharedElement(g, A, w, x, Share(g, B, w, y)) == Times(g, x, y)
    ensures SharedElement(g, B, w, y, Share(g, A, w, x)) == Times(g, x, y)
    ensures Times(g, x, y) != 0
  {
    Unblinds(g, w, g.n, y);
    Unblinds(g, w, g.m, x);
    assert x * y == y * x;
    NoZeroDivisors(g.order, x, y);
  }

  // ---- keys and confirmations ----------------------------------------------------------------------

  /** Equal confirmations come from equal transcripts and associated data. */
  lemma ScheduleInjective(tt: Data, aad: Data, tt': Data, aad': Data)
    requires KeySchedule(tt, aad).macA == KeySchedule(tt', aad').macA || KeySchedule(tt, aad).macB == KeySchedule(tt', aad').macB
    ensures tt == tt' && aad == aad'
  {
    var ka, ka' := Sha256(tt)[16..32], Sha256(tt')[16..32];
    var prefix := Utf8("ConfirmationKeys");
    var keys, keys' := Kdf(ka, [], prefix + aad), Kdf(ka', [], prefix + aad');
    if KeySchedule(tt, aad).macA == KeySchedule(tt', aad').macA {
      BlockInjective(Mac(Block(keys, 0, 16), tt), Mac(Block(keys', 0, 16), tt'), 0, 32);
      BlockInjective(keys, keys', 0, 16);
    } else {
      BlockInjective(Mac(Block(keys, 16, 32), tt), Mac(Block(keys', 16, 32), tt'), 0, 32);
      BlockInjective(keys, keys', 16, 32);
    }
    assert aad == (prefix + aad)[|prefix|..] == (prefix + aad')[|prefix|..] == aad';
  }

  predicate Fits(idA: Data, idB: Data) { |idA| < Pow256(8) && |idB| < Pow256(8) }

  lemma Pow256Sizes()
    ensures Pow256(1) == 256 && Pow256(2) == 65536
    ensures Pow256(8) > 65536
  {
    assert Pow256(3) == 256 * 65536;
    assert Pow256(4) == 256 * Pow256(3);
    assert Pow256(5) == 256 * Pow256(4);
  }

  lemma EncodeInjective(k: nat, k': nat)
    requires Encode(k) == Encode(k')
    ensures k == k'
  {
    assert Encode(k)[1] == Encode(k')[1] == Part(Point(k), 1) == Part(Point(k'), 1);
  }

  lemma Short(a: Data, b: Data, c: Data, d: Data, e: Data, f: Data)
    requires Fits(a, b) && |c| == |d| == |e| == 65 && |f| == 32
    ensures Measurable([a, b, c, d, e, f])
  {
    Pow256Sizes();
    hide Pow256;
  }

  lemma TranscriptInjective(idA: Data, idB: Data, pA: Data, pB: Data, k: nat, w: nat,
                            idA': Data, idB': Data, pA': Data, pB': Data, k': nat, w': nat)
    requires Fits(idA, idB) && Fits(idA', idB')
    requires |pA| == |pB| == |pA'| == |pB'| == 65 && w < Pow256(32) && w' < Pow256(32)
    requires Transcript(idA, idB, pA, pB, k, w) == Transcript(idA', idB', pA', pB', k', w')
    ensures idA == idA' && idB == idB' && pA == pA' && pB == pB' && k == k' && w == w'
  {
    var fs := [idA, idB, pA, pB, Encode(k), BigIntToBytes(w, 32)];
    var gs := [idA', idB', pA', pB', Encode(k'), BigIntToBytes(w', 32)];
    hide Pow256, EncodeFields, Encode, BigIntToBytes, Measurable;
    Short(idA, idB, pA, pB, Encode(k), BigIntToBytes(w, 32));
    Short(idA', idB', pA', pB', Encode(k'), BigIntToBytes(w', 32));
    EncodeFieldsInjective(fs, gs);
    assert fs[0] == gs[0] && fs[1] == gs[1] && fs[2] == gs[2] && fs[3] == gs[3] && fs[4] == gs[4] && fs[5] == gs[5];
    BigIntToBytesInjective(w, w', 32);
    EncodeInjective(k, k');
  }

  /** Whatever shares arrived, a peer's confirmation verifies if and only if both sides saw the same
      identities, shares and associated data, and used the same secret. */
  lemma ConfirmsIffSame(g: Group, idA: Data, idB: Data, w: nat, x: nat, pA: Data, gotB: Data, aad: Data,
                        idA': Data, idB': Data, w': nat, y: nat, pB: Data, gotA: Data, aad': Data)
    requires ValidGroup(g) && Fits(idA, idB) && Fits(idA', idB')
    requires 0 < w < g.order && 0 < x < g.order && pA == Encode(Share(g, A, w, x)) && Share(g, A, w, x) != 0
    requires 0 < w' < g.order && 0 < y < g.order && pB == Encode(Share(g, B, w', y)) && Share(g, B, w', y) != 0
    requires Finish(g, A, idA, idB, w, x, pA, gotB, aad).Finished? && Finish(g, B, idA', idB', w', y, pB, gotA, aad').Finished?
    ensures var a := Finish(g, A, idA, idB, w, x, pA, gotB, aad).keys;
            var b := Finish(g, B, idA', idB', w', y, pB, gotA, aad').keys;
            var same := idA == idA' && idB == idB' && gotA == pA && gotB == pB && w == w' && aad == aad';
            (a.macB == b.macB <==> same) && (a.macA == b.macA <==> same) && (same ==> a == b)
  {
    var kA := SharedElement(g, A, w, x, DecodePeerShare(gotB, g).value);
    var kB := SharedElement(g, B, w', y, DecodePeerShare(gotA, g).value);
    var tA, tB := Transcript(idA, idB, pA, gotB, kA, w), Transcript(idA', idB', gotA, pB, kB, w');
    var a, b := KeySchedule(tA, aad), KeySchedule(tB, aad');
    hide Transcript, KeySchedule;
    if a.macA == b.macA || a.macB == b.macB {
      ScheduleInjective(tA, aad, tB, aad');
      TranscriptInjective(idA, idB, pA, gotB, kA, w, idA', idB', gotA, pB, kB, w');
    }
    if gotA == pA && gotB == pB && w == w' {
      DecodeEncode(Share(g, A, w, x), g);
      DecodeEncode(Share(g, B, w', y), g);
      SharedElementAgrees(g, w, x, y);
    }
  }

  /** With shares that arrive untampered and one secret, neither side refuses. */
  lemma NeverRefusesItsPeer(g: Group, idA: Data, idB: Data, w: nat, x: nat, y: nat, aad: Data)
    requires ValidGroup(g) && 0 < x < g.order && 0 < y < g.order
    requires Share(g, A, w, x) != 0 && Share(g, B, w, y) != 0
    ensures var pA, pB := Encode(Share(g, A, w, x)), Encode(Share(g, B, w, y));
            && Finish(g, A, idA, idB, w, x, pA, pB, aad).Finished?
            && Finish(g, A, idA, idB, w, x, pA, pB, aad) == Finish(g, B, idA, idB, w, y, pB, pA, aad)
  {
    SharedElementAgrees(g, w, x, y);
    DecodeEncode(Share(g, A, w, x), g);
    DecodeEncode(Share(g, B, w, y), g);
  }
}
