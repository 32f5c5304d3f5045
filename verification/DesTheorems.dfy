/** DES is a bijection on blocks, with the reversed subkeys as its inverse, and complements with its key. */
module DesTheorems {
  import opened Wrappers
  import opened DesTables
  import opened Des

  // ---- bits and bytes -------------------------------------------------------------------------------

  lemma PackBits(b: Byte, bits: Bits)
    requires |bits| == 8 && forall i :: 0 <= i < 8 ==> bits[i] == BitOf(b, i)
    ensures Pack(bits, 8) == b
  {
    assert Pack(bits, 0) == 0;
    assert Pack(bits, 1) == b & 0x80;
    assert Pack(bits, 2) == b & 0xC0;
    assert Pack(bits, 3) == b & 0xE0;
    assert Pack(bits, 4) == b & 0xF0;
    assert Pack(bits, 5) == b & 0xF8;
    assert Pack(bits, 6) == b & 0xFC;
    assert Pack(bits, 7) == b & 0xFE;
    assert Pack(bits, 8) == b & 0xFF;
  }

  lemma FromToBits(buf: seq<Byte>)
    ensures FromBits(ToBits(buf)) == buf
  {
    var bits := ToBits(buf);
    forall j | 0 <= j < |buf| ensures Pack(bits[8 * j..8 * j + 8], 8) == buf[j] {
      hide Pack;
      var part := bits[8 * j..8 * j + 8];
      forall i | 0 <= i < 8 ensures part[i] == BitOf(buf[j], i) {
        assert (8 * j + i) / 8 == j && (8 * j + i) % 8 == i;
      }
      PackBits(buf[j], part);
    }
  }

  lemma UnpackBit(b: Byte, i: nat, k: nat)
    requires i < 8 && k < 8
    ensures (b | Mask(i)) & Mask(k) == if i == k then Mask(k) else b & Mask(k)
    ensures Mask(k) != 0
  {
  }

  lemma {:induction false} PackedBits(bits: Bits, n: nat, k: nat)
    requires n <= 8 && n <= |bits| && k < 8
    ensures BitOf(Pack(bits, n), k) == (k < n && bits[k])
  {
    if n == 0 {
      assert 0 & Mask(k) == 0;
    } else {
      PackedBits(bits, n - 1, k);
      UnpackBit(Pack(bits, n - 1), n - 1, k);
      var b := Pack(bits, n - 1);
      assert b | 0 == b;
    }
  }

  lemma ToFromBits(bits: Bits)
    requires |bits| % 8 == 0
    ensures ToBits(FromBits(bits)) == bits
  {
    var buf := FromBits(bits);
    forall k | 0 <= k < |bits| ensures BitOf(buf[k / 8], k % 8) == bits[k] {
      PackedBits(bits[8 * (k / 8)..8 * (k / 8) + 8], 8, k % 8);
    }
  }

  // ---- the inverse ---------------------------------------------------------------------------------

  lemma PermuteUndone(bits: Bits, a: seq<nat>, b: seq<nat>)
    requires |bits| == |a| == |b| && Within(a, |bits|) && Undo(a, b)
    ensures Permute(Permute(bits, a), b) == bits
  {
    forall i | 0 <= i < |bits| ensures Permute(Permute(bits, a), b)[i] == bits[i] {
      assert a[b[i] - 1] == i + 1;
    }
  }

  function Reversed(ks: seq<Bits>): (r: seq<Bits>)
    requires Keys(ks)
    ensures |r| == |ks| && Keys(r)
  {
    seq(|ks|, i requires 0 <= i < |ks| => ks[|ks| - 1 - i])
  }

  lemma XorTwice(a: Bits, b: Bits)
    requires |a| == |b|
    ensures Xor(Xor(a, b), b) == a
  {
  }

  lemma {:induction false} RoundsSplit(t: Tables, left: Bits, right: Bits, ks: seq<Bits>, k: Bits)
    requires WellSized(t) && |left| == |right| == 32 && Keys(ks) && |k| == 48
    ensures var h := Rounds(t, left, right, ks);
            Rounds(t, left, right, ks + [k]) == (h.1, Xor(h.0, Feistel(t, h.1, k)))
    decreases |ks|
  {
    hide Feistel, Xor;
    if ks == [] {
      assert Rounds(t, left, right, [k]) == Rounds(t, right, Xor(left, Feistel(t, right, k)), [k][1..]);
    } else {
      assert (ks + [k])[1..] == ks[1..] + [k];
      RoundsSplit(t, right, Xor(left, Feistel(t, right, ks[0])), ks[1..], k);
    }
  }

  /** Rounds are undone, the halves exchanged, by rounds with the keys in reverse. */
  lemma {:induction false} RoundsUndone(t: Tables, left: Bits, right: Bits, ks: seq<Bits>)
    requires WellSized(t) && |left| == |right| == 32 && Keys(ks)
    ensures var h := Rounds(t, left, right, ks);
            Rounds(t, h.1, h.0, Reversed(ks)) == (right, left)
    decreases |ks|
  {
    hide Feistel, Xor;
    if ks != [] {
      var f := Feistel(t, right, ks[0]);
      var h := Rounds(t, left, right, ks);
      RoundsUndone(t, right, Xor(left, f), ks[1..]);
      assert Reversed(ks) == Reversed(ks[1..]) + [ks[0]];
      RoundsSplit(t, h.1, h.0, Reversed(ks[1..]), ks[0]);
      XorTwice(left, f);
    }
  }

  lemma Halves(bits: Bits)
    requires |bits| == 64
    ensures bits[..32] + bits[32..] == bits
  {
  }

  /** Running the cipher with the reversed subkeys undoes it. */
  lemma CipherUndone(t: Tables, block: seq<Byte>, ks: seq<Bits>)
    requires WellSized(t) && Undo(t.ip, t.fp) && Undo(t.fp, t.ip) && |block| == 8 && Keys(ks)
    ensures Cipher(t, Cipher(t, block, ks), Reversed(ks)) == block
  {
    var permuted := Permute(ToBits(block), t.ip);
    var h := Rounds(t, permuted[..32], permuted[32..], ks);
    var swapped := h.1 + h.0;
    ToFromBits(Permute(swapped, t.fp));
    PermuteUndone(swapped, t.fp, t.ip);
    assert swapped[..32] == h.1 && swapped[32..] == h.0;
    RoundsUndone(t, permuted[..32], permuted[32..], ks);
    Halves(permuted);
    PermuteUndone(ToBits(block), t.ip, t.fp);
    FromToBits(block);
    hide Rounds, Permute, ToBits, FromBits, Reversed, Keys, Undo, WellSized;
  }

  lemma ReversedTwice(ks: seq<Bits>)
    requires Keys(ks)
    ensures Reversed(Reversed(ks)) == ks
  {
  }

  /** For every key, encryption is a bijection on blocks: the same cipher with the subkeys in reverse
      undoes it, and it undoes that. */
  lemma EncryptionIsABijection(t: Tables, block: seq<Byte>, key: seq<Byte>)
    requires WellSized(t) && Undo(t.ip, t.fp) && Undo(t.fp, t.ip) && |block| == 8 && |key| == 8
    ensures Cipher(t, EncryptBlock(t, block, key).value, Reversed(Subkeys(t, key))) == block
    ensures EncryptBlock(t, Cipher(t, block, Reversed(Subkeys(t, key))), key).value == block
  {
    hide Cipher, Subkeys;
    CipherUndone(t, block, Subkeys(t, key));
    CipherUndone(t, block, Reversed(Subkeys(t, key)));
    ReversedTwice(Subkeys(t, key));
  }

  lemma {:induction false} BlocksUndone(t: Tables, data: seq<Byte>, ks: seq<Bits>)
    requires WellSized(t) && Undo(t.ip, t.fp) && Undo(t.fp, t.ip) && |data| % 8 == 0 && Keys(ks)
    ensures Blocks(t, Blocks(t, data, ks), Reversed(ks)) == data
    decreases |data|
  {
    if data != [] {
      hide Cipher, Reversed;
      var head, rest := Cipher(t, data[..8], ks), Blocks(t, data[8..], ks);
      assert (head + rest)[..8] == head && (head + rest)[8..] == rest;
      CipherUndone(t, data[..8], ks);
      BlocksUndone(t, data[8..], ks);
      assert data[..8] + data[8..] == data;
    }
  }

  /** ECB on any length that is a multiple of 8 is undone block by block with the reversed subkeys. */
  lemma EcbIsUndone(t: Tables, data: seq<Byte>, key: seq<Byte>)
    requires WellSized(t) && Undo(t.ip, t.fp) && Undo(t.fp, t.ip) && |key| == 8
    ensures EncryptEcb(t, data, key).Some? <==> |data| % 8 == 0
    ensures |data| % 8 == 0 ==> Blocks(t, EncryptEcb(t, data, key).value, Reversed(Subkeys(t, key))) == data
  {
    hide Cipher, Subkeys;
    if |data| % 8 == 0 { BlocksUndone(t, data, Subkeys(t, key)); }
  }

  // ---- complementation -----------------------------------------------------------------------------

  function NotBytes(b: seq<Byte>): (r: seq<Byte>)
    ensures |r| == |b|
  {
    seq(|b|, i requires 0 <= i < |b| => !b[i])
  }

  function NotKeys(ks: seq<Bits>): (r: seq<Bits>)
    requires Keys(ks)
    ensures |r| == |ks| && Keys(r)
  {
    seq(|ks|, i requires 0 <= i < |ks| => Not(ks[i]))
  }

  lemma NotBit(b: Byte, i: nat)
    requires i < 8
    ensures BitOf(!b, i) == !BitOf(b, i)
  {
    assert b & 0x80 == 0 || b & 0x80 == 0x80;
    assert b & 0x40 == 0 || b & 0x40 == 0x40;
    assert b & 0x20 == 0 || b & 0x20 == 0x20;
    assert b & 0x10 == 0 || b & 0x10 == 0x10;
  }

  lemma ToBitsNot(buf: seq<Byte>)
    ensures ToBits(NotBytes(buf)) == Not(ToBits(buf))
  {
    forall k | 0 <= k < 8 * |buf| ensures BitOf(NotBytes(buf)[k / 8], k % 8) == !BitOf(buf[k / 8], k % 8) {
      NotBit(buf[k / 8], k % 8);
    }
  }

  lemma FromBitsNot(bits: Bits)
    requires |bits| % 8 == 0
    ensures FromBits(Not(bits)) == NotBytes(FromBits(bits))
  {
    ToBitsNot(FromBits(bits));
    ToFromBits(bits);
    FromToBits(NotBytes(FromBits(bits)));
    hide ToBits, FromBits, Not, NotBytes;
  }

  lemma PermuteNot(bits: Bits, table: seq<nat>)
    requires Within(table, |bits|)
    ensures Permute(Not(bits), table) == Not(Permute(bits, table))
  {
  }

  lemma {:induction false} ScheduleNot(c: Bits, d: Bits, shifts: seq<nat>, pc2: seq<nat>)
    requires |c| == |d| == 28 && |pc2| == 48 && Within(pc2, 56) && forall i :: 0 <= i < |shifts| ==> shifts[i] <= 28
    ensures Schedule(Not(c), Not(d), shifts, pc2) == NotKeys(Schedule(c, d, shifts, pc2))
    decreases |shifts|
  {
    if shifts != [] {
      var c1, d1 := RotateLeft(c, shifts[0]), RotateLeft(d, shifts[0]);
      assert RotateLeft(Not(c), shifts[0]) == Not(c1) && RotateLeft(Not(d), shifts[0]) == Not(d1);
      assert Not(c1) + Not(d1) == Not(c1 + d1);
      PermuteNot(c1 + d1, pc2);
      ScheduleNot(c1, d1, shifts[1..], pc2);
      hide Not, RotateLeft, Permute;
    }
  }

  lemma SubkeysNot(t: Tables, key: seq<Byte>)
    requires WellSized(t) && |key| == 8
    ensures Subkeys(t, NotBytes(key)) == NotKeys(Subkeys(t, key))
  {
    ToBitsNot(key);
    PermuteNot(ToBits(key), t.pc1);
    var permuted := Permute(ToBits(key), t.pc1);
    assert Not(permuted)[..28] == Not(permuted[..28]) && Not(permuted)[28..] == Not(permuted[28..]);
    ScheduleNot(permuted[..28], permuted[28..], t.shifts, t.pc2);
    hide Not, Permute, ToBits, Schedule;
  }

  /** Complementing both inputs of the exclusive or inside leaves the Feistel function alone. */
  lemma FeistelNot(t: Tables, right: Bits, subkey: Bits)
    requires WellSized(t) && |right| == 32 && |subkey| == 48
    ensures Feistel(t, Not(right), Not(subkey)) == Feistel(t, right, subkey)
  {
    PermuteNot(right, t.e);
    var e := Permute(right, t.e);
    assert Xor(Not(e), Not(subkey)) == Xor(e, subkey);
    hide Not, Xor, Permute, Substitute;
  }

  lemma {:induction false} RoundsNot(t: Tables, left: Bits, right: Bits, ks: seq<Bits>)
    requires WellSized(t) && |left| == |right| == 32 && Keys(ks)
    ensures var h := Rounds(t, left, right, ks);
            Rounds(t, Not(left), Not(right), NotKeys(ks)) == (Not(h.0), Not(h.1))
    decreases |ks|
  {
    hide Not, Xor, Feistel, WellSized;
    if ks != [] {
      FeistelNot(t, right, ks[0]);
      var f := Feistel(t, right, ks[0]);
      XorNot(left, f);
      RoundsNot(t, right, Xor(left, f), ks[1..]);
      assert NotKeys(ks)[1..] == NotKeys(ks[1..]);
    }
  }

  lemma XorNot(a: Bits, b: Bits)
    requires |a| == |b|
    ensures Xor(Not(a), b) == Not(Xor(a, b))
  {
  }

  lemma NotHalves(bits: Bits, n: nat)
    requires n <= |bits|
    ensures Not(bits)[..n] == Not(bits[..n]) && Not(bits)[n..] == Not(bits[n..])
  {
  }

  lemma NotJoined(a: Bits, b: Bits)
    ensures Not(a) + Not(b) == Not(a + b)
  {
  }

  /** Complementing key and block complements the result. */
  lemma Complementation(t: Tables, block: seq<Byte>, key: seq<Byte>)
    requires WellSized(t) && |block| == 8 && |key| == 8
    ensures EncryptBlock(t, NotBytes(block), NotBytes(key)).value == NotBytes(EncryptBlock(t, block, key).value)
  {
    hide Cipher, Subkeys, NotKeys, NotBytes;
    SubkeysNot(t, key);
    CipherNot(t, block, Subkeys(t, key));
  }

  lemma CipherNot(t: Tables, block: seq<Byte>, ks: seq<Bits>)
    requires WellSized(t) && |block| == 8 && Keys(ks)
    ensures Cipher(t, NotBytes(block), NotKeys(ks)) == NotBytes(Cipher(t, block, ks))
  {
    hide Not, Permute, Rounds, ToBits, FromBits, NotBytes, NotKeys;
    ToBitsNot(block);
    PermuteNot(ToBits(block), t.ip);
    var permuted := Permute(ToBits(block), t.ip);
    NotHalves(permuted, 32);
    RoundsNot(t, permuted[..32], permuted[32..], ks);
    var h := Rounds(t, permuted[..32], permuted[32..], ks);
    NotJoined(h.1, h.0);
    PermuteNot(h.1 + h.0, t.fp);
    FromBitsNot(Permute(h.1 + h.0, t.fp));
  }

  // ---- the tables of the standard --------------------------------------------------------------------

  lemma SizedKeyTables()
    ensures |PC1| == 56 && Within(PC1, 64) && |PC2| == 48 && Within(PC2, 56)
    ensures |SHIFTS| == 16 && forall i :: 0 <= i < 16 ==> SHIFTS[i] <= 28
  {
  }

  lemma SizedBlockTables()
    ensures |IP| == |FP| == 64 && Within(IP, 64) && Within(FP, 64)
  {
    SizedTable(IP);
    SizedTable(FP);
    hide Within;
    assert |IP| == 64;
    assert |FP| == 64;
  }

  /** Entries that are checked one by one. */
  lemma SizedTable(t: seq<nat>)
    ensures (forall i :: 0 <= i < |t| ==> 1 <= t[i] <= 64) ==> Within(t, 64)
  {
  }

  lemma SizedRoundTables()
    ensures |E| == 48 && Within(E, 32) && |P| == 32 && Within(P, 32)
  {
  }

  lemma SizedBoxes()
    ensures |S1| == |S2| == |S3| == |S4| == |S5| == |S6| == |S7| == |S8| == 64
  {
  }

  lemma FipsSizes()
    ensures WellSized(FIPS_46_3)
  {
    SizedKeyTables();
    SizedBlockTables();
    SizedRoundTables();
    SizedBoxes();
    hide PC1, PC2, SHIFTS, IP, FP, E, P, S1, S2, S3, S4, S5, S6, S7, S8, Within;
  }

  predicate UndoOn(a: seq<nat>, b: seq<nat>, from: nat, to: nat) {
    forall i :: from <= i < to && i < |b| ==> 1 <= b[i] <= |a| && a[b[i] - 1] == i + 1
  }

  lemma IpAfterFpA() ensures UndoOn(IP, FP, 0, 16) {}
  lemma IpAfterFpB() ensures UndoOn(IP, FP, 16, 32) {}
  lemma IpAfterFpC() ensures UndoOn(IP, FP, 32, 48) {}
  lemma IpAfterFpD() ensures UndoOn(IP, FP, 48, 64) {}
  lemma FpAfterIpA() ensures UndoOn(FP, IP, 0, 16) {}
  lemma FpAfterIpB() ensures UndoOn(FP, IP, 16, 32) {}
  lemma FpAfterIpC() ensures UndoOn(FP, IP, 32, 48) {}
  lemma FpAfterIpD() ensures UndoOn(FP, IP, 48, 64) {}

  /** The final permutation undoes the initial one, and the other way round. */
  lemma FipsPermutationsUndo()
    ensures Undo(FIPS_46_3.ip, FIPS_46_3.fp) && Undo(FIPS_46_3.fp, FIPS_46_3.ip)
  {
    SizedBlockTables();
    IpAfterFpA();
    IpAfterFpB();
    IpAfterFpC();
    IpAfterFpD();
    FpAfterIpA();
    FpAfterIpB();
    FpAfterIpC();
    FpAfterIpD();
    hide IP, FP;
  }

  /** No key table entry names a parity bit. */
  predicate IgnoresParity(t: Tables) { forall i :: 0 <= i < |t.pc1| ==> t.pc1[i] % 8 != 0 }

  predicate NoParityOn(a: seq<nat>, from: nat, to: nat) { forall i :: from <= i < to && i < |a| ==> a[i] % 8 != 0 }

  lemma Pc1A() ensures NoParityOn(PC1, 0, 14) {}
  lemma Pc1B() ensures NoParityOn(PC1, 14, 28) {}
  lemma Pc1C() ensures NoParityOn(PC1, 28, 42) {}
  lemma Pc1D() ensures NoParityOn(PC1, 42, 56) {}

  lemma FipsIgnoresParity()
    ensures IgnoresParity(FIPS_46_3)
  {
    hide PC1;
    SizedKeyTables();
    Pc1A();
    Pc1B();
    Pc1C();
    Pc1D();
  }

  /** Keys that differ in the low bit of their bytes only are the same key. */
  lemma ParityDoesNotMatter(t: Tables, block: seq<Byte>, key: seq<Byte>, other: seq<Byte>)
    requires WellSized(t) && IgnoresParity(t) && |block| == 8 && |key| == |other| == 8
    requires forall i, k :: 0 <= i < 8 && 0 <= k < 7 ==> BitOf(key[i], k) == BitOf(other[i], k)
    ensures EncryptBlock(t, block, key) == EncryptBlock(t, block, other)
  {
    var a, b := Permute(ToBits(key), t.pc1), Permute(ToBits(other), t.pc1);
    forall i | 0 <= i < 56 ensures a[i] == b[i] {
      var at := t.pc1[i] - 1;
      assert at % 8 < 7;
      assert BitOf(key[at / 8], at % 8) == BitOf(other[at / 8], at % 8);
    }
    assert a == b;
    hide Permute, Cipher, Schedule;
  }

  /** All of it for the tables of the standard. */
  lemma StandardCipher(block: seq<Byte>, key: seq<Byte>)
    requires |block| == |key| == 8
    ensures WellSized(FIPS_46_3)
    ensures var c := EncryptBlock(FIPS_46_3, block, key).value;
            && Cipher(FIPS_46_3, c, Reversed(Subkeys(FIPS_46_3, key))) == block
            && EncryptBlock(FIPS_46_3, NotBytes(block), NotBytes(key)).value == NotBytes(c)
  {
    hide EncryptBlock, Cipher, Subkeys, Reversed, NotBytes, WellSized, Undo, FIPS_46_3;
    FipsSizes();
    FipsPermutationsUndo();
    EncryptionIsABijection(FIPS_46_3, block, key);
    Complementation(FIPS_46_3, block, key);
  }
}
