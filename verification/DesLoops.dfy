/** The loops of the cipher, each computing its function in `Des`. */
module DesLoops {
  import opened Wrappers
  import opened DesTables
  import opened Des

  method BitsOf(buf: seq<Byte>) returns (bits: Bits)
    ensures bits == ToBits(buf)
  {
    bits := [];
    for j := 0 to |buf|
      invariant |bits| == 8 * j
      invariant forall k :: 0 <= k < |bits| ==> bits[k] == BitOf(buf[k / 8], k % 8)
    {
      for i := 0 to 8
        invariant |bits| == 8 * j + i
        invariant forall k :: 0 <= k < |bits| ==> bits[k] == BitOf(buf[k / 8], k % 8)
      {
        assert (8 * j + i) / 8 == j && (8 * j + i) % 8 == i;
        bits := bits + [BitOf(buf[j], i)];
      }
    }
  }

  /** Byte `j` when only the bits before `i` have been written. */
  function PackedBefore(bits: Bits, j: nat, i: nat): Byte
    requires 8 * j + 8 <= |bits|
  {
    Pack(bits[8 * j..8 * j + 8], if i >= 8 * j + 8 then 8 else if i > 8 * j then i - 8 * j else 0)
  }

  lemma PackNext(bits: Bits, i: nat)
    requires |bits| % 8 == 0 && i < |bits|
    ensures 8 * (i / 8) + 8 <= |bits|
    ensures PackedBefore(bits, i / 8, i + 1) == if bits[i] then PackedBefore(bits, i / 8, i) | Mask(i % 8) else PackedBefore(bits, i / 8, i)
    ensures forall j :: 0 <= j < |bits| / 8 && j != i / 8 ==> PackedBefore(bits, j, i + 1) == PackedBefore(bits, j, i)
  {
    var j, k := i / 8, i % 8;
    var part := bits[8 * j..8 * j + 8];
    assert part[k] == bits[i];
    OrZero(Pack(part, k));
  }

  /** Sets one bit at a time in a buffer of zeros. */
  method BytesOf(bits: Bits) returns (out: array<Byte>)
    requires |bits| % 8 == 0
    ensures out[..] == FromBits(bits)
  {
    out := new Byte[|bits| / 8](_ => 0);
    for i := 0 to |bits|
      invariant forall j :: 0 <= j < out.Length ==> out[j] == PackedBefore(bits, j, i)
    {
      var j, k := i / 8, i % 8;
      PackNext(bits, i);
      if bits[i] {
        out[j] := out[j] | Mask(k);
      }
      hide PackedBefore;
    }
  }

  lemma OrZero(b: Byte)
    ensures b | 0 == b
  {
  }

  method SubkeysOf(t: Tables, key: seq<Byte>) returns (ks: seq<Bits>)
    requires WellSized(t) && |key| == 8
    ensures ks == Subkeys(t, key)
  {
    var bits := BitsOf(key);
    var permuted := Permute(bits, t.pc1);
    var c, d := permuted[..28], permuted[28..56];
    assert permuted[28..56] == permuted[28..];
    ks := [];
    hide Permute, RotateLeft;
    for i := 0 to |t.shifts|
      invariant |c| == |d| == 28
      invariant ks + Schedule(c, d, t.shifts[i..], t.pc2) == Subkeys(t, key)
    {
      c := RotateLeft(c, t.shifts[i]);
      d := RotateLeft(d, t.shifts[i]);
      ks := ks + [Permute(c + d, t.pc2)];
      assert t.shifts[i..][1..] == t.shifts[i + 1..];
    }
  }

  method FeistelOf(t: Tables, right: Bits, subkey: Bits) returns (r: Bits)
    requires WellSized(t) && |right| == 32 && |subkey| == 48
    ensures r == Feistel(t, right, subkey)
  {
    hide Permute, Xor, SBox, NibbleBits;
    var expanded := Xor(Permute(right, t.e), subkey);
    var substituted: Bits := [];
    for box := 0 to 8
      invariant |substituted| == 4 * box
      invariant substituted + Substitute(t.s, expanded, box) == Substitute(t.s, expanded, 0)
    {
      var chunk := expanded[box * 6..box * 6 + 6];
      substituted := substituted + NibbleBits(SBox(t.s[box], chunk));
    }
    assert substituted == Substitute(t.s, expanded, 0);
    r := Permute(substituted, t.p);
  }

  lemma RoundsNext(t: Tables, left: Bits, right: Bits, keys: seq<Bits>, round: nat)
    requires WellSized(t) && |left| == |right| == 32 && Keys(keys) && round < |keys|
    ensures Keys(keys[round..]) && Keys(keys[round + 1..]) && |keys[round]| == 48
    ensures Rounds(t, left, right, keys[round..])
            == Rounds(t, right, Xor(left, Feistel(t, right, keys[round])), keys[round + 1..])
  {
    hide WellSized, Xor, Feistel;
    assert keys[round..][0] == keys[round] && keys[round..][1..] == keys[round + 1..];
  }

  lemma RoundsNone(t: Tables, left: Bits, right: Bits)
    requires WellSized(t) && |left| == |right| == 32
    ensures Keys([]) && Rounds(t, left, right, []) == (left, right)
  {
  }

  /** None where the source throws: a block or a key that is not of 8 bytes. */
  method EncryptBlockOf(t: Tables, block: seq<Byte>, key: seq<Byte>) returns (r: Option<seq<Byte>>)
    requires WellSized(t)
    ensures r == EncryptBlock(t, block, key)
  {
    if |block| != 8 || |key| != 8 {
      return None;
    }
    hide Permute, Subkeys, Feistel, ToBits, FromBits, Xor;
    var keys := SubkeysOf(t, key);
    var bits := BitsOf(block);
    var permuted := Permute(bits, t.ip);
    var left, right := permuted[..32], permuted[32..64];
    assert permuted[32..64] == permuted[32..];
    hide WellSized, Rounds, Keys;
    assert keys[0..] == keys;
    for round := 0 to 16
      invariant |left| == |right| == 32 && |keys| == 16 && Keys(keys) && Keys(keys[round..])
      invariant Rounds(t, left, right, keys[round..]) == Rounds(t, permuted[..32], permuted[32..], keys)
    {
      RoundsNext(t, left, right, keys, round);
      var f := FeistelOf(t, right, keys[round]);
      left, right := right, Xor(left, f);
    }
    RoundsNone(t, left, right);
    var out := BytesOf(Permute(right + left, t.fp));
    r := Some(out[..]);
  }

  /** The blocks before `offset` are done. */
  ghost predicate DoneTo(t: Tables, data: seq<Byte>, key: seq<Byte>, offset: nat, done: seq<Byte>)
    requires WellSized(t) && |data| % 8 == 0
  {
    && offset <= |data| && offset % 8 == 0 && (offset > 0 ==> |key| == 8)
    && (|key| == 8 ==> done + Blocks(t, data[offset..], Subkeys(t, key)) == Blocks(t, data, Subkeys(t, key)))
  }

  lemma NextBlock(t: Tables, data: seq<Byte>, key: seq<Byte>, offset: nat, done: seq<Byte>)
    requires WellSized(t) && |data| % 8 == 0 && DoneTo(t, data, key, offset, done) && |done| == offset
    ensures if offset == |data| then EncryptEcb(t, data, key) == Some(done)
            else
              && offset + 8 <= |data|
              && var r := EncryptBlock(t, data[offset..offset + 8], key);
                 if r.None? then EncryptEcb(t, data, key) == None
                 else DoneTo(t, data, key, offset + 8, done + r.value)
  {
    hide Cipher, Subkeys;
    if offset < |data| {
      assert data[offset..][..8] == data[offset..offset + 8] && data[offset..][8..] == data[offset + 8..];
    } else {
      assert data[offset..] == [] && done + [] == done;
    }
  }

  /** None where the source throws: a length that is no multiple of 8, or a key of the wrong length. */
  method EncryptEcbOf(t: Tables, data: seq<Byte>, key: seq<Byte>) returns (r: Option<seq<Byte>>)
    requires WellSized(t)
    ensures r == EncryptEcb(t, data, key)
  {
    if |data| % 8 != 0 {
      return None;
    }
    hide Cipher, Subkeys, Blocks;
    var out := new Byte[|data|](_ => 0);
    var offset := 0;
    assert DoneTo(t, data, key, 0, out[..0]) by { assert data[0..] == data; }
    hide DoneTo, EncryptEcb, EncryptBlock;
    while offset < |data|
      invariant offset <= |data| && DoneTo(t, data, key, offset, out[..offset])
    {
      NextBlock(t, data, key, offset, out[..offset]);
      var block := EncryptBlockOf(t, data[offset..offset + 8], key);
      if block.None? {
        return None;
      }
      hide WellSized;
      CopyBlock(block.value, out, offset);
      offset := offset + 8;
    }
    NextBlock(t, data, key, offset, out[..offset]);
    assert out[..offset] == out[..];
    r := Some(out[..]);
  }

  method CopyBlock(block: seq<Byte>, out: array<Byte>, offset: nat)
    requires |block| == 8 && offset + 8 <= out.Length
    modifies out
    ensures out[..offset] == old(out[..offset]) && out[..offset + 8] == out[..offset] + block
  {
    for i := 0 to 8
      invariant out[..offset] == old(out[..offset]) && out[offset..offset + i] == block[..i]
    {
      out[offset + i] := block[i];
    }
  }
}
