/** DES on single blocks and in ECB mode, as VNC authentication needs it. */
module Des {
  import opened Wrappers
  import opened DesTables

  type Byte = bv8
  type Bits = seq<bool>

  // ---- bits and bytes --------------------------------------------------------------------------

  /** `0x80 >> i`. */
  function Mask(i: nat): (m: Byte)
    requires i < 8
  {
    if i == 0 then 0x80 else if i == 1 then 0x40 else if i == 2 then 0x20 else if i == 3 then 0x10
    else if i == 4 then 0x08 else if i == 5 then 0x04 else if i == 6 then 0x02 else 0x01
  }

  /** Bit `i` of a byte, the most significant being bit 0. */
  function BitOf(b: Byte, i: nat): bool
    requires i < 8
  {
    b & Mask(i) != 0
  }

  function ToBits(buf: seq<Byte>): (r: Bits)
    ensures |r| == 8 * |buf|
  {
    seq(8 * |buf|, k requires 0 <= k < 8 * |buf| => BitOf(buf[k / 8], k % 8))
  }

  /** The byte whose first `n` bits are those of `bits`, the others being zero. */
  function Pack(bits: Bits, n: nat): Byte
    requires n <= 8 && n <= |bits|
  {
    if n == 0 then 0 else Pack(bits, n - 1) | if bits[n - 1] then Mask(n - 1) else 0
  }

  function FromBits(bits: Bits): (r: seq<Byte>)
    requires |bits| % 8 == 0
    ensures |r| == |bits| / 8
  {
    seq(|bits| / 8, j requires 0 <= j < |bits| / 8 => Pack(bits[8 * j..8 * j + 8], 8))
  }

  function Xor(a: Bits, b: Bits): (r: Bits)
    requires |a| == |b|
    ensures |r| == |a|
  {
    seq(|a|, i requires 0 <= i < |a| => a[i] != b[i])
  }

  function Not(a: Bits): (r: Bits)
    ensures |r| == |a|
  {
    seq(|a|, i requires 0 <= i < |a| => !a[i])
  }

  // ---- the cipher -------------------------------------------------------------------------------

  function Permute(bits: Bits, table: seq<nat>): (r: Bits)
    requires Within(table, |bits|)
    ensures |r| == |table|
  {
    seq(|table|, i requires 0 <= i < |table| => bits[table[i] - 1])
  }

  function RotateLeft(bits: Bits, n: nat): (r: Bits)
    requires n <= |bits|
    ensures |r| == |bits|
  {
    bits[n..] + bits[..n]
  }

  predicate Keys(ks: seq<Bits>) { forall i :: 0 <= i < |ks| ==> |ks[i]| == 48 }

  /** The subkeys of the rounds still to come. */
  function Schedule(c: Bits, d: Bits, shifts: seq<nat>, pc2: seq<nat>): (ks: seq<Bits>)
    requires |c| == |d| == 28 && |pc2| == 48 && Within(pc2, 56) && forall i :: 0 <= i < |shifts| ==> shifts[i] <= 28
    ensures |ks| == |shifts| && Keys(ks)
    decreases |shifts|
  {
    if shifts == [] then []
    else
      var c1, d1 := RotateLeft(c, shifts[0]), RotateLeft(d, shifts[0]);
      [Permute(c1 + d1, pc2)] + Schedule(c1, d1, shifts[1..], pc2)
  }

  function Subkeys(t: Tables, key: seq<Byte>): (ks: seq<Bits>)
    requires WellSized(t) && |key| == 8
    ensures |ks| == 16 && Keys(ks)
  {
    var permuted := Permute(ToBits(key), t.pc1);
    Schedule(permuted[..28], permuted[28..], t.shifts, t.pc2)
  }

  function Val(b: bool): nat { if b then 1 else 0 }

  /** Outer bits pick the row, inner four the column. */
  function SBox(table: seq<Nibble>, chunk: Bits): Nibble
    requires |table| == 64 && |chunk| == 6
  {
    var row, col := 2 * Val(chunk[0]) + Val(chunk[5]), 8 * Val(chunk[1]) + 4 * Val(chunk[2]) + 2 * Val(chunk[3]) + Val(chunk[4]);
    table[row * 16 + col]
  }

  function NibbleBits(v: Nibble): (r: Bits)
    ensures |r| == 4
  {
    [v & 8 != 0, v & 4 != 0, v & 2 != 0, v & 1 != 0]
  }

  /** The output of the boxes from `box` on. */
  function Substitute(s: seq<seq<Nibble>>, expanded: Bits, box: nat): (r: Bits)
    requires |s| == 8 && (forall i :: 0 <= i < 8 ==> |s[i]| == 64) && |expanded| == 48 && box <= 8
    ensures |r| == 4 * (8 - box)
    decreases 8 - box
  {
    if box == 8 then []
    else NibbleBits(SBox(s[box], expanded[box * 6..box * 6 + 6])) + Substitute(s, expanded, box + 1)
  }

  function Feistel(t: Tables, right: Bits, subkey: Bits): (r: Bits)
    requires WellSized(t) && |right| == 32 && |subkey| == 48
    ensures |r| == 32
  {
    Permute(Substitute(t.s, Xor(Permute(right, t.e), subkey), 0), t.p)
  }

  /** The two halves after a round for each key. */
  function Rounds(t: Tables, left: Bits, right: Bits, ks: seq<Bits>): (r: (Bits, Bits))
    requires WellSized(t) && |left| == |right| == 32 && Keys(ks)
    ensures |r.0| == |r.1| == 32
    decreases |ks|
  {
    if ks == [] then (left, right)
    else Rounds(t, right, Xor(left, Feistel(t, right, ks[0])), ks[1..])
  }

  function Cipher(t: Tables, block: seq<Byte>, ks: seq<Bits>): (r: seq<Byte>)
    requires WellSized(t) && |block| == 8 && Keys(ks)
    ensures |r| == 8
  {
    var permuted := Permute(ToBits(block), t.ip);
    var halves := Rounds(t, permuted[..32], permuted[32..], ks);
    FromBits(Permute(halves.1 + halves.0, t.fp))
  }

  function EncryptBlock(t: Tables, block: seq<Byte>, key: seq<Byte>): (r: Option<seq<Byte>>)
    requires WellSized(t)
    ensures r.Some? <==> |block| == 8 && |key| == 8
    ensures r.Some? ==> |r.value| == 8
  {
    if |block| != 8 || |key| != 8 then None else Some(Cipher(t, block, Subkeys(t, key)))
  }

  function Blocks(t: Tables, data: seq<Byte>, ks: seq<Bits>): (r: seq<Byte>)
    requires WellSized(t) && |data| % 8 == 0 && Keys(ks)
    ensures |r| == |data|
  {
    if data == [] then [] else Cipher(t, data[..8], ks) + Blocks(t, data[8..], ks)
  }

  function EncryptEcb(t: Tables, data: seq<Byte>, key: seq<Byte>): Option<seq<Byte>>
    requires WellSized(t)
  {
    if |data| % 8 != 0 then None
    else if data == [] then Some([])
    else if |key| != 8 then None
    else Some(Blocks(t, data, Subkeys(t, key)))
  }
}
