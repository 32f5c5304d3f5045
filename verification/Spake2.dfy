/** SPAKE2 (RFC 9382) over a group of prime order, whose elements are written as multiples of the
    generator: `e` stands for e times the generator. */
module Spake2 {
  import opened Wrappers
  import opened Bytes

  datatype Role = A | B

  /** The order of the group, and the fixed points M and N. */
  datatype Group = Group(order: nat, m: nat, n: nat)

  ghost predicate Prime(q: nat) { q > 1 && forall d :: 1 < d < q ==> q % d != 0 }

  ghost predicate ValidGroup(g: Group) {
    Prime(g.order) && g.order <= Pow256(32) && 0 < g.m < g.order && 0 < g.n < g.order
  }

  datatype Keys = Keys(ke: Data, macA: Data, macB: Data)

  datatype Outcome = Finished(keys: Keys) | Refused

  // ---- the group -----------------------------------------------------------------------------

  function Plus(g: Group, a: int, b: int): int
    requires g.order > 0
  {
    (a + b) % g.order
  }

  function Times(g: Group, k: int, a: int): int
    requires g.order > 0
  {
    (k * a) % g.order
  }

  function Blind(g: Group, role: Role): nat { if role.A? then g.m else g.n }
  function Unblind(g: Group, role: Role): nat { if role.A? then g.n else g.m }

  /** An element in uncompressed form: 65 bytes, of which the first is 4. */
  function Encode(e: nat): (r: Data)
    ensures |r| == 65
  {
    [Lit(4)] + Block(Point(e), 1, 65)
  }

  function DecodePeerShare(bytes: Data, g: Group): (r: Option<nat>)
    ensures r.Some? ==> bytes == Encode(r.value) && 0 < r.value < g.order
  {
    if |bytes| != 65 || bytes[0] != Lit(4) then None
    else if !bytes[1].Part? || !bytes[1].of.Point? then None
    else
      var e := bytes[1].of.exponent;
      if bytes == Encode(e) && 0 < e < g.order then Some(e) else None
  }

  lemma DecodeEncode(e: nat, g: Group)
    requires 0 < e < g.order
    ensures DecodePeerShare(Encode(e), g) == Some(e)
  {
    assert Encode(e)[1] == Part(Point(e), 1);
  }

  // ---- the exchange -----------------------------------------------------------------------------

  function Share(g: Group, role: Role, w: nat, scalar: nat): nat
    requires g.order > 0
  {
    Plus(g, Times(g, w, Blind(g, role)), scalar)
  }

  function SharedElement(g: Group, role: Role, w: nat, scalar: nat, peer: nat): nat
    requires g.order > 0
  {
    Times(g, scalar, Plus(g, peer, -Times(g, w, Unblind(g, role))))
  }

  function Transcript(idA: Data, idB: Data, pA: Data, pB: Data, k: nat, w: nat): Data {
    EncodeFields([idA, idB, pA, pB, Encode(k), BigIntToBytes(w, 32)])
  }

  /** Ke, and the two confirmation MACs. */
  function KeySchedule(tt: Data, aad: Data): Keys {
    var digest := Sha256(tt);
    var keys := Kdf(digest[16..32], [], Utf8("ConfirmationKeys") + aad);
    Keys(digest[..16], Hmac(Block(keys, 0, 16), tt), Hmac(Block(keys, 16, 32), tt))
  }

  /** What `finish` computes from the peer's share; `own` is the share sent. */
  function Finish(g: Group, role: Role, idA: Data, idB: Data, w: nat, scalar: nat, own: Data, peerShare: Data, aad: Data): Outcome
    requires g.order > 0
  {
    var peer := DecodePeerShare(peerShare, g);
    if peer.None? then Refused
    else
      var k := SharedElement(g, role, w, scalar, peer.value);
      if k == 0 then Refused
      else
        var pA := if role.A? then own else peerShare;
        var pB := if role.A? then peerShare else own;
        Finished(KeySchedule(Transcript(idA, idB, pA, pB, k, w), aad))
  }

  /** One side of an exchange. `New` gives none when the source's constructor throws. */
  class Exchange {
    const g: Group
    const role: Role
    const idA: Data
    const idB: Data
    const w: nat
    const scalar: nat
    const share: Data
    var finished: bool

    ghost predicate Valid()
    {
      g.order > 0 && 0 < w < g.order && 0 < scalar < g.order
      && share == Encode(Share(g, role, w, scalar)) && Share(g, role, w, scalar) != 0
    }

    constructor (g: Group, role: Role, idA: Data, idB: Data, w: nat, scalar: nat)
      requires 0 < w < g.order && 0 < scalar < g.order && Share(g, role, w, scalar) != 0
      ensures Valid() && !finished
      ensures (this.g, this.role, this.idA, this.idB, this.w, this.scalar) == (g, role, idA, idB, w, scalar)
    {
      this.g, this.role, this.idA, this.idB, this.w, this.scalar := g, role, idA, idB, w, scalar;
      share := Encode(Share(g, role, w, scalar));
      finished := false;
    }

    static method New(g: Group, role: Role, idA: Data, idB: Data, w: nat, scalar: nat) returns (r: Option<Exchange>)
      ensures r.Some? <==> 0 < w < g.order && 0 < scalar < g.order && Share(g, role, w, scalar) != 0
      ensures r.Some? ==> fresh(r.value) && r.value.Valid() && !r.value.finished
                          && (r.value.g, r.value.role, r.value.idA, r.value.idB, r.value.w, r.value.scalar)
                               == (g, role, idA, idB, w, scalar)
    {
      if w <= 0 || w >= g.order || scalar <= 0 || scalar >= g.order {
        return None;
      }
      if Share(g, role, w, scalar) == 0 {
        return None;
      }
      var e := new Exchange(g, role, idA, idB, w, scalar);
      r := Some(e);
    }

    /** An exchange finishes once: a second call is refused whatever the share. */
    method FinishWith(peerShare: Data, aad: Data) returns (r: Outcome)
      requires Valid()
      modifies this
      ensures finished
      ensures r == if old(finished) then Refused
                   else Finish(g, role, idA, idB, w, scalar, share, peerShare, aad)
    {
      if finished {
        return Refused;
      }
      finished := true;
      var peer := DecodePeerShare(peerShare, g);
      if peer.None? {
        return Refused;
      }
      var k := SharedElement(g, role, w, scalar, peer.value);
      if k == 0 {
        return Refused;
      }
      var pA := if role.A? then share else peerShare;
      var pB := if role.A? then peerShare else share;
      r := Finished(KeySchedule(Transcript(idA, idB, pA, pB, k, w), aad));
    }
  }
}
