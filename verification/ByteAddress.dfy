/**
 Network addresses of byte-wise addresses (libcaf_core/caf/byte_address.hpp):
 masking keeps the leading bits, as for the prefixes of section 3.1 of RFC 4632.
 */
module ByteAddress {
  import opened Basics

  /** The mask that keeps the first `r` bits of a byte. */
  function Netmask(r: nat): bv8
    requires r < 8
  {
    [0x00, 0x80, 0xC0, 0xE0, 0xF0, 0xF8, 0xFC, 0xFE][r]
  }

  /** Bit `j` of a byte, counted from the most significant one. */
  predicate Bit(b: bv8, j: nat)
    requires j < 8
  {
    b & [0x80, 0x40, 0x20, 0x10, 0x08, 0x04, 0x02, 0x01][j] != 0
  }

  /** Bit `k` of an address. */
  predicate BitAt(a: seq<bv8>, k: nat)
    requires k < 8 * |a|
  {
    Bit(a[k / 8], k % 8)
  }

  lemma SameBits(x: bv8, y: bv8)
    requires forall j :: 0 <= j < 8 ==> (Bit(x, j) <==> Bit(y, j))
    ensures x == y
  {
    assert Bit(x, 0) == Bit(y, 0) && Bit(x, 1) == Bit(y, 1) && Bit(x, 2) == Bit(y, 2) && Bit(x, 3) == Bit(y, 3);
    assert Bit(x, 4) == Bit(y, 4) && Bit(x, 5) == Bit(y, 5) && Bit(x, 6) == Bit(y, 6) && Bit(x, 7) == Bit(y, 7);
  }

  // -- whole addresses --------------------------------------------------------

  function And(x: seq<bv8>, y: seq<bv8>): seq<bv8>
    requires |x| == |y|
  {
    seq(|x|, i requires 0 <= i < |x| => x[i] & y[i])
  }

  /** Byte `i` of the mask for prefix length `p`. */
  function MaskByte(p: nat, i: nat): bv8 {
    if i < p / 8 then 0xFF else if i == p / 8 then Netmask(p % 8) else 0x00
  }

  function Mask(n: nat, p: nat): seq<bv8> {
    seq(n, i requires 0 <= i < n => MaskByte(Min(p, 8 * n), i))
  }

  /** The address with all bits after the first `p` cleared; longer prefixes keep all bits. */
  function Masked(a: seq<bv8>, p: nat): seq<bv8> {
    And(a, Mask(|a|, p))
  }

  /** Masking keeps exactly the first `p` bits. */
  lemma KeepsLeadingBits(a: seq<bv8>, p: nat, k: nat)
    requires k < 8 * |a|
    ensures |Masked(a, p)| == |a|
    ensures BitAt(Masked(a, p), k) <==> k < p && BitAt(a, k)
  {
  }

  lemma SameAddress(a: seq<bv8>, b: seq<bv8>)
    requires |a| == |b| && forall k :: 0 <= k < 8 * |a| ==> (BitAt(a, k) <==> BitAt(b, k))
    ensures a == b
  {
    forall i | 0 <= i < |a| ensures a[i] == b[i] {
      forall j | 0 <= j < 8 ensures Bit(a[i], j) <==> Bit(b[i], j) {
        assert (8 * i + j) / 8 == i && (8 * i + j) % 8 == j;
        assert BitAt(a, 8 * i + j) <==> BitAt(b, 8 * i + j);
      }
      SameBits(a[i], b[i]);
    }
  }

  /** Two addresses lie in the same network exactly when they agree on the first `p` bits. */
  lemma SameNetworkIffSamePrefix(a: seq<bv8>, b: seq<bv8>, p: nat)
    requires |a| == |b|
    ensures Masked(a, p) == Masked(b, p)
       <==> forall k :: 0 <= k < 8 * |a| && k < p ==> (BitAt(a, k) <==> BitAt(b, k))
  {
    var x, y := Masked(a, p), Masked(b, p);
    forall k | 0 <= k < 8 * |a|
      ensures BitAt(x, k) <==> k < p && BitAt(a, k)
      ensures BitAt(y, k) <==> k < p && BitAt(b, k)
    {
      KeepsLeadingBits(a, p, k);
      KeepsLeadingBits(b, p, k);
    }
    if forall k :: 0 <= k < 8 * |a| && k < p ==> (BitAt(a, k) <==> BitAt(b, k)) {
      SameAddress(x, y);
    }
  }

  /** Masking twice keeps the shorter prefix. */
  lemma MaskingComposes(a: seq<bv8>, p: nat, q: nat)
    ensures Masked(Masked(a, p), q) == Masked(a, Min(p, q))
  {
    var x, y := Masked(Masked(a, p), q), Masked(a, Min(p, q));
    forall k | 0 <= k < 8 * |a| ensures BitAt(x, k) <==> BitAt(y, k) {
      KeepsLeadingBits(a, p, k);
      KeepsLeadingBits(Masked(a, p), q, k);
      KeepsLeadingBits(a, Min(p, q), k);
    }
    SameAddress(x, y);
  }

  // -- in place ---------------------------------------------------------------

  /** `buf &= other`, byte by byte; both may be the same address. */
  method AndAssign(buf: array<bv8>, other: array<bv8>)
    requires buf.Length == other.Length
    modifies buf
    ensures buf[..] == And(old(buf[..]), old(other[..]))
  {
    for i := 0 to buf.Length
      invariant forall k :: 0 <= k < i ==> buf[k] == old(buf[k]) & old(other[k])
      invariant forall k :: i <= k < buf.Length ==> buf[k] == old(buf[k]) && other[k] == old(other[k])
    {
      buf[i] := buf[i] & other[i];
    }
  }

  method NetworkAddress(a: array<bv8>, prefixLength: nat) returns (result: array<bv8>)
    ensures fresh(result) && result[..] == Masked(a[..], prefixLength)
  {
    var n := a.Length;
    var p := Min(prefixLength, n * 8);
    var netmask := new bv8[n](_ => 0x00);
    var i := 0;
    while i < p / 8
      invariant i <= p / 8 <= n
      invariant forall k :: 0 <= k < n ==> netmask[k] == if k < i then 0xFF else 0x00
    {
      netmask[i] := 0xFF;
      i := i + 1;
    }
    if p % 8 != 0 {
      netmask[i] := Netmask(p % 8);
    }
    assert netmask[..] == Mask(n, prefixLength);
    result := new bv8[n](k requires 0 <= k < n reads a => a[k]);
    assert result[..] == a[..];
    AndAssign(result, netmask);
  }
}
