/** IPv4 and IPv6 addresses as bytes, and networks as prefixes of their bits. */
module Addresses {

  type Addr = seq<bv8>

  predicate IsAddr(a: Addr) { |a| == 4 || |a| == 16 }

  function Width(a: Addr): nat { 8 * |a| }

  // ------------------------------------------------------------------ bits

  function BitOf(j: nat): bv8
    requires j < 8
  {
    if j == 0 then 0x80 else if j == 1 then 0x40 else if j == 2 then 0x20 else if j == 3 then 0x10
    else if j == 4 then 0x08 else if j == 5 then 0x04 else if j == 6 then 0x02 else 0x01
  }

  predicate Has(x: bv8, j: nat)
    requires j < 8
  {
    x & BitOf(j) != 0
  }

  lemma {:induction false} HasIs(x: bv8, j: nat)
    requires j < 8
    ensures Has(x, j) <==> (x >> (7 - j)) & 1 == 1
  {
  }

  /** Bit `k`, counted from the most significant one. */
  predicate Bit(a: Addr, k: nat)
    requires k < Width(a)
  {
    Has(a[k / 8], k % 8)
  }

  /** Byte `i` of the mask with `mask` leading ones. */
  function MaskByte(mask: nat, i: nat): bv8 {
    var n := mask - 8 * i;
    if n <= 0 then 0x00
    else if n == 1 then 0x80 else if n == 2 then 0xC0 else if n == 3 then 0xE0 else if n == 4 then 0xF0
    else if n == 5 then 0xF8 else if n == 6 then 0xFC else if n == 7 then 0xFE else 0xFF
  }

  lemma {:induction false} MaskByteBits(mask: nat, i: nat, j: nat)
    requires j < 8
    ensures Has(MaskByte(mask, i), j) <==> 8 * i + j < mask
  {
  }

  function NetPart(x: bv8, mask: nat, i: nat): bv8 { x & MaskByte(mask, i) }

  function HostPart(x: bv8, mask: nat, i: nat): bv8 { x & !MaskByte(mask, i) }

  function Joined(net: bv8, host: bv8): bv8 { net | host }

  lemma {:induction false} AndOrBits(d: bv8, h: bv8, m: bv8, j: nat)
    requires j < 8
    ensures Has((d & m) | (h & !m), j) <==> if Has(m, j) then Has(d, j) else Has(h, j)
    ensures Has(d & m, j) <==> Has(d, j) && Has(m, j)
  {
  }

  lemma {:induction false} SpliceBits(d: bv8, h: bv8, mask: nat, i: nat, j: nat)
    requires j < 8
    ensures Has(NetPart(d, mask, i), j) <==> 8 * i + j < mask && Has(d, j)
    ensures Has(Joined(NetPart(d, mask, i), HostPart(h, mask, i)), j) <==>
      if 8 * i + j < mask then Has(d, j) else Has(h, j)
  {
    MaskByteBits(mask, i, j);
    SpliceVia(d, h, MaskByte(mask, i), NetPart(d, mask, i), HostPart(h, mask, i), j);
  }

  lemma {:induction false} SpliceVia(d: bv8, h: bv8, m: bv8, n: bv8, o: bv8, j: nat)
    requires j < 8 && n == d & m && o == h & !m
    ensures Has(n, j) <==> Has(d, j) && Has(m, j)
    ensures Has(Joined(n, o), j) <==> if Has(m, j) then Has(d, j) else Has(h, j)
  {
    AndOrBits(d, h, m, j);
  }

  lemma ByteBits(x: bv8, y: bv8)
    requires forall j: nat :: j < 8 ==> (Has(x, j) <==> Has(y, j))
    ensures x == y
  {
    assert Has(x, 0) <==> Has(y, 0);
    assert Has(x, 1) <==> Has(y, 1);
    assert Has(x, 2) <==> Has(y, 2);
    assert Has(x, 3) <==> Has(y, 3);
    assert Has(x, 4) <==> Has(y, 4);
    assert Has(x, 5) <==> Has(y, 5);
    assert Has(x, 6) <==> Has(y, 6);
    assert Has(x, 7) <==> Has(y, 7);
  }

  /** Addresses with the same bits are the same. */
  lemma AddrBits(a: Addr, b: Addr)
    requires |a| == |b| && forall k: nat :: k < Width(a) ==> (Bit(a, k) <==> Bit(b, k))
    ensures a == b
  {
    forall i | 0 <= i < |a| ensures a[i] == b[i] {
      forall j: nat | j < 8 ensures Has(a[i], j) <==> Has(b[i], j) {
        assert (8 * i + j) / 8 == i && (8 * i + j) % 8 == j;
        assert Bit(a, 8 * i + j) <==> Bit(b, 8 * i + j);
      }
      ByteBits(a[i], b[i]);
    }
  }

  // -------------------------------------------------------------- networks

  /** The network address of a prefix: host bits cleared. */
  function Masked(a: Addr, mask: nat): Addr { seq(|a|, i requires 0 <= i < |a| => NetPart(a[i], mask, i)) }

  predicate Contains(net: Addr, mask: nat, ip: Addr) {
    |ip| == |net| && forall i :: 0 <= i < |ip| ==> NetPart(net[i], mask, i) == NetPart(ip[i], mask, i)
  }

  /** The addresses of `net/mask`, as the parsed CIDR tests them. */
  predicate InNet(ip: Addr, net: Addr, mask: nat) { Contains(Masked(net, mask), mask, ip) }

  ghost predicate Agree(a: Addr, b: Addr, mask: nat) {
    |a| == |b| && forall k: nat :: k < mask && k < Width(a) ==> (Bit(a, k) <==> Bit(b, k))
  }

  lemma {:induction false} MaskedBits(a: Addr, mask: nat, k: nat)
    requires k < Width(a)
    ensures Bit(Masked(a, mask), k) <==> k < mask && Bit(a, k)
  {
    SpliceBits(a[k / 8], 0, mask, k / 8, k % 8);
  }

  lemma ByteAgrees(x: bv8, y: bv8, mask: nat, i: nat)
    ensures NetPart(x, mask, i) == NetPart(y, mask, i) <==>
      forall j: nat :: j < 8 && 8 * i + j < mask ==> (Has(x, j) <==> Has(y, j))
  {
    var p, q := NetPart(x, mask, i), NetPart(y, mask, i);
    forall j: nat | j < 8
      ensures Has(p, j) <==> 8 * i + j < mask && Has(x, j)
      ensures Has(q, j) <==> 8 * i + j < mask && Has(y, j)
    {
      SpliceBits(x, 0, mask, i, j);
      SpliceBits(y, 0, mask, i, j);
    }
    if forall j: nat :: j < 8 && 8 * i + j < mask ==> (Has(x, j) <==> Has(y, j)) {
      ByteBits(p, q);
    }
  }

  lemma ContainsBits(net: Addr, mask: nat, ip: Addr)
    ensures Contains(net, mask, ip) <==> Agree(net, ip, mask)
  {
    if Contains(net, mask, ip) {
      forall k: nat | k < mask && k < Width(net) ensures Bit(net, k) <==> Bit(ip, k) {
        ByteAgrees(net[k / 8], ip[k / 8], mask, k / 8);
      }
    }
    if Agree(net, ip, mask) {
      forall i | 0 <= i < |ip| ensures NetPart(net[i], mask, i) == NetPart(ip[i], mask, i) {
        forall j: nat | j < 8 && 8 * i + j < mask ensures Has(net[i], j) <==> Has(ip[i], j) {
          var k := 8 * i + j;
          assert k / 8 == i && k % 8 == j;
          assert Bit(net, k) <==> Bit(ip, k);
        }
        ByteAgrees(net[i], ip[i], mask, i);
      }
    }
  }

  /** Membership is agreement on the first `mask` bits. */
  lemma InNetBits(ip: Addr, net: Addr, mask: nat)
    ensures InNet(ip, net, mask) <==> Agree(ip, net, mask)
  {
    ContainsBits(Masked(net, mask), mask, ip);
    forall k: nat | k < Width(net) ensures Bit(Masked(net, mask), k) <==> k < mask && Bit(net, k) {
      MaskedBits(net, mask, k);
    }
  }

  predicate Overlap(a: Addr, m: nat, b: Addr, n: nat) {
    Contains(Masked(a, m), m, Masked(b, n)) || Contains(Masked(b, n), n, Masked(a, m))
  }

  lemma {:induction false} MaskedMember(a: Addr, m: nat)
    ensures InNet(Masked(a, m), a, m)
  {
    InNetBits(Masked(a, m), a, m);
    forall k: nat | k < Width(a) ensures Bit(Masked(a, m), k) <==> k < m && Bit(a, k) {
      MaskedBits(a, m, k);
    }
  }

  lemma {:induction false} OverlapLonger(x: Addr, a: Addr, m: nat, b: Addr, n: nat)
    requires m <= n && InNet(x, a, m) && InNet(x, b, n)
    ensures Contains(Masked(a, m), m, Masked(b, n))
  {
    InNetBits(x, a, m);
    InNetBits(x, b, n);
    ContainsBits(Masked(a, m), m, Masked(b, n));
    forall k: nat | k < m && k < Width(a) ensures Bit(Masked(a, m), k) <==> Bit(Masked(b, n), k) {
      MaskedBits(a, m, k);
      MaskedBits(b, n, k);
      assert Bit(x, k) <==> Bit(a, k);
      assert Bit(x, k) <==> Bit(b, k);
    }
  }

  /** Two networks overlap by the code's test exactly when they share an address. */
  lemma OverlapExact(a: Addr, m: nat, b: Addr, n: nat)
    ensures Overlap(a, m, b, n) <==> exists x :: InNet(x, a, m) && InNet(x, b, n)
  {
    MaskedMember(a, m);
    MaskedMember(b, n);
    if Contains(Masked(a, m), m, Masked(b, n)) { assert InNet(Masked(b, n), a, m); }
    if Contains(Masked(b, n), n, Masked(a, m)) { assert InNet(Masked(a, m), b, n); }
    if x :| InNet(x, a, m) && InNet(x, b, n) {
      if m <= n { OverlapLonger(x, a, m, b, n); } else { OverlapLonger(x, b, n, a, m); }
    }
  }

  // ------------------------------------------------------------- rewriting

  function Rewritten(ip: Addr, dst: Addr, mask: nat): Addr
    requires |ip| == |dst|
  {
    seq(|ip|, i requires 0 <= i < |ip| => Joined(NetPart(dst[i], mask, i), HostPart(ip[i], mask, i)))
  }

  /** Fills the host part and then the result byte by byte. */
  method RewriteBytes(ip: Addr, dst: Addr, mask: nat) returns (r: Addr)
    requires |ip| == |dst|
    ensures r == Rewritten(ip, dst, mask)
  {
    var host := new bv8[|ip|];
    for i := 0 to |ip|
      invariant forall j :: 0 <= j < i ==> host[j] == HostPart(ip[j], mask, j)
    {
      host[i] := HostPart(ip[i], mask, i);
    }
    var result := new bv8[|ip|];
    for i := 0 to |ip|
      invariant forall j :: 0 <= j < |ip| ==> host[j] == HostPart(ip[j], mask, j)
      invariant forall j :: 0 <= j < i ==> result[j] == Joined(NetPart(dst[j], mask, j), host[j])
    {
      result[i] := Joined(NetPart(dst[i], mask, i), host[i]);
    }
    r := result[..];
    assert forall j :: 0 <= j < |ip| ==> r[j] == Rewritten(ip, dst, mask)[j];
  }

  /** The first `mask` bits come from the target, the others stay. */
  lemma {:induction false} RewrittenBits(ip: Addr, dst: Addr, mask: nat, k: nat)
    requires |ip| == |dst| && k < Width(ip)
    ensures Bit(Rewritten(ip, dst, mask), k) <==> if k < mask then Bit(dst, k) else Bit(ip, k)
  {
    SpliceBits(dst[k / 8], ip[k / 8], mask, k / 8, k % 8);
  }

  /** Rewriting lands in the target network, and rewriting back returns the address it came from. */
  lemma {:induction false} RewriteRoundTrip(ip: Addr, src: Addr, dst: Addr, mask: nat)
    requires |dst| == |ip| && InNet(ip, src, mask)
    ensures InNet(Rewritten(ip, dst, mask), dst, mask)
    ensures Rewritten(Rewritten(ip, dst, mask), src, mask) == ip
  {
    var r := Rewritten(ip, dst, mask);
    InNetBits(ip, src, mask);
    InNetBits(r, dst, mask);
    var back := Rewritten(r, src, mask);
    forall k: nat | k < Width(ip) ensures Bit(back, k) <==> Bit(ip, k) {
      RewrittenBits(ip, dst, mask, k);
      RewrittenBits(r, src, mask, k);
    }
    forall k: nat | k < Width(ip) { RewrittenBits(ip, dst, mask, k); }
    AddrBits(back, ip);
  }

  /** Rewriting is a bijection between the two networks: injective, and onto the target. */
  lemma RewriteBijective(src: Addr, dst: Addr, mask: nat)
    requires |src| == |dst|
    ensures forall a, b ::
      InNet(a, src, mask) && InNet(b, src, mask) && Rewritten(a, dst, mask) == Rewritten(b, dst, mask) ==> a == b
    ensures forall y :: InNet(y, dst, mask) ==>
      InNet(Rewritten(y, src, mask), src, mask) && Rewritten(Rewritten(y, src, mask), dst, mask) == y
  {
    forall a, b | InNet(a, src, mask) && InNet(b, src, mask) && Rewritten(a, dst, mask) == Rewritten(b, dst, mask)
      ensures a == b
    {
      RewriteRoundTrip(a, src, dst, mask);
      RewriteRoundTrip(b, src, dst, mask);
    }
    forall y | InNet(y, dst, mask)
      ensures InNet(Rewritten(y, src, mask), src, mask) && Rewritten(Rewritten(y, src, mask), dst, mask) == y
    {
      RewriteRoundTrip(y, dst, src, mask);
    }
  }
}
