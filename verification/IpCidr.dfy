/** IPv4 blocks of `src/lib/ip-cidr.ts`, on address numbers: membership is the range test of the source,
    and is proved to be equality of the leading bits (section 3.1 of RFC 4632). */
module IpCidr {
  type Ip = n: int | 0 <= n < 0x1_0000_0000

  /** A CIDR as it is written: the address need not be the network address. */
  datatype Cidr = Cidr(address: Ip, prefix: nat)

  /** The range of addresses a pool hands out, and the router's own address. */
  datatype Pool = Pool(start: Ip, end: Ip, gateway: Ip)

  predicate InRange(p: Pool, ip: Ip) {
    p.start <= ip <= p.end
  }

  predicate WellFormed(c: Cidr) {
    c.prefix <= 32
  }

  function Pow2(k: nat): (r: nat)
    ensures r > 0
  {
    if k == 0 then 1 else 2 * Pow2(k - 1)
  }

  function Size(c: Cidr): (r: nat)
    requires WellFormed(c)
    ensures r > 0
  {
    Pow2(32 - c.prefix)
  }

  function NetworkNumber(c: Cidr): int
    requires WellFormed(c)
  {
    c.address / Size(c) * Size(c)
  }

  function BroadcastNumber(c: Cidr): int
    requires WellFormed(c)
  {
    NetworkNumber(c) + Size(c) - 1
  }

  predicate Contains(c: Cidr, ip: Ip)
    requires WellFormed(c)
  {
    NetworkNumber(c) <= ip <= BroadcastNumber(c)
  }

  predicate Overlap(a: Cidr, b: Cidr)
    requires WellFormed(a) && WellFormed(b)
  {
    NetworkNumber(a) <= BroadcastNumber(b) && NetworkNumber(b) <= BroadcastNumber(a)
  }

  /** One entry of an `allowed-address` list; entries that do not parse own nothing. */
  datatype Allowed = Block(cidr: Cidr) | Unparsed(text: string)

  predicate AllowedOwnsIp(entries: seq<Allowed>, ip: Ip) {
    exists i :: 0 <= i < |entries| && entries[i].Block? && WellFormed(entries[i].cidr) && Contains(entries[i].cidr, ip)
  }

  // ---------------------------------------------------------------------------------------------
  // Leading bits

  /** Bit `i` of an address, counted from the most significant one. */
  function LeadingBit(ip: Ip, i: nat): nat
    requires i < 32
  {
    ip / Pow2(31 - i) % 2
  }

  predicate SameLeadingBits(a: Ip, b: Ip, n: nat)
    requires n <= 32
  {
    forall i :: 0 <= i < n ==> LeadingBit(a, i) == LeadingBit(b, i)
  }

  lemma MulMonotone(a: int, b: int, d: int)
    requires d > 0
    ensures a <= b ==> a * d <= b * d
  {
  }

  lemma DivBounds(x: int, d: int)
    requires d > 0
    ensures x / d * d <= x < x / d * d + d
  {
  }

  lemma DivUnique(x: int, d: int, q: int)
    requires d > 0 && q * d <= x < q * d + d
    ensures x / d == q
  {
    var r := x / d;
    DivBounds(x, d);
    assert (q + 1) * d == q * d + d && (r + 1) * d == r * d + d;
    MulMonotone(r + 1, q, d);
    MulMonotone(q + 1, r, d);
  }

  lemma ContainsIsSameQuotient(c: Cidr, ip: Ip)
    requires WellFormed(c)
    ensures Contains(c, ip) <==> ip / Size(c) == c.address / Size(c)
  {
    var d, q := Size(c), c.address / Size(c);
    DivBounds(ip, d);
    if Contains(c, ip) { DivUnique(ip, d, q); }
  }

  lemma HalveQuotient(x: int, d: int)
    requires d > 0
    ensures x / d / 2 == x / (2 * d)
  {
    var h := x / d;
    DivBounds(x, d);
    assert h / 2 * (2 * d) == h / 2 * 2 * d;
    MulMonotone(h / 2 * 2, h, d);
    MulMonotone(h + 1, h / 2 * 2 + 2, d);
    assert (h + 1) * d == h * d + d && (h / 2 * 2 + 2) * d == h / 2 * 2 * d + 2 * d;
    DivUnique(x, 2 * d, h / 2);
  }

  lemma {:induction false} PowSum(a: nat, b: nat)
    ensures Pow2(a) * Pow2(b) == Pow2(a + b)
  {
    if a > 0 { PowSum(a - 1, b); }
  }

  lemma Pow2Of32()
    ensures Pow2(32) == 0x1_0000_0000
  {
    assert Pow2(8) == 0x100;
    PowSum(8, 8);
    PowSum(16, 16);
  }

  lemma OneMoreBit(a: Ip, b: Ip, n: nat)
    requires n < 32
    ensures a / Pow2(31 - n) == b / Pow2(31 - n)
       <==> a / Pow2(32 - n) == b / Pow2(32 - n) && LeadingBit(a, n) == LeadingBit(b, n)
  {
    var d := Pow2(31 - n);
    HalveQuotient(a, d);
    HalveQuotient(b, d);
    var x, y := a / d, b / d;
    assert x == x / 2 * 2 + x % 2 && y == y / 2 * 2 + y % 2;
  }

  /** Equal quotients by the block size are equal leading bits. */
  lemma {:induction false} QuotientIsLeadingBits(a: Ip, b: Ip, n: nat)
    requires n <= 32
    ensures a / Pow2(32 - n) == b / Pow2(32 - n) <==> SameLeadingBits(a, b, n)
  {
    if n == 0 {
      Pow2Of32();
    } else {
      QuotientIsLeadingBits(a, b, n - 1);
      OneMoreBit(a, b, n - 1);
    }
  }

  /** The range test of the source is prefix matching. */
  lemma ContainsIsPrefixMatch(c: Cidr, ip: Ip)
    requires WellFormed(c)
    ensures Contains(c, ip) <==> SameLeadingBits(c.address, ip, c.prefix)
  {
    ContainsIsSameQuotient(c, ip);
    QuotientIsLeadingBits(c.address, ip, c.prefix);
  }

  // ---------------------------------------------------------------------------------------------
  // Blocks are nested or disjoint

  predicate Within(inner: Cidr, outer: Cidr)
    requires WellFormed(inner) && WellFormed(outer)
  {
    forall ip: Ip :: Contains(inner, ip) ==> Contains(outer, ip)
  }

  lemma BlockFits(x: int, d: int, p: int)
    requires d > 0 && 0 <= x < p * d
    ensures 0 <= x / d * d && x / d * d + d <= p * d
  {
    var q := x / d;
    DivBounds(x, d);
    MulMonotone(p, q, d);
    MulMonotone(q + 1, p, d);
    MulMonotone(0, q, d);
    assert (q + 1) * d == q * d + d;
  }

  lemma EdgesAreAddresses(c: Cidr)
    requires WellFormed(c)
    ensures 0 <= NetworkNumber(c) <= c.address <= BroadcastNumber(c) < 0x1_0000_0000
  {
    PowSum(c.prefix, 32 - c.prefix);
    Pow2Of32();
    BlockFits(c.address, Size(c), Pow2(c.prefix));
    DivBounds(c.address, Size(c));
  }

  lemma NestedWhenSharing(inner: Cidr, outer: Cidr, shared: Ip)
    requires WellFormed(inner) && WellFormed(outer) && outer.prefix <= inner.prefix
    requires Contains(inner, shared) && Contains(outer, shared)
    ensures Within(inner, outer)
  {
    ContainsIsPrefixMatch(inner, shared);
    ContainsIsPrefixMatch(outer, shared);
    forall ip: Ip | Contains(inner, ip) ensures Contains(outer, ip) {
      ContainsIsPrefixMatch(inner, ip);
      ContainsIsPrefixMatch(outer, ip);
    }
  }

  /** Two blocks overlap exactly when one of them contains the other. */
  lemma OverlapIsNesting(a: Cidr, b: Cidr)
    requires WellFormed(a) && WellFormed(b)
    ensures Overlap(a, b) <==> Within(a, b) || Within(b, a)
  {
    EdgesAreAddresses(a);
    EdgesAreAddresses(b);
    if Overlap(a, b) {
      var shared: Ip := if NetworkNumber(a) <= NetworkNumber(b) then NetworkNumber(b) else NetworkNumber(a);
      if b.prefix <= a.prefix { NestedWhenSharing(a, b, shared); } else { NestedWhenSharing(b, a, shared); }
    }
    if Within(a, b) { assert Contains(b, a.address); }
    if Within(b, a) { assert Contains(a, b.address); }
  }
}
