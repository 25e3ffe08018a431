/**
 * CIDR blocks and addresses as netaddr's `IPNetwork` presents them. An
 * address is a natural number below 2^32 (IPv4) or 2^128 (IPv6); a block is
 * its first address and its prefix length. Indexing follows
 * `IPNetwork.__getitem__`: index 0 is the first address, index -1 the last.
 */
module Addresses {
  import opened Results
  import opened Text

  function Pow2(n: nat): (r: nat)
    ensures r >= 1
  {
    if n == 0 then 1 else 2 * Pow2(n - 1)
  }

  datatype Family = IPv4 | IPv6

  function Width(f: Family): nat {
    if f == IPv4 then 32 else 128
  }

  /**
   * A CIDR block of prefix length `prefix`: the `index`-th block of that
   * size in its family's address space, so its first address (the network
   * address, host bits clear) is `index * Size`.
   */
  datatype Network = Network(family: Family, index: nat, prefix: nat)

  predicate WellFormed(n: Network) {
    n.prefix <= Width(n.family) && n.index < Pow2(n.prefix)
  }

  type Block = n: Network | WellFormed(n) witness Network(IPv4, 0, 32)

  /** The number of addresses in the block (`IPNetwork.size`). */
  function Size(b: Block): nat {
    Pow2(Width(b.family) - b.prefix)
  }

  /** The network address (`IPNetwork.first`). */
  function First(b: Block): nat {
    b.index * Size(b)
  }

  /** The block's last address (`IPNetwork.last`). */
  function Last(b: Block): nat {
    First(b) + Size(b) - 1
  }

  predicate InBlock(b: Block, a: nat) {
    First(b) <= a <= Last(b)
  }

  /**
   * `network[i]` for an integer index: a negative index counts back from
   * one past the last address; None where netaddr raises IndexError.
   */
  function Index(b: Block, i: int): (r: Option<nat>)
    ensures r.Some? <==> -(Size(b) as int) <= i < Size(b)
    ensures r.Some? ==> InBlock(b, r.value)
  {
    if -(Size(b) as int) <= i < 0 then Some(Last(b) + 1 + i)
    else if 0 <= i < Size(b) then Some(First(b) + i)
    else None
  }

  /** `network[i]` where the index is known to be in range. */
  function At(b: Block, i: int): nat
    requires -(Size(b) as int) <= i < Size(b)
  {
    Index(b, i).value
  }

  /** A negative index names the same address as the index `Size + i`. */
  lemma IndexFromEnd(b: Block, i: int)
    requires -(Size(b) as int) <= i < 0
    ensures Index(b, i) == Index(b, Size(b) + i)
  {
  }

  /**
   * `IPNetwork.netmask` as a number: the prefix bits set, the host bits
   * clear.
   */
  function Netmask(b: Block): nat {
    Pow2Monotone(Width(b.family) - b.prefix, Width(b.family));
    Pow2(Width(b.family)) - Size(b)
  }

  lemma {:induction false} Pow2Add(m: nat, n: nat)
    ensures Pow2(m + n) == Pow2(m) * Pow2(n)
  {
    if m > 0 {
      Pow2Add(m - 1, n);
    }
  }

  /** The powers the IPv4 text form divides by. */
  lemma Pow2Octets()
    ensures Pow2(8) == 256 && Pow2(16) == 65536 && Pow2(24) == 16777216 && Pow2(32) == 4294967296
  {
    assert Pow2(2) == 4;
    Pow2Add(2, 2);
    Pow2Add(4, 4);
    Pow2Add(8, 8);
    Pow2Add(16, 8);
    Pow2Add(16, 16);
  }

  lemma {:induction false} Pow2Monotone(m: nat, n: nat)
    requires m <= n
    ensures Pow2(m) <= Pow2(n)
  {
    if m < n {
      Pow2Monotone(m, n - 1);
    }
  }

  /**
   * `list(network.subnet(prefixlen + 1))[0]`: the lower of the two halves
   * the block splits into at the next prefix length.
   */
  function LowerHalf(b: Block): (h: Block)
    requires b.prefix < Width(b.family)
    ensures h.family == b.family && h.prefix == b.prefix + 1
    ensures 2 * Size(h) == Size(b) && First(h) == First(b)
  {
    var w := Width(b.family);
    var half := Pow2(w - (b.prefix + 1));
    assert Pow2(w - b.prefix) == 2 * half;
    assert (2 * b.index) * half == b.index * (2 * half);
    Network(b.family, 2 * b.index, b.prefix + 1)
  }

  /** A block of at least two addresses is not a host route. */
  lemma PrefixBelowWidth(b: Block)
    requires Size(b) >= 2
    ensures b.prefix < Width(b.family)
  {
  }

  /**
   * The lower half holds exactly the addresses of the block below its
   * midpoint, and its mask has one more prefix bit.
   */
  lemma LowerHalfInside(b: Block, a: nat)
    requires b.prefix < Width(b.family)
    ensures InBlock(LowerHalf(b), a) <==> InBlock(b, a) && a < First(b) + Size(b) / 2
    ensures Netmask(LowerHalf(b)) == Netmask(b) + Size(b) / 2
  {
  }

  // ---------------------------------------------------------------------
  // text forms

  /** The IPv4 address with octets a.b.c.d. */
  function Quad(a: nat, b: nat, c: nat, d: nat): nat {
    a * 16777216 + b * 65536 + c * 256 + d
  }

  /** `str(IPAddress)` for IPv4: four decimal octets joined by dots, most significant first. */
  function DottedQuad(n: nat): string {
    var q1 := n / 256;
    var q2 := q1 / 256;
    var q3 := q2 / 256;
    NatToString(q3 % 256) + "." + NatToString(q2 % 256) + "." + NatToString(q1 % 256) + "." + NatToString(n % 256)
  }

  /** The text form of a.b.c.d spells out its four octets. */
  lemma DottedQuadOctets(a: nat, b: nat, c: nat, d: nat)
    requires a < 256 && b < 256 && c < 256 && d < 256
    ensures DottedQuad(Quad(a, b, c, d))
            == NatToString(a) + "." + NatToString(b) + "." + NatToString(c) + "." + NatToString(d)
  {
    var n := Quad(a, b, c, d);
    var abc := a * 65536 + b * 256 + c;
    var ab := a * 256 + b;
    assert n == abc * 256 + d;
    assert abc == ab * 256 + c;
    DivMod256(n, abc, d);
    DivMod256(abc, ab, c);
    DivMod256(ab, a, b);
    DivMod256(a, 0, a);
  }

  lemma DivMod256(x: nat, q: nat, r: nat)
    requires x == q * 256 + r && r < 256
    ensures x / 256 == q && x % 256 == r
  {
  }

  function HexDigit(d: nat): char
    requires d < 16
  {
    if d < 10 then ('0' as int + d) as char else ('a' as int + d - 10) as char
  }

  /** Four lower-case hex digits of a 16-bit group. */
  function Hex4(g: nat): string {
    [HexDigit(g / 4096 % 16), HexDigit(g / 256 % 16), HexDigit(g / 16 % 16), HexDigit(g % 16)]
  }

  /** An IPv6 address as eight colon-separated groups of four hex digits. */
  function Exploded(n: nat): string {
    Join([Hex4(n / Pow2(112) % 65536), Hex4(n / Pow2(96) % 65536),
          Hex4(n / Pow2(80) % 65536), Hex4(n / Pow2(64) % 65536),
          Hex4(n / Pow2(48) % 65536), Hex4(n / Pow2(32) % 65536),
          Hex4(n / Pow2(16) % 65536), Hex4(n % 65536)], ':')
  }

  function Render(f: Family, n: nat): string {
    if f == IPv4 then DottedQuad(n) else Exploded(n)
  }
}
