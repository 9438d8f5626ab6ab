/** Which addresses a request to an agent's URL may reach, over any redirects. */
module Outbound {
  import opened Prelude

  type Octet = n: nat | n < 256
  type Segment = n: nat | n < 0x1_0000

  datatype Ip =
    | V4(a: Octet, b: Octet, c: Octet, d: Octet)
    | V6(s0: Segment, s1: Segment, s2: Segment, s3: Segment, s4: Segment, s5: Segment, s6: Segment, s7: Segment)

  datatype Class = Public | Private | Never

  datatype Policy = Policy(allowPrivate: bool) {
    predicate Allows(ip: Ip) {
      match Classify(ip)
      case Public => true
      case Private => allowPrivate
      case Never => false
    }
  }

  // ─── Classes ─────────────────────────────────────────────

  function Classify(ip: Ip): Class {
    if ip.V4? then ClassifyV4(ip) else ClassifyV6(ip)
  }

  predicate IsDocumentation(ip: Ip)
    requires ip.V4?
  {
    || (ip.a == 192 && ip.b == 0 && ip.c == 2)
    || (ip.a == 198 && ip.b == 51 && ip.c == 100)
    || (ip.a == 203 && ip.b == 0 && ip.c == 113)
  }

  function ClassifyV4(ip: Ip): Class
    requires ip.V4?
  {
    if ip == V4(100, 100, 100, 200) || ip == V4(168, 63, 129, 16) then Never
    else if
      || ip.a == 0
      || (ip.a == 169 && ip.b == 254)
      || 224 <= ip.a <= 239
      || ip == V4(255, 255, 255, 255)
      || ip.a >= 240
      || (ip.a == 192 && ip.b == 0 && ip.c == 0)
      || IsDocumentation(ip)
    then Never
    else if
      || ip.a == 127
      || ip.a == 10 || (ip.a == 172 && 16 <= ip.b <= 31) || (ip.a == 192 && ip.b == 168)
      || (ip.a == 100 && 64 <= ip.b < 128)
      || (ip.a == 198 && (ip.b == 18 || ip.b == 19))
    then Private
    else Public
  }

  /** An IPv4 address in two segments. */
  function Embedded(hi: Segment, lo: Segment): Ip {
    V4(hi / 256, hi % 256, lo / 256, lo % 256)
  }

  predicate IsLoopback(ip: Ip)
    requires ip.V6?
  {
    ip == V6(0, 0, 0, 0, 0, 0, 0, 1)
  }

  function ClassifyV6(ip: Ip): Class
    requires ip.V6?
  {
    if ip.s0 == ip.s1 == ip.s2 == ip.s3 == ip.s4 == 0 && ip.s5 == 0xffff then ClassifyV4(Embedded(ip.s6, ip.s7))
    else if ip.s0 == 0x64 && ip.s1 == 0xff9b && ip.s2 == ip.s3 == ip.s4 == ip.s5 == 0 then
      ClassifyV4(Embedded(ip.s6, ip.s7))
    else if ip.s0 == 0x2002 then ClassifyV4(Embedded(ip.s1, ip.s2))
    else if ip == V6(0xfd00, 0x0ec2, 0, 0, 0, 0, 0, 0x0254) then Never
    else if
      || ip == V6(0, 0, 0, 0, 0, 0, 0, 0)
      || ip.s0 / 0x100 == 0xff
      || ip.s0 / 0x40 == 0xfe80 / 0x40
      || (ip.s0 == 0x2001 && ip.s1 == 0x0db8)
      || (ip.s0 == 0x2001 && ip.s1 == 0)
      || (ip.s0 == 0x0100 && ip.s1 == ip.s2 == ip.s3 == 0)
      || (ip.s0 == ip.s1 == ip.s2 == ip.s3 == ip.s4 == ip.s5 == 0 && !IsLoopback(ip))
    then Never
    else if IsLoopback(ip) || ip.s0 / 0x200 == 0xfc00 / 0x200 || ip.s0 / 0x40 == 0xfec0 / 0x40 then Private
    else Public
  }

  // ─── Against the registries' ranges ──────────────────────

  function Number(ip: Ip): nat
    requires ip.V4?
  {
    ((ip.a * 256 + ip.b) * 256 + ip.c) * 256 + ip.d
  }

  /** The addresses that share the first `bits` bits with `base`. */
  datatype Block = Block(base: Ip, bits: nat)

  function Size(bits: nat): nat {
    match bits
    case 4 => 0x1000_0000
    case 8 => 0x100_0000
    case 10 => 0x40_0000
    case 12 => 0x10_0000
    case 15 => 0x2_0000
    case 16 => 0x1_0000
    case 24 => 0x100
    case _ => 1
  }

  predicate Within(ip: Ip, block: Block)
    requires ip.V4? && block.base.V4?
  {
    Number(block.base) <= Number(ip) < Number(block.base) + Size(block.bits)
  }

  /** Two metadata addresses, and the blocks that are nobody's to call. */
  predicate InNeverBlock(ip: Ip)
    requires ip.V4?
  {
    || Within(ip, Block(V4(100, 100, 100, 200), 32)) || Within(ip, Block(V4(168, 63, 129, 16), 32))
    || Within(ip, Block(V4(0, 0, 0, 0), 8)) || Within(ip, Block(V4(169, 254, 0, 0), 16))
    || Within(ip, Block(V4(224, 0, 0, 0), 4)) || Within(ip, Block(V4(240, 0, 0, 0), 4))
    || Within(ip, Block(V4(192, 0, 0, 0), 24)) || Within(ip, Block(V4(192, 0, 2, 0), 24))
    || Within(ip, Block(V4(198, 51, 100, 0), 24)) || Within(ip, Block(V4(203, 0, 113, 0), 24))
  }

  /** Loopback, private, carrier-grade NAT and benchmarking blocks. */
  predicate InPrivateBlock(ip: Ip)
    requires ip.V4?
  {
    || Within(ip, Block(V4(127, 0, 0, 0), 8)) || Within(ip, Block(V4(10, 0, 0, 0), 8))
    || Within(ip, Block(V4(172, 16, 0, 0), 12)) || Within(ip, Block(V4(192, 168, 0, 0), 16))
    || Within(ip, Block(V4(100, 64, 0, 0), 10)) || Within(ip, Block(V4(198, 18, 0, 0), 15))
  }

  lemma WideBlock(ip: Ip, a: Octet, bits: nat)
    requires ip.V4? && (bits == 8 || (bits == 4 && a <= 240))
    ensures Within(ip, Block(V4(a, 0, 0, 0), bits)) <==> a <= ip.a < a + if bits == 4 then 16 else 1
  {}

  lemma MiddleBlock(ip: Ip, a: Octet, b: Octet, bits: nat)
    requires ip.V4? && (bits == 16 || (bits == 15 && b <= 254) || (bits == 12 && b <= 240) || (bits == 10 && b <= 192))
    ensures Within(ip, Block(V4(a, b, 0, 0), bits)) <==>
      ip.a == a && b <= ip.b < b + if bits == 16 then 1 else if bits == 15 then 2 else if bits == 12 then 16 else 64
  {}

  lemma NarrowBlock(ip: Ip, a: Octet, b: Octet, c: Octet)
    requires ip.V4?
    ensures Within(ip, Block(V4(a, b, c, 0), 24)) <==> ip.a == a && ip.b == b && ip.c == c
  {}

  lemma OneAddress(ip: Ip, base: Ip)
    requires ip.V4? && base.V4?
    ensures Within(ip, Block(base, 32)) <==> ip == base
  {}

  lemma NeverIsItsBlocks(ip: Ip)
    requires ip.V4?
    ensures ClassifyV4(ip).Never? <==> InNeverBlock(ip)
  {
    OneAddress(ip, V4(100, 100, 100, 200));
    OneAddress(ip, V4(168, 63, 129, 16));
    WideBlock(ip, 0, 8);
    MiddleBlock(ip, 169, 254, 16);
    WideBlock(ip, 224, 4);
    WideBlock(ip, 240, 4);
    NarrowBlock(ip, 192, 0, 0);
    NarrowBlock(ip, 192, 0, 2);
    NarrowBlock(ip, 198, 51, 100);
    NarrowBlock(ip, 203, 0, 113);
  }

  lemma PrivateIsItsBlocks(ip: Ip)
    requires ip.V4?
    ensures InPrivateBlock(ip) && !ClassifyV4(ip).Never? <==> ClassifyV4(ip).Private?
  {
    WideBlock(ip, 127, 8);
    WideBlock(ip, 10, 8);
    MiddleBlock(ip, 172, 16, 12);
    MiddleBlock(ip, 192, 168, 16);
    MiddleBlock(ip, 100, 64, 10);
    MiddleBlock(ip, 198, 18, 15);
  }

  /** The octet tests are exactly the address blocks. */
  lemma V4ClassIsItsBlock(ip: Ip)
    requires ip.V4?
    ensures ClassifyV4(ip) == if InNeverBlock(ip) then Never else if InPrivateBlock(ip) then Private else Public
  {
    NeverIsItsBlocks(ip);
    PrivateIsItsBlocks(ip);
  }

  // ─── IPv4 inside IPv6 ────────────────────────────────────

  function High(ip: Ip): Segment
    requires ip.V4?
  {
    ip.a * 256 + ip.b
  }

  function Low(ip: Ip): Segment
    requires ip.V4?
  {
    ip.c * 256 + ip.d
  }

  /** Section 2.5.5.2 of RFC 4291. */
  function Mapped(ip: Ip): Ip
    requires ip.V4?
  {
    V6(0, 0, 0, 0, 0, 0xffff, High(ip), Low(ip))
  }

  /** The well-known prefix of section 2.1 of RFC 6052. */
  function Nat64(ip: Ip): Ip
    requires ip.V4?
  {
    V6(0x64, 0xff9b, 0, 0, 0, 0, High(ip), Low(ip))
  }

  /** Section 2 of RFC 3056; the rest is the site's own. */
  function SixToFour(ip: Ip, s3: Segment, s4: Segment, s5: Segment, s6: Segment, s7: Segment): Ip
    requires ip.V4?
  {
    V6(0x2002, High(ip), Low(ip), s3, s4, s5, s6, s7)
  }

  lemma EmbeddedIsItself(ip: Ip)
    requires ip.V4?
    ensures Embedded(High(ip), Low(ip)) == ip
  {}

  /** An embedded address is judged as what it embeds. */
  lemma EmbeddedIsJudged(hi: Segment, lo: Segment, s3: Segment, s4: Segment, s5: Segment, s6: Segment, s7: Segment)
    ensures ClassifyV6(V6(0, 0, 0, 0, 0, 0xffff, hi, lo)) == ClassifyV4(Embedded(hi, lo))
    ensures ClassifyV6(V6(0x64, 0xff9b, 0, 0, 0, 0, hi, lo)) == ClassifyV4(Embedded(hi, lo))
    ensures ClassifyV6(V6(0x2002, hi, lo, s3, s4, s5, s6, s7)) == ClassifyV4(Embedded(hi, lo))
  {}

  /** However an IPv4 address is written as IPv6, it is judged as itself. */
  lemma EmbeddingKeepsTheClass(ip: Ip, s3: Segment, s4: Segment, s5: Segment, s6: Segment, s7: Segment)
    requires ip.V4?
    ensures Classify(Mapped(ip)) == Classify(ip)
    ensures Classify(Nat64(ip)) == Classify(ip)
    ensures Classify(SixToFour(ip, s3, s4, s5, s6, s7)) == Classify(ip)
  {
    EmbeddedIsItself(ip);
    EmbeddedIsJudged(High(ip), Low(ip), s3, s4, s5, s6, s7);
  }

  // ─── IPv6 ranges ─────────────────────────────────────────

  const P32: nat := 0x1_0000_0000
  const P64: nat := 0x1_0000_0000_0000_0000
  const P80: nat := 0x1_0000_0000_0000_0000_0000
  const P96: nat := 0x1_0000_0000_0000_0000_0000_0000
  const P112: nat := 0x1_0000_0000_0000_0000_0000_0000_0000

  /** Four segments as a number. */
  function Half(a: Segment, b: Segment, c: Segment, d: Segment): (n: nat)
    ensures n < P64
  {
    ((a * 0x1_0000 + b) * 0x1_0000 + c) * 0x1_0000 + d
  }

  function Upper(ip: Ip): nat
    requires ip.V6?
  {
    Half(ip.s0, ip.s1, ip.s2, ip.s3)
  }

  function Lower64(ip: Ip): nat
    requires ip.V6?
  {
    Half(ip.s4, ip.s5, ip.s6, ip.s7)
  }

  /** The address as its 128-bit number. */
  function Number6(ip: Ip): nat
    requires ip.V6?
  {
    Upper(ip) * P64 + Lower64(ip)
  }

  /** The `size` addresses from `base` on. */
  predicate InRange(ip: Ip, base: nat, size: nat)
    requires ip.V6?
  {
    base <= Number6(ip) < base + size
  }

  /** A range of a 64-bit prefix or shorter is one of the upper half. */
  lemma UpperRange(ip: Ip, base: nat, size: nat)
    requires ip.V6?
    ensures InRange(ip, base * P64, size * P64) <==> base <= Upper(ip) < base + size
  {}

  /** fe80::/10 and the like: some of the first segment's bits. */
  lemma FirstSegment(ip: Ip, a: nat, count: nat)
    requires ip.V6?
    ensures InRange(ip, a * P112, count * P112) <==> a <= ip.s0 < a + count
  {
    UpperRange(ip, a * 0x1_0000_0000_0000, count * 0x1_0000_0000_0000);
    assert a * 0x1_0000_0000_0000 * P64 == a * P112 && count * 0x1_0000_0000_0000 * P64 == count * P112;
  }

  /** 2001:db8::/32 and the like: the first two segments. */
  lemma TwoSegments(ip: Ip, a: Segment, b: Segment)
    requires ip.V6?
    ensures InRange(ip, a * P112 + b * P96, P96) <==> ip.s0 == a && ip.s1 == b
  {
    UpperRange(ip, a * 0x1_0000_0000_0000 + b * P32, P32);
    assert (a * 0x1_0000_0000_0000 + b * P32) * P64 == a * P112 + b * P96;
  }

  /** 100::/64: the upper half. */
  lemma UpperHalf(ip: Ip, a: Segment)
    requires ip.V6?
    ensures InRange(ip, a * P112, P64) <==> ip.s0 == a && ip.s1 == ip.s2 == ip.s3 == 0
  {
    UpperRange(ip, a * 0x1_0000_0000_0000, 1);
    assert a * 0x1_0000_0000_0000 * P64 == a * P112;
  }

  /** The six segments of a /96. */
  lemma SixSegments(ip: Ip, a: Segment, b: Segment, f: Segment)
    requires ip.V6?
    ensures InRange(ip, a * P112 + b * P96 + f * P32, P32) <==>
      ip.s0 == a && ip.s1 == b && ip.s2 == ip.s3 == ip.s4 == 0 && ip.s5 == f
    ensures InRange(ip, a * P112 + b * P96 + f * P32, P32) ==>
      Number6(ip) - (a * P112 + b * P96 + f * P32) == ip.s6 * 0x1_0000 + ip.s7
  {
    var upper := a * 0x1_0000_0000_0000 + b * P32;
    assert upper * P64 == a * P112 + b * P96 && upper < P64;
    SameUpper(Upper(ip), Lower64(ip), upper, f * P32);
    UpperIs(ip, a, b);
    LowerIs(ip, f);
  }

  lemma UpperIs(ip: Ip, a: Segment, b: Segment)
    requires ip.V6?
    ensures Upper(ip) == a * 0x1_0000_0000_0000 + b * P32 <==> ip.s0 == a && ip.s1 == b && ip.s2 == ip.s3 == 0
  {}

  lemma LowerIs(ip: Ip, f: Segment)
    requires ip.V6?
    ensures f * P32 <= Lower64(ip) < f * P32 + P32 <==> ip.s4 == 0 && ip.s5 == f
    ensures ip.s4 == 0 && ip.s5 == f ==> Lower64(ip) - f * P32 == ip.s6 * 0x1_0000 + ip.s7
  {}

  lemma SameUpper(hi: nat, lo: nat, a: nat, b: nat)
    requires lo < P64 && b + P32 <= P64
    ensures a * P64 + b <= hi * P64 + lo < a * P64 + b + P32 <==> hi == a && b <= lo < b + P32
  {}

  /** One address. */
  lemma OneV6(ip: Ip, base: Ip)
    requires ip.V6? && base.V6?
    ensures InRange(ip, Number6(base), 1) <==> ip == base
  {
    assert Upper(ip) == Upper(base) && Lower64(ip) == Lower64(base) ==> ip == base;
  }

  /** The IPv4 address with this number. */
  function V4At(n: nat): Ip
    requires n < P32
  {
    V4(n / 0x100_0000, n / 0x1_0000 % 256, n / 256 % 256, n % 256)
  }

  lemma NumberTells(ip: Ip)
    requires ip.V4?
    ensures V4At(Number(ip)) == ip
  {
    var ab := ip.a * 256 + ip.b;
    var abc := ab * 256 + ip.c;
    LastOctet(abc, ip.d);
    LastOctet(ab, ip.c);
    LastOctet(ip.a, ip.b);
    Shifts(Number(ip));
  }

  lemma LastOctet(rest: nat, last: Octet)
    ensures (rest * 256 + last) / 256 == rest && (rest * 256 + last) % 256 == last
  {}

  lemma Shifts(n: nat)
    ensures n / 0x1_0000 == n / 256 / 256 && n / 0x100_0000 == n / 256 / 256 / 256
  {}

  lemma EmbeddedIsAt(hi: Segment, lo: Segment)
    ensures Embedded(hi, lo) == V4At(hi * 0x1_0000 + lo)
  {
    var ip := Embedded(hi, lo);
    assert hi == ip.a * 256 + ip.b && lo == ip.c * 256 + ip.d;
    assert Number(ip) == hi * 0x1_0000 + lo;
    NumberTells(ip);
  }

  const MAPPED: nat := 0xffff * P32
  const NAT64: nat := 0x64 * P112 + 0xff9b * P96
  const SIX_TO_FOUR: nat := 0x2002 * P112

  /** 6to4's address is the next 32 bits after its prefix. */
  lemma SixToFourCarries(ip: Ip)
    requires ip.V6? && ip.s0 == 0x2002
    ensures InRange(ip, SIX_TO_FOUR, P112) && (Number6(ip) - SIX_TO_FOUR) / P80 == ip.s1 * 0x1_0000 + ip.s2
  {
    FirstSegment(ip, 0x2002, 1);
    assert Number6(ip) - SIX_TO_FOUR == (ip.s1 * 0x1_0000 + ip.s2) * P80 + (ip.s3 * P64 + Lower64(ip));
  }

  /** Metadata, unspecified and IPv4-compatible, multicast, link-local, documentation, Teredo and discard. */
  predicate InNeverRange(ip: Ip)
    requires ip.V6?
  {
    || InRange(ip, Number6(V6(0xfd00, 0x0ec2, 0, 0, 0, 0, 0, 0x0254)), 1)
    || (InRange(ip, 0, P32) && !InRange(ip, 1, 1))
    || InRange(ip, 0xff00 * P112, 0x100 * P112) || InRange(ip, 0xfe80 * P112, 0x40 * P112)
    || InRange(ip, 0x2001 * P112 + 0xdb8 * P96, P96) || InRange(ip, 0x2001 * P112, P96)
    || InRange(ip, 0x100 * P112, P64)
  }

  /** Loopback, unique local and site-local. */
  predicate InPrivateRange(ip: Ip)
    requires ip.V6?
  {
    InRange(ip, 1, 1) || InRange(ip, 0xfc00 * P112, 0x200 * P112) || InRange(ip, 0xfec0 * P112, 0x40 * P112)
  }

  /** The IPv4 address an address carries, by its number alone. */
  function CarriedIn(ip: Ip): (v4: Option<Ip>)
    requires ip.V6?
    ensures v4.Some? ==> v4.value.V4?
  {
    var n := Number6(ip);
    if InRange(ip, MAPPED, P32) then Some(V4At(n - MAPPED))
    else if InRange(ip, NAT64, P32) then Some(V4At(n - NAT64))
    else if InRange(ip, SIX_TO_FOUR, P112) then Some(V4At((n - SIX_TO_FOUR) / P80))
    else None
  }

  /** The class by the number alone: of the address carried, if any, else of the range. */
  function ClassByRange(ip: Ip): Class
    requires ip.V6?
  {
    var v4 := CarriedIn(ip);
    if v4.Some? then ClassifyV4(v4.value)
    else if InNeverRange(ip) then Never
    else if InPrivateRange(ip) then Private
    else Public
  }

  lemma NeverRanges(ip: Ip)
    requires ip.V6?
    ensures InNeverRange(ip) <==>
      || ip == V6(0xfd00, 0x0ec2, 0, 0, 0, 0, 0, 0x0254)
      || (ip.s0 == ip.s1 == ip.s2 == ip.s3 == ip.s4 == ip.s5 == 0 && !IsLoopback(ip))
      || 0xff00 <= ip.s0 || 0xfe80 <= ip.s0 < 0xfec0
      || (ip.s0 == 0x2001 && (ip.s1 == 0xdb8 || ip.s1 == 0)) || (ip.s0 == 0x100 && ip.s1 == ip.s2 == ip.s3 == 0)
  {
    OneV6(ip, V6(0xfd00, 0x0ec2, 0, 0, 0, 0, 0, 0x0254));
    SixSegments(ip, 0, 0, 0);
    LoopbackIsOne(ip);
    FirstSegment(ip, 0xff00, 0x100);
    FirstSegment(ip, 0xfe80, 0x40);
    TwoSegments(ip, 0x2001, 0xdb8);
    TwoSegments(ip, 0x2001, 0);
    UpperHalf(ip, 0x100);
  }

  lemma LoopbackIsOne(ip: Ip)
    requires ip.V6?
    ensures InRange(ip, 1, 1) <==> IsLoopback(ip)
  {
    assert Number6(V6(0, 0, 0, 0, 0, 0, 0, 1)) == 1;
    OneV6(ip, V6(0, 0, 0, 0, 0, 0, 0, 1));
  }

  lemma PrivateRanges(ip: Ip)
    requires ip.V6?
    ensures InPrivateRange(ip) <==> IsLoopback(ip) || 0xfc00 <= ip.s0 < 0xfe00 || 0xfec0 <= ip.s0 < 0xff00
  {
    LoopbackIsOne(ip);
    FirstSegment(ip, 0xfc00, 0x200);
    FirstSegment(ip, 0xfec0, 0x40);
  }

  predicate IsMapped(ip: Ip)
    requires ip.V6?
  {
    ip.s0 == ip.s1 == ip.s2 == ip.s3 == ip.s4 == 0 && ip.s5 == 0xffff
  }

  predicate IsNat64(ip: Ip)
    requires ip.V6?
  {
    ip.s0 == 0x64 && ip.s1 == 0xff9b && ip.s2 == ip.s3 == ip.s4 == ip.s5 == 0
  }

  lemma MappedCarries(ip: Ip)
    requires ip.V6?
    ensures InRange(ip, MAPPED, P32) <==> IsMapped(ip)
    ensures IsMapped(ip) ==> V4At(Number6(ip) - MAPPED) == Embedded(ip.s6, ip.s7)
  {
    SixSegments(ip, 0, 0, 0xffff);
    EmbeddedIsAt(ip.s6, ip.s7);
  }

  lemma Nat64Carries(ip: Ip)
    requires ip.V6?
    ensures InRange(ip, NAT64, P32) <==> IsNat64(ip)
    ensures IsNat64(ip) ==> V4At(Number6(ip) - NAT64) == Embedded(ip.s6, ip.s7)
  {
    SixSegments(ip, 0x64, 0xff9b, 0);
    EmbeddedIsAt(ip.s6, ip.s7);
  }

  /** Which of the three carries an IPv4 address, and which one it is. */
  lemma Carried(ip: Ip)
    requires ip.V6?
    ensures CarriedIn(ip) ==
      if IsMapped(ip) || IsNat64(ip) then Some(Embedded(ip.s6, ip.s7))
      else if ip.s0 == 0x2002 then Some(Embedded(ip.s1, ip.s2)) else None
  {
    MappedCarries(ip);
    Nat64Carries(ip);
    FirstSegment(ip, 0x2002, 1);
    if ip.s0 == 0x2002 {
      SixToFourCarries(ip);
      EmbeddedIsAt(ip.s1, ip.s2);
    }
  }

  /** An address that carries none, by its segments. */
  lemma SegmentTests(ip: Ip)
    requires ip.V6? && !IsMapped(ip) && !IsNat64(ip) && ip.s0 != 0x2002
    ensures ClassifyV6(ip) == if InNeverRange(ip) then Never else if InPrivateRange(ip) then Private else Public
  {
    NeverRanges(ip);
    PrivateRanges(ip);
    assert ip.s0 / 0x100 == 0xff <==> 0xff00 <= ip.s0;
    assert ip.s0 / 0x40 == 0xfe80 / 0x40 <==> 0xfe80 <= ip.s0 < 0xfec0;
    assert ip.s0 / 0x200 == 0xfc00 / 0x200 <==> 0xfc00 <= ip.s0 < 0xfe00;
    assert ip.s0 / 0x40 == 0xfec0 / 0x40 <==> 0xfec0 <= ip.s0 < 0xff00;
  }

  /** One that carries one is judged by it. */
  lemma CarrierTests(ip: Ip)
    requires ip.V6?
    ensures IsMapped(ip) || IsNat64(ip) ==> ClassifyV6(ip) == ClassifyV4(Embedded(ip.s6, ip.s7))
    ensures ip.s0 == 0x2002 ==> ClassifyV6(ip) == ClassifyV4(Embedded(ip.s1, ip.s2))
  {}

  /** The segment tests are exactly the address ranges, embedded IPv4 addresses included. */
  lemma V6ClassIsItsRange(ip: Ip)
    requires ip.V6?
    ensures ClassifyV6(ip) == ClassByRange(ip)
  {
    Carried(ip);
    CarrierTests(ip);
    if !IsMapped(ip) && !IsNat64(ip) && ip.s0 != 0x2002 {
      SegmentTests(ip);
    }
  }

  /** Allowing private addresses adds exactly the private class. */
  lemma AllowingPrivateAdds(ip: Ip)
    ensures Policy(true).Allows(ip) <==> Policy(false).Allows(ip) || Classify(ip).Private?
    ensures Classify(ip).Never? ==> !Policy(true).Allows(ip)
  {}

  // ─── URLs ────────────────────────────────────────────────

  datatype Host = Address(ip: Ip) | Domain(name: string) | NoHost

  datatype Url = Url(scheme: string, host: Host)

  datatype OutboundError = BadUrl | Blocked | TooManyRedirects

  function Lower(c: char): char {
    if 'A' <= c <= 'Z' then (c as int + 32) as char else c
  }

  function Trimmed(name: string): string {
    if name != "" && name[|name| - 1] == '.' then Trimmed(name[..|name| - 1]) else name
  }

  function Lowered(name: string): string {
    seq(|name|, i requires 0 <= i < |name| => Lower(name[i]))
  }

  predicate EndsWith(name: string, end: string) {
    |end| <= |name| && name[|name| - |end|..] == end
  }

  predicate IsLocalhost(raw: string) {
    var name := Lowered(Trimmed(raw));
    name == "localhost" || EndsWith(name, ".localhost")
  }

  const LOCALHOST := V4(127, 0, 0, 1)

  function CheckParsed(url: Url, policy: Policy): Result<(), OutboundError> {
    if url.scheme != "http" && url.scheme != "https" then Err(BadUrl)
    else
      match url.host
      case NoHost => Err(BadUrl)
      case Address(ip) => if policy.Allows(ip) then Ok(()) else Err(Blocked)
      case Domain(name) =>
        if !IsLocalhost(name) || policy.Allows(LOCALHOST) then Ok(()) else Err(Blocked)
  }

  /** Which URLs pass: http or https, a host, and one that is allowed as far as can be told before it resolves. */
  lemma PassesIff(url: Url, policy: Policy)
    ensures CheckParsed(url, policy).Ok? <==>
      && (url.scheme == "http" || url.scheme == "https")
      && (url.host.Address? || url.host.Domain?)
      && (url.host.Address? ==> Classify(url.host.ip).Public? || (Classify(url.host.ip).Private? && policy.allowPrivate))
      && (url.host.Domain? ==> policy.allowPrivate || !IsLocalhost(url.host.name))
    ensures CheckParsed(url, policy) == Err(BadUrl) <==>
      (url.scheme != "http" && url.scheme != "https") || url.host.NoHost?
    ensures CheckParsed(url, policy).Err? ==> !CheckParsed(url, policy).error.TooManyRedirects?
  {
    assert Classify(LOCALHOST).Private?;
  }

  /** The same letter, in either case. */
  predicate SameLetter(a: char, b: char) {
    a == b || ('A' <= a <= 'Z' && b as int == a as int + 32) || ('A' <= b <= 'Z' && a as int == b as int + 32)
  }

  predicate SameLetters(a: string, b: string) {
    |a| == |b| && forall i :: 0 <= i < |a| ==> SameLetter(a[i], b[i])
  }

  lemma {:induction false} TrimmedAlike(a: string, b: string)
    requires SameLetters(a, b)
    ensures SameLetters(Trimmed(a), Trimmed(b))
  {
    if a != "" {
      assert SameLetter(a[|a| - 1], b[|b| - 1]);
      if a[|a| - 1] == '.' { TrimmedAlike(a[..|a| - 1], b[..|b| - 1]); }
    }
  }

  /** What counts as localhost: case doesn't matter, */
  lemma LocalhostInAnyCase(name: string, other: string)
    requires SameLetters(name, other)
    ensures IsLocalhost(name) == IsLocalhost(other)
  {
    TrimmedAlike(name, other);
    assert Lowered(Trimmed(name)) == Lowered(Trimmed(other));
  }

  /** nor do trailing dots; */
  lemma LocalhostWithADot(name: string)
    ensures IsLocalhost(name + ".") == IsLocalhost(name)
  {
    assert (name + ".")[..|name|] == name;
  }

  /** and a lower-case name without one does when it is "localhost", or under it. */
  lemma LocalhostExactly(name: string)
    requires AllLower(name) && (name == "" || name[|name| - 1] != '.')
    ensures IsLocalhost(name) <==> name == "localhost" || (|name| >= 10 && name[|name| - 10..] == ".localhost")
  {
    assert Lowered(name) == name;
  }

  predicate AllLower(name: string) {
    forall i :: 0 <= i < |name| ==> !('A' <= name[i] <= 'Z')
  }

  // ─── Connections ─────────────────────────────────────────

  /** `GuardedResolver`: what the lookup gave, less what the policy refuses. */
  function Guarded(found: seq<Ip>, policy: Policy): (kept: seq<Ip>)
    ensures forall ip :: ip in kept <==> ip in found && policy.Allows(ip)
    ensures |kept| <= |found|
  {
    if found == [] then []
    else if policy.Allows(found[0]) then [found[0]] + Guarded(found[1..], policy)
    else Guarded(found[1..], policy)
  }

  /** Refused when nothing is left. */
  function Resolve(found: seq<Ip>, policy: Policy): (r: Result<seq<Ip>, OutboundError>)
    ensures r.Ok? <==> exists ip :: ip in found && policy.Allows(ip)
    ensures r.Ok? ==> forall ip :: ip in r.value <==> ip in found && policy.Allows(ip)
    ensures r.Err? ==> r.error.Blocked?
  {
    var kept := Guarded(found, policy);
    assert kept != [] ==> kept[0] in kept;
    if kept == [] then Err(Blocked) else Ok(kept)
  }

  /** The addresses a request to `url` may connect to. */
  function Reached(url: Url, found: seq<Ip>, policy: Policy): set<Ip> {
    match url.host
    case Address(ip) => {ip}
    case Domain(_) => if Resolve(found, policy).Ok? then set ip | ip in Resolve(found, policy).value else {}
    case NoHost => {}
  }

  /** An address as it is, and of a name every allowed address found. */
  lemma ReachedExactly(url: Url, found: seq<Ip>, policy: Policy, ip: Ip)
    ensures ip in Reached(url, found, policy) <==>
      url.host == Address(ip) || (url.host.Domain? && ip in found && policy.Allows(ip))
  {}

  const MAX_REDIRECTS: nat := 3

  /** One redirect: `previous` are the URLs requested so far, the first one too. */
  function OnRedirect(previous: seq<Url>, to: Url, policy: Policy): Result<(), OutboundError> {
    if |previous| >= MAX_REDIRECTS then Err(TooManyRedirects) else CheckParsed(to, policy)
  }

  /** The URLs requested when the servers redirect to `targets` in turn. */
  function Requested(previous: seq<Url>, targets: seq<Url>, policy: Policy): seq<Url>
    decreases |targets|
  {
    if targets == [] || OnRedirect(previous, targets[0], policy).Err? then previous
    else Requested(previous + [targets[0]], targets[1..], policy)
  }

  predicate AllChecked(urls: seq<Url>, policy: Policy) {
    forall i :: 0 <= i < |urls| ==> CheckParsed(urls[i], policy).Ok?
  }

  lemma {:induction false} RequestedAreChecked(previous: seq<Url>, targets: seq<Url>, policy: Policy)
    requires AllChecked(previous, policy) && 0 < |previous| <= MAX_REDIRECTS
    ensures AllChecked(Requested(previous, targets, policy), policy)
    ensures |previous| <= |Requested(previous, targets, policy)| <= MAX_REDIRECTS
    ensures previous <= Requested(previous, targets, policy)
    decreases |targets|
  {
    if targets != [] && OnRedirect(previous, targets[0], policy).Ok? {
      RequestedAreChecked(previous + [targets[0]], targets[1..], policy);
    }
  }

  /**
   When every target passes the check, the chain is followed to its end or to
   3 requests: at most 2 redirects, and the third is refused.
   */
  lemma {:induction false} TwoRedirectsAreFollowed(previous: seq<Url>, targets: seq<Url>, policy: Policy)
    requires AllChecked(targets, policy) && 0 < |previous| <= MAX_REDIRECTS
    ensures |Requested(previous, targets, policy)| == Min(MAX_REDIRECTS, |previous| + |targets|)
    ensures |previous| + |targets| <= MAX_REDIRECTS ==> Requested(previous, targets, policy) == previous + targets
    decreases |targets|
  {
    if targets != [] && |previous| < MAX_REDIRECTS {
      TwoRedirectsAreFollowed(previous + [targets[0]], targets[1..], policy);
      assert previous + targets == previous + [targets[0]] + targets[1..];
    } else if targets == [] {
      assert previous + targets == previous;
    }
  }

  /** A checked URL is only ever connected to at an allowed address. */
  lemma CheckedReachesAllowed(url: Url, found: seq<Ip>, policy: Policy)
    requires CheckParsed(url, policy).Ok?
    ensures forall ip :: ip in Reached(url, found, policy) ==> policy.Allows(ip)
    ensures !IsLocalhostUrl(url) || policy.allowPrivate
  {
    if IsLocalhostUrl(url) { assert Classify(LOCALHOST).Private?; }
  }

  predicate IsLocalhostUrl(url: Url) {
    url.host.Domain? && IsLocalhost(url.host.name)
  }

  /**
   From a URL that was checked, over any redirects and whatever DNS answers
   at each connection: at most 3 requests, each to a URL that passed the
   check, connecting only to addresses the policy allows.
   */
  lemma {:induction false} OnlyAllowedAddressesReached(first: Url, targets: seq<Url>, policy: Policy, i: nat, found: seq<Ip>)
    requires CheckParsed(first, policy).Ok? && i < |Requested([first], targets, policy)|
    ensures var urls := Requested([first], targets, policy);
      && urls[0] == first && |urls| <= MAX_REDIRECTS
      && CheckParsed(urls[i], policy).Ok?
      && forall ip :: ip in Reached(urls[i], found, policy) ==> policy.Allows(ip)
  {
    RequestedAreChecked([first], targets, policy);
    CheckedReachesAllowed(Requested([first], targets, policy)[i], found, policy);
  }
}
