/** The classifier of private and reserved addresses, and the filter applied to resolved addresses
    (crates/porxie/src/networking/dns.rs). The `is_*` predicates of the Rust standard library that the
    source calls are written out from their documentation. */
module AddressGuard {
  import opened Numbers
  import opened Wrappers

  type U8 = x: nat | x < 0x100
  type U16 = x: nat | x < 0x1_0000

  datatype V4 = V4(a: U8, b: U8, c: U8, d: U8)

  /** Eight 16-bit segments. */
  datatype V6 = V6(s0: U16, s1: U16, s2: U16, s3: U16, s4: U16, s5: U16, s6: U16, s7: U16)

  datatype Address = Ip4(v4: V4) | Ip6(v6: V6)

  predicate Bit(x: nat, unit: nat)
    requires unit > 0
  {
    x / unit % 2 == 1
  }

  function AndBit(x: nat, y: nat, unit: nat): nat
    requires unit > 0
  {
    if Bit(x, unit) && Bit(y, unit) then unit else 0
  }

  /** Bitwise and of two octets. */
  function And8(x: nat, y: nat): nat {
    AndBit(x, y, 128) + AndBit(x, y, 64) + AndBit(x, y, 32) + AndBit(x, y, 16)
    + AndBit(x, y, 8) + AndBit(x, y, 4) + AndBit(x, y, 2) + AndBit(x, y, 1)
  }

  /** Bitwise and of two 16-bit segments. */
  function And16(x: nat, y: nat): nat {
    And8(x / 256, y / 256) * 256 + And8(x % 256, y % 256)
  }

  function BitPart(x: nat, unit: nat): nat
    requires unit > 0
  {
    if Bit(x, unit) then unit else 0
  }

  /** What is left of `x` without the bits below `unit`. */
  function Upper(x: nat, unit: nat): nat
    requires unit > 0
  {
    x / unit * unit
  }

  lemma PeelBit(x: nat, unit: nat, twice: nat)
    requires unit > 0 && twice == 2 * unit
    ensures Upper(x, unit) == Upper(x, twice) + BitPart(x, unit)
  {
    var h := x / unit / 2;
    QuotientHalves(x, unit, twice);
    MulAssoc(h, 2, unit);
    assert x / unit == 2 * h || x / unit == 2 * h + 1;
  }

  lemma UpperEnds(x: U8)
    ensures Upper(x, 1) == x && Upper(x, 256) == 0
  {
  }

  lemma SumOfBits(x: U8)
    ensures x == BitPart(x, 128) + BitPart(x, 64) + BitPart(x, 32) + BitPart(x, 16)
                 + BitPart(x, 8) + BitPart(x, 4) + BitPart(x, 2) + BitPart(x, 1)
  {
    hide Upper, BitPart;
    UpperEnds(x);
    PeelBit(x, 1, 2);
    PeelBit(x, 2, 4);
    PeelBit(x, 4, 8);
    PeelBit(x, 8, 16);
    PeelBit(x, 16, 32);
    PeelBit(x, 32, 64);
    PeelBit(x, 64, 128);
    PeelBit(x, 128, 256);
  }

  /** The bits of the masks in use. */
  lemma MaskBits()
    ensures Bit(0xff, 128) && Bit(0xff, 64) && Bit(0xff, 32) && Bit(0xff, 16)
    ensures Bit(0xff, 8) && Bit(0xff, 4) && Bit(0xff, 2) && Bit(0xff, 1)
    ensures Bit(0xfe, 128) && Bit(0xfe, 64) && Bit(0xfe, 32) && Bit(0xfe, 16)
    ensures Bit(0xfe, 8) && Bit(0xfe, 4) && Bit(0xfe, 2) && !Bit(0xfe, 1)
    ensures Bit(0xc0, 128) && Bit(0xc0, 64) && !Bit(0xc0, 32) && !Bit(0xc0, 16)
    ensures !Bit(0xc0, 8) && !Bit(0xc0, 4) && !Bit(0xc0, 2) && !Bit(0xc0, 1)
    ensures !Bit(0, 128) && !Bit(0, 64) && !Bit(0, 32) && !Bit(0, 16)
    ensures !Bit(0, 8) && !Bit(0, 4) && !Bit(0, 2) && !Bit(0, 1)
  {
  }

  lemma MaskedBit(x: nat, y: nat, unit: nat)
    requires unit > 0
    ensures AndBit(x, y, unit) == if Bit(y, unit) then BitPart(x, unit) else 0
  {
    hide Bit;
  }

  /** A bitwise and adds up the bits of `x` that the mask keeps. */
  lemma MaskedSum(x: nat, y: nat)
    ensures And8(x, y) == AndBit(x, y, 128) + AndBit(x, y, 64) + AndBit(x, y, 32) + AndBit(x, y, 16)
                          + AndBit(x, y, 8) + AndBit(x, y, 4) + AndBit(x, y, 2) + AndBit(x, y, 1)
    ensures forall unit :: unit in {1, 2, 4, 8, 16, 32, 64, 128} ==>
              AndBit(x, y, unit) == if Bit(y, unit) then BitPart(x, unit) else 0
  {
    hide Bit, AndBit;
    forall unit | unit in {1, 2, 4, 8, 16, 32, 64, 128}
      ensures AndBit(x, y, unit) == if Bit(y, unit) then BitPart(x, unit) else 0
    {
      MaskedBit(x, y, unit);
    }
  }

  lemma AllBits(x: U8)
    ensures And8(x, 0xff) == x
  {
    hide Bit, BitPart, AndBit, And8;
    MaskBits();
    MaskedSum(x, 0xff);
    SumOfBits(x);
  }

  lemma AllButLastBit(x: U8)
    ensures And8(x, 0xfe) == x / 2 * 2
  {
    hide Bit, BitPart, AndBit, And8;
    MaskBits();
    MaskedSum(x, 0xfe);
    SumOfBits(x);
    PeelBit(x, 1, 2);
    UpperEnds(x);
  }

  lemma TopTwoBits(x: U8)
    ensures And8(x, 0xc0) == x / 64 * 64
    ensures And8(x, 0) == 0
  {
    hide Bit, BitPart, AndBit, And8;
    MaskBits();
    MaskedSum(x, 0xc0);
    MaskedSum(x, 0);
    PeelBit(x, 64, 128);
    PeelBit(x, 128, 256);
    UpperEnds(x);
  }

  lemma SharedSpaceMask(x: U8)
    ensures And8(x, 0xc0) == 64 <==> 64 <= x < 128
  {
    hide And8;
    TopTwoBits(x);
  }

  predicate IsDocumentation4(ip: V4) {
    || (ip.a == 192 && ip.b == 0 && ip.c == 2)
    || (ip.a == 198 && ip.b == 51 && ip.c == 100)
    || (ip.a == 203 && ip.b == 0 && ip.c == 113)
  }

  predicate IsRfc1918(ip: V4) {
    || ip.a == 10
    || (ip.a == 172 && 16 <= ip.b <= 31)
    || (ip.a == 192 && ip.b == 168)
  }

  predicate IsSharedSpace(octet: U8): (r: bool)
    ensures r <==> 64 <= octet < 128
  {
    SharedSpaceMask(octet);
    And8(octet, 0xc0) == 64
  }

  /** `ip_is_private_v4` */
  predicate IsPrivateV4(ip: V4) {
    || ip == V4(255, 255, 255, 255)
    || IsDocumentation4(ip)
    || (ip.a == 169 && ip.b == 254)
    || ip.a == 127
    || 224 <= ip.a <= 239
    || IsRfc1918(ip)
    || ip == V4(0, 0, 0, 0)
    || ip.a == 0
    || (ip.a == 100 && IsSharedSpace(ip.b))
  }

  /** `Ipv6Addr::to_ipv4_mapped` */
  function ToIpv4Mapped(ip: V6): Option<V4> {
    if ip.s0 == 0 && ip.s1 == 0 && ip.s2 == 0 && ip.s3 == 0 && ip.s4 == 0 && ip.s5 == 0xffff then
      Some(V4(ip.s6 / 256, ip.s6 % 256, ip.s7 / 256, ip.s7 % 256))
    else None
  }

  predicate IsLoopback6(ip: V6) {
    ip == V6(0, 0, 0, 0, 0, 0, 0, 1)
  }

  predicate IsUnspecified6(ip: V6) {
    ip == V6(0, 0, 0, 0, 0, 0, 0, 0)
  }

  /** The tests of `ip_is_private_v6` that look at the first two segments only. */
  predicate IsReservedPrefix(s0: U16, s1: U16) {
    || And16(s0, 0xff00) == 0xff00
    || And16(s0, 0xffc0) == 0xfe80
    || And16(s0, 0xfe00) == 0xfc00
    || (s0 == 0x2001 && s1 == 0xdb8)
    || (s0 == 0x3fff && 0 <= s1 <= 0x3fff)
    || (s0 == 0x2001 && s1 == 0)
    || s0 == 0x2002
    || (s0 == 0x64 && s1 == 0xff9b)
  }

  /** `ip_is_private_v6` */
  predicate IsPrivateV6(ip: V6) {
    match ToIpv4Mapped(ip)
    case Some(v4) => IsPrivateV4(v4)
    case None => IsLoopback6(ip) || IsUnspecified6(ip) || IsReservedPrefix(ip.s0, ip.s1)
  }

  predicate IsSafe(addr: Address) {
    match addr
    case Ip4(ip) => !IsPrivateV4(ip)
    case Ip6(ip) => !IsPrivateV6(ip)
  }

  function Number4(ip: V4): (n: nat)
    ensures n < TWO32
  {
    ip.a * 0x100_0000 + ip.b * 0x1_0000 + ip.c * 0x100 + ip.d
  }

  function Pair(high: U16, low: U16): (n: nat)
    ensures n < TWO32
  {
    high * 0x1_0000 + low
  }

  function Number6(ip: V6): nat {
    Pair(ip.s0, ip.s1) * TWO96 + Pair(ip.s2, ip.s3) * TWO64 + Pair(ip.s4, ip.s5) * TWO32 + Pair(ip.s6, ip.s7)
  }

  const TWO32: nat := 0x1_0000_0000
  const TWO64: nat := 0x1_0000_0000_0000_0000
  const TWO96: nat := 0x1_0000_0000_0000_0000_0000_0000

  /** `n` lies in the block of `size` addresses that starts at `base`. */
  predicate InBlock(n: nat, base: nat, size: nat) {
    base <= n < base + size
  }

  /** Membership in the prefix block a.b.c.0/bits. */
  predicate In4(n: nat, a: nat, b: nat, c: nat, bits: nat)
    requires bits <= 32
  {
    InBlock(n, a * 0x100_0000 + b * 0x1_0000 + c * 0x100, Pow2(32 - bits))
  }

  /** The reserved IPv4 numbers as a union of prefix blocks. */
  predicate Reserved4(n: nat) {
    || n == 0xffff_ffff
    || In4(n, 192, 0, 2, 24) || In4(n, 198, 51, 100, 24) || In4(n, 203, 0, 113, 24)
    || In4(n, 169, 254, 0, 16) || In4(n, 127, 0, 0, 8) || In4(n, 224, 0, 0, 4)
    || In4(n, 10, 0, 0, 8) || In4(n, 172, 16, 0, 12) || In4(n, 192, 168, 0, 16)
    || In4(n, 0, 0, 0, 8) || In4(n, 100, 64, 0, 10)
  }

  /** Membership in the prefix block s0:s1::/bits. */
  predicate In6(n: nat, s0: nat, s1: nat, bits: nat)
    requires bits <= 128
  {
    InBlock(n, (s0 * 0x1_0000 + s1) * TWO96, Pow2(128 - bits))
  }

  /** The reserved prefixes of IPv6. */
  predicate Reserved6(n: nat) {
    || n == 0 || n == 1
    || In6(n, 0xff00, 0, 8) || In6(n, 0xfe80, 0, 10) || In6(n, 0xfc00, 0, 7)
    || In6(n, 0x2001, 0xdb8, 32) || In6(n, 0x3fff, 0, 18) || In6(n, 0x2001, 0, 32)
    || In6(n, 0x2002, 0, 16) || In6(n, 0x64, 0xff9b, 32)
  }

  /** The IPv4-mapped numbers ::ffff:0:0/96 (section 2.5.5.2 of RFC 4291). */
  predicate Mapped6(n: nat) {
    InBlock(n, 0xffff * TWO32, TWO32)
  }

  lemma And16Bytes(x: nat, y: nat, high: nat, low: nat, maskHigh: nat, maskLow: nat)
    requires x == 256 * high + low && y == 256 * maskHigh + maskLow && low < 256 && maskLow < 256
    ensures And16(x, y) == And8(high, maskHigh) * 256 + And8(low, maskLow)
  {
    assert x / 256 == high && x % 256 == low;
    assert y / 256 == maskHigh && y % 256 == maskLow;
  }

  lemma LinkLocalMask(x: U16)
    ensures And16(x, 0xffc0) == 0xfe80 <==> 0xfe80 <= x < 0xfec0
  {
    hide And8, And16;
    var high, low := x / 256, x % 256;
    And16Bytes(x, 0xffc0, high, low, 0xff, 0xc0);
    AllBits(high);
    TopTwoBits(low);
  }

  lemma UniqueLocalMask(x: U16)
    ensures And16(x, 0xfe00) == 0xfc00 <==> 0xfc00 <= x < 0xfe00
  {
    hide And8, And16;
    var high, low := x / 256, x % 256;
    And16Bytes(x, 0xfe00, high, low, 0xfe, 0);
    AllButLastBit(high);
    TopTwoBits(low);
  }

  lemma MulticastMask(x: U16)
    ensures And16(x, 0xff00) == 0xff00 <==> 0xff00 <= x
  {
    hide And8, And16;
    var high, low := x / 256, x % 256;
    And16Bytes(x, 0xff00, high, low, 0xff, 0);
    AllBits(high);
    TopTwoBits(low);
  }

  /** The octet tests without the mask. */
  predicate Octets4(a: nat, b: nat, c: nat, d: nat) {
    || (a == 255 && b == 255 && c == 255 && d == 255)
    || (a == 192 && b == 0 && c == 2) || (a == 198 && b == 51 && c == 100) || (a == 203 && b == 0 && c == 113)
    || (a == 169 && b == 254) || a == 127 || 224 <= a <= 239
    || a == 10 || (a == 172 && 16 <= b <= 31) || (a == 192 && b == 168)
    || a == 0 || (a == 100 && 64 <= b < 128)
  }

  lemma OctetBlocks(a: U8, b: U8, c: U8, d: U8)
    ensures Octets4(a, b, c, d) <==> Reserved4(a * 0x100_0000 + b * 0x1_0000 + c * 0x100 + d)
  {
    hide Pow2;
    Pow2Values();
  }

  lemma PrivateIsOctets(ip: V4)
    ensures IsPrivateV4(ip) <==> Octets4(ip.a, ip.b, ip.c, ip.d)
  {
  }

  /** The octet tests decide exactly membership of the 32-bit number in the union of the prefix blocks. */
  lemma V4IsCidr(ip: V4)
    ensures IsPrivateV4(ip) <==> Reserved4(Number4(ip))
  {
    PrivateIsOctets(ip);
    OctetBlocks(ip.a, ip.b, ip.c, ip.d);
  }

  /** A number below one prefix block: which of the 2^32 top halves it has. */
  lemma TopPair(ip: V6, base: nat, size: nat)
    ensures InBlock(Number6(ip), base * TWO96, size * TWO96) <==> base <= Pair(ip.s0, ip.s1) < base + size
  {
    var low := Pair(ip.s2, ip.s3) * TWO64 + Pair(ip.s4, ip.s5) * TWO32 + Pair(ip.s6, ip.s7);
    assert low < TWO96;
  }

  /** A prefix of at most 32 bits leaves a whole number of top halves. */
  lemma WholeHalves(bits: nat)
    requires bits <= 32
    ensures Pow2(128 - bits) == Pow2(32 - bits) * TWO96
  {
    hide Pow2;
    Pow2Values();
    Pow2Add(32, 32);
    Pow2Add(64, 32);
    Pow2Add(32 - bits, 96);
  }

  lemma PrefixIsTop(ip: V6, s0: nat, s1: nat, bits: nat)
    requires bits <= 32
    ensures var base := s0 * 0x1_0000 + s1;
            In6(Number6(ip), s0, s1, bits) <==> base <= Pair(ip.s0, ip.s1) < base + Pow2(32 - bits)
  {
    hide Pow2, Number6, Pair;
    WholeHalves(bits);
    TopPair(ip, s0 * 0x1_0000 + s1, Pow2(32 - bits));
  }

  lemma PrefixBlocks(ip: V6)
    ensures IsReservedPrefix(ip.s0, ip.s1) <==>
            var n := Number6(ip);
            || In6(n, 0xff00, 0, 8) || In6(n, 0xfe80, 0, 10) || In6(n, 0xfc00, 0, 7)
            || In6(n, 0x2001, 0xdb8, 32) || In6(n, 0x3fff, 0, 18) || In6(n, 0x2001, 0, 32)
            || In6(n, 0x2002, 0, 16) || In6(n, 0x64, 0xff9b, 32)
  {
    hide In6, Number6, And16, Pow2;
    Pow2Values();
    MulticastMask(ip.s0);
    LinkLocalMask(ip.s0);
    UniqueLocalMask(ip.s0);
    PrefixIsTop(ip, 0xff00, 0, 8);
    PrefixIsTop(ip, 0xfe80, 0, 10);
    PrefixIsTop(ip, 0xfc00, 0, 7);
    PrefixIsTop(ip, 0x2001, 0xdb8, 32);
    PrefixIsTop(ip, 0x3fff, 0, 18);
    PrefixIsTop(ip, 0x2001, 0, 32);
    PrefixIsTop(ip, 0x2002, 0, 16);
    PrefixIsTop(ip, 0x64, 0xff9b, 32);
  }

  /** Outside the mapped block the segment tests decide membership in the reserved prefixes; inside it the
      verdict is the IPv4 one on the low 32 bits. */
  lemma V6IsCidr(ip: V6)
    ensures var n := Number6(ip);
            && (ToIpv4Mapped(ip).Some? <==> Mapped6(n))
            && (Mapped6(n) ==> (IsPrivateV6(ip) <==> Reserved4(n - 0xffff * TWO32)))
            && (!Mapped6(n) ==> (IsPrivateV6(ip) <==> Reserved6(n)))
  {
    hide Pow2, In6, Number6, Number4, IsReservedPrefix, IsPrivateV4, Reserved4, Mapped6, ToIpv4Mapped, IsLoopback6,
      IsUnspecified6;
    var n := Number6(ip);
    PrefixBlocks(ip);
    MappedIff(ip);
    SmallIff(ip);
    if ToIpv4Mapped(ip).Some? {
      V4IsCidr(ToIpv4Mapped(ip).value);
    }
  }

  lemma SmallIff(ip: V6)
    ensures IsLoopback6(ip) <==> Number6(ip) == 1
    ensures IsUnspecified6(ip) <==> Number6(ip) == 0
  {
  }

  lemma MappedIff(ip: V6)
    ensures ToIpv4Mapped(ip).Some? <==> Mapped6(Number6(ip))
    ensures ToIpv4Mapped(ip).Some? ==> Number4(ToIpv4Mapped(ip).value) == Number6(ip) - 0xffff * TWO32
  {
  }

  datatype ResolveError = LookupFailed | NoSafeAddress

  function Filter<T>(s: seq<T>, keep: T -> bool): seq<T> {
    if s == [] then []
    else if keep(s[0]) then [s[0]] + Filter(s[1..], keep)
    else Filter(s[1..], keep)
  }

  /** The resolver, given what the system lookup returned. */
  function Resolve(lookup: Option<seq<Address>>): Result<seq<Address>, ResolveError> {
    match lookup
    case None => Failure(LookupFailed)
    case Some(addrs) =>
      var safe := Filter(addrs, IsSafe);
      if safe == [] then Failure(NoSafeAddress) else Success(safe)
  }

  predicate Increasing(at: seq<nat>) {
    forall j, k :: 0 <= j < k < |at| ==> at[j] < at[k]
  }

  predicate Picks<T(==)>(s: seq<T>, picked: seq<T>, at: seq<nat>) {
    |at| == |picked| && forall j :: 0 <= j < |at| ==> at[j] < |s| && picked[j] == s[at[j]]
  }

  predicate Exact<T>(s: seq<T>, keep: T -> bool, at: seq<nat>) {
    forall i: nat :: i < |s| ==> (keep(s[i]) <==> i in at)
  }

  /** `picked` is the sublist of `s` at exactly the positions `at` of the elements to keep, in order. */
  predicate IsSublist<T(==)>(s: seq<T>, keep: T -> bool, picked: seq<T>, at: seq<nat>) {
    Increasing(at) && Picks(s, picked, at) && Exact(s, keep, at)
  }

  function Shifted(at: seq<nat>): seq<nat> {
    seq(|at|, j requires 0 <= j < |at| => at[j] + 1)
  }

  lemma ShiftedExact<T>(s: seq<T>, keep: T -> bool, at: seq<nat>)
    requires s != [] && Exact(s[1..], keep, at)
    ensures Exact(s, keep, if keep(s[0]) then [0] + Shifted(at) else Shifted(at))
  {
    var shifted := Shifted(at);
    var all := if keep(s[0]) then [0] + shifted else shifted;
    forall i: nat | i < |s|
      ensures keep(s[i]) <==> i in all
    {
      if i > 0 {
        assert s[1..][i - 1] == s[i];
        if i - 1 in at {
          var j: nat :| j < |at| && at[j] == i - 1;
          assert shifted[j] == i;
          assert i in shifted;
        }
        if i in shifted {
          var j: nat :| j < |shifted| && shifted[j] == i;
          assert at[j] == i - 1;
        }
      }
    }
  }

  lemma ShiftedPicks<T>(s: seq<T>, picked: seq<T>, at: seq<nat>)
    requires s != [] && Picks(s[1..], picked, at)
    ensures Picks(s, picked, Shifted(at))
    ensures Picks(s, [s[0]] + picked, [0] + Shifted(at))
  {
    forall j | 0 <= j < |at|
      ensures Shifted(at)[j] < |s| && picked[j] == s[Shifted(at)[j]]
    {
      assert picked[j] == s[1..][at[j]];
    }
  }

  lemma ShiftedIncreases(at: seq<nat>)
    requires Increasing(at)
    ensures Increasing(Shifted(at)) && Increasing([0] + Shifted(at))
  {
  }

  lemma {:induction false} FilterIsSublist<T>(s: seq<T>, keep: T -> bool) returns (at: seq<nat>)
    ensures IsSublist(s, keep, Filter(s, keep), at)
  {
    if s == [] {
      at := [];
    } else {
      var rest := FilterIsSublist(s[1..], keep);
      ShiftedExact(s, keep, rest);
      ShiftedPicks(s, Filter(s[1..], keep), rest);
      ShiftedIncreases(rest);
      at := if keep(s[0]) then [0] + Shifted(rest) else Shifted(rest);
    }
  }

  /** What is resolved: the order-preserving sublist of exactly the safe addresses, failing when the lookup
      does or when no address is safe. */
  lemma ResolveIff(addrs: seq<Address>) returns (at: seq<nat>)
    ensures Resolve(None) == Failure(LookupFailed)
    ensures Resolve(Some(addrs)).Success? ==> IsSublist(addrs, IsSafe, Resolve(Some(addrs)).value, at)
    ensures Resolve(Some(addrs)).Failure? <==> forall i :: 0 <= i < |addrs| ==> !IsSafe(addrs[i])
  {
    at := FilterIsSublist(addrs, IsSafe);
    if Filter(addrs, IsSafe) != [] {
      assert at[0] in at;
    }
  }
}
