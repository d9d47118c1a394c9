/** IPv4 prefix arithmetic in 32-bit words, as internal/bootstrap/network.go does
    it.  A CIDR text is taken as what net.ParseCIDR makes of it. */
module Cidr {
  import opened Prelude

  const WORD: nat := 0x1_0000_0000
  const IPV4_BITS: nat := 32
  const MAX_BIT_SHIFT: nat := 30
  const MAX_INT32: int := 2147483647

  type Word = x: int | 0 <= x < 0x1_0000_0000

  type Octet = x: int | 0 <= x < 256

  datatype Ip = Ip(a: Octet, b: Octet, c: Octet, d: Octet)

  type Bits = x: int | 0 <= x <= 32

  /** What net.ParseCIDR makes of a text; `V4` keeps the address before masking. */
  datatype Cidr = Bad | V6 | V4(address: Word, bits: Bits)

  function Pow2(k: nat): (r: nat)
    ensures r > 0
  {
    if k == 0 then 1 else 2 * Pow2(k - 1)
  }

  /** uint32 arithmetic wraps. */
  function Wrap(x: int): Word { x % 0x1_0000_0000 }

  /** uint32(1) << k: shifting past the width gives 0. */
  function ShiftOne(k: nat): Word {
    if k < IPV4_BITS then Wrap(Pow2(k)) else 0
  }

  function ToWord(ip: Ip): Word {
    Wrap(Wrap(Wrap(ip.a * 0x100_0000 + ip.b * 0x1_0000) + ip.c * 0x100) + ip.d)
  }

  function ToIp(n: Word): Ip {
    Ip(n / 0x100_0000 % 256, n / 0x1_0000 % 256, n / 0x100 % 256, n % 256)
  }

  lemma WordOf(ip: Ip)
    ensures ToWord(ip) == ip.a * 0x100_0000 + ip.b * 0x1_0000 + ip.c * 0x100 + ip.d
  {
    var high := ip.a * 0x100_0000 + ip.b * 0x1_0000;
    assert Wrap(high) == high && Wrap(high + ip.c * 0x100) == high + ip.c * 0x100;
  }

  lemma WordRoundTrip(n: Word)
    ensures ToWord(ToIp(n)) == n
  {
    WordOf(ToIp(n));
    var n1 := n / 256;
    var n2 := n1 / 256;
    assert n / 0x1_0000 == n2 && n / 0x100_0000 == n2 / 256;
  }

  lemma IpRoundTrip(ip: Ip)
    ensures ToIp(ToWord(ip)) == ip
  {
    WordOf(ip);
    var n2 := ip.a * 256 + ip.b;
    var n1 := n2 * 256 + ip.c;
    var n := n1 * 256 + ip.d;
    assert n / 0x100 == n1;
    assert n / 0x1_0000 == n1 / 0x100 == n2;
    assert n / 0x100_0000 == n2 / 0x100 == ip.a;
  }

  // ----- Blocks -----

  /** How many addresses share a prefix of `bits` bits. */
  function Size(bits: Bits): (r: nat)
    ensures r > 0
  {
    Pow2(IPV4_BITS - bits)
  }

  /** An address belongs to a block when their first `bits` bits agree (section
      3.1 of RFC 4632). */
  predicate Holds(c: Cidr, a: Word)
    requires c.V4?
  {
    a / Size(c.bits) == c.address / Size(c.bits)
  }

  lemma QuotientOf(x: nat, d: nat, q: nat)
    requires d > 0
    ensures x / d == q <==> q * d <= x < q * d + d
  {
    var r := x / d;
    assert x == r * d + x % d;
    if q < r {
      Multiples(q + 1, r, d);
    } else if r < q {
      Multiples(r + 1, q, d);
    }
  }

  lemma Multiples(j: nat, k: nat, d: nat)
    requires j <= k
    ensures j * d <= k * d && (j + 1) * d == j * d + d
  {
    assert (k - j) * d >= 0;
  }

  function RoundDown(n: nat, d: nat): (r: nat)
    requires d > 0
    ensures r <= n < r + d
  {
    QuotientOf(n, d, n / d);
    n / d * d
  }

  /** ip.Mask(mask): the host bits cleared. */
  function Base(c: Cidr): (r: Word)
    requires c.V4?
  {
    RoundDown(c.address, Size(c.bits))
  }

  predicate Aligned(c: Cidr)
    requires c.V4?
  {
    Base(c) == c.address
  }

  /** The address one past a block, without wrapping. */
  function End(c: Cidr): int
    requires c.V4?
  {
    Base(c) + Size(c.bits)
  }

  /** base + size - 1 in 32-bit words. */
  function LastWord(c: Cidr): Word
    requires c.V4?
  {
    Wrap(Wrap(Base(c) + ShiftOne(IPV4_BITS - c.bits)) - 1)
  }

  function IsSubnetWithinParent(parent: Cidr, child: Cidr): bool
    requires !parent.V6? && !child.V6?
  {
    if parent.Bad? || child.Bad? then false
    else Base(child) >= Base(parent) && LastWord(child) <= LastWord(parent)
  }

  lemma {:induction false} PowSum(j: nat, k: nat)
    ensures Pow2(j + k) == Pow2(j) * Pow2(k)
    decreases j
  {
    if j > 0 { PowSum(j - 1, k); }
  }

  lemma {:induction false} PowMonotone(j: nat, k: nat)
    requires j < k
    ensures 2 * Pow2(j) <= Pow2(k)
    decreases k
  {
    if j < k - 1 { PowMonotone(j, k - 1); }
  }

  lemma WordIsPow2()
    ensures Pow2(IPV4_BITS) == WORD && Pow2(MAX_BIT_SHIFT) == 0x4000_0000
  {
    assert Pow2(8) == 256;
    PowSum(8, 8);
    PowSum(16, 16);
    assert Pow2(14) == 0x4000;
    PowSum(16, 14);
  }

  /** Within a word every block size but the whole space is its own shift. */
  lemma ShiftIsSize(bits: Bits)
    ensures ShiftOne(IPV4_BITS - bits) == (if bits == 0 then 0 else Size(bits))
    ensures Size(bits) <= WORD && (Size(bits) == WORD <==> bits == 0)
  {
    WordIsPow2();
    if bits > 0 { PowMonotone(IPV4_BITS - bits, IPV4_BITS); }
  }

  /** Rounding down to a divisor of the space leaves room for a whole block. */
  lemma RoomAbove(n: nat, d: nat, m: nat, space: nat)
    requires d > 0 && d * m == space && n < space
    ensures RoundDown(n, d) + d <= space
  {
    var q := n / d;
    if q >= m { Multiples(m, q, d); }
    Multiples(q + 1, m, d);
  }

  lemma SameQuotient(n: nat, d: nat, a: nat)
    requires d > 0
    ensures a / d == n / d <==> RoundDown(n, d) <= a < RoundDown(n, d) + d
  {
    QuotientOf(a, d, n / d);
  }

  lemma EndFits(c: Cidr)
    requires c.V4?
    ensures End(c) <= WORD
  {
    PowSum(IPV4_BITS - c.bits, c.bits);
    WordIsPow2();
    RoomAbove(c.address, Size(c.bits), Pow2(c.bits), WORD);
  }

  /** A block is the interval from its base to its end, and fits in the space. */
  lemma BlockIsInterval(c: Cidr, a: Word)
    requires c.V4?
    ensures Holds(c, a) <==> Base(c) <= a < End(c)
    ensures End(c) <= WORD
  {
    SameQuotient(c.address, Size(c.bits), a);
    EndFits(c);
  }

  lemma OnlyZeroFits(base: int, size: int)
    requires 0 <= base && base + size <= WORD && 0 < size
    ensures Wrap(Wrap(base + (if size == WORD then 0 else size)) - 1) == base + size - 1
  {
  }

  /** The last address is right even for /0, where the size is 0 and only the
      wrap-around gets there. */
  lemma LastIsRight(c: Cidr)
    requires c.V4?
    ensures LastWord(c) == End(c) - 1
  {
    EndFits(c);
    ShiftIsSize(c.bits);
    OnlyZeroFits(Base(c), Size(c.bits));
  }

  /** Containment is inclusion of addresses, for every pair of IPv4 blocks. */
  lemma ContainmentExactlyWhen(parent: Cidr, child: Cidr)
    requires parent.V4? && child.V4?
    ensures IsSubnetWithinParent(parent, child) <==> forall a: Word :: Holds(child, a) ==> Holds(parent, a)
  {
    LastIsRight(parent);
    LastIsRight(child);
    forall a: Word ensures Holds(parent, a) <==> Base(parent) <= a < End(parent) { BlockIsInterval(parent, a); }
    forall a: Word ensures Holds(child, a) <==> Base(child) <= a < End(child) { BlockIsInterval(child, a); }
    if forall a: Word :: Holds(child, a) ==> Holds(parent, a) {
      assert Holds(child, Base(child)) && Holds(child, LastWord(child));
    }
  }

  // ----- Carving -----

  /** The address `index` strides of size 2^(32-bits) above the parent's base, in
      unbounded integers. */
  function Start(parent: Cidr, bits: Bits, index: nat): nat
    requires parent.V4?
  {
    Base(parent) + index * Size(bits)
  }

  function Child(parent: Cidr, bits: Bits, index: nat): Cidr
    requires parent.V4? && parent.bits <= bits && index < Pow2(bits - parent.bits)
  {
    ChildFits(parent, bits, index);
    V4(Start(parent, bits, index), bits)
  }

  lemma Distribute(q: nat, m: nat, t: nat, i: nat)
    ensures q * (m * t) + i * t == (q * m + i) * t
  {
  }

  /** The `i`-th of `m` strides of `t` above a multiple of `m * t`. */
  lemma StrideArithmetic(n: nat, m: nat, t: nat, i: nat, a: nat)
    requires m > 0 && t > 0 && m * t > 0 && i < m
    ensures var start := RoundDown(n, m * t) + i * t;
            && start + t <= RoundDown(n, m * t) + m * t && RoundDown(start, t) == start
            && (a / t == start / t <==> start <= a < start + t)
  {
    var q := n / (m * t);
    Distribute(q, m, t, i);
    var start := q * (m * t) + i * t;
    QuotientOf(start, t, q * m + i);
    QuotientOf(a, t, q * m + i);
    Multiples(i + 1, m, t);
    Multiples(i, i, t);
  }

  /** A child fits in its parent, starts on a boundary of its own size, and holds
      the addresses of its stride. */
  lemma ChildStride(parent: Cidr, bits: Bits, index: nat, a: Word)
    requires parent.V4? && parent.bits <= bits && index < Pow2(bits - parent.bits)
    ensures var start := Start(parent, bits, index);
            && start + Size(bits) <= End(parent) <= WORD && RoundDown(start, Size(bits)) == start
            && (a / Size(bits) == start / Size(bits) <==> start <= a < start + Size(bits))
  {
    PowSum(bits - parent.bits, IPV4_BITS - bits);
    StrideArithmetic(parent.address, Pow2(bits - parent.bits), Size(bits), index, a);
    BlockIsInterval(parent, 0);
  }

  lemma ChildFits(parent: Cidr, bits: Bits, index: nat)
    requires parent.V4? && parent.bits <= bits && index < Pow2(bits - parent.bits)
    ensures Start(parent, bits, index) + Size(bits) <= End(parent) <= WORD
  {
    ChildStride(parent, bits, index, 0);
  }

  /** Which child an address of the parent falls in. */
  lemma ChildHolds(parent: Cidr, bits: Bits, index: nat, a: Word)
    requires parent.V4? && parent.bits <= bits && index < Pow2(bits - parent.bits)
    ensures var c := Child(parent, bits, index);
            && Aligned(c) && Base(c) == Start(parent, bits, index) && End(c) == Start(parent, bits, index + 1)
            && (Holds(c, a) <==> Start(parent, bits, index) <= a < Start(parent, bits, index + 1))
  {
    ChildStride(parent, bits, index, a);
    Multiples(index, index, Size(bits));
  }

  lemma StartMonotone(parent: Cidr, bits: Bits, i: nat, j: nat)
    requires parent.V4? && i <= j
    ensures Start(parent, bits, i) <= Start(parent, bits, j) && Start(parent, bits, 0) == Base(parent)
  {
    Multiples(i, j, Size(bits));
  }

  /** `count` consecutive children from the parent's base on. */
  function Children(parent: Cidr, bits: Bits, count: nat): seq<Cidr>
    requires parent.V4? && parent.bits <= bits && count <= Pow2(bits - parent.bits)
  {
    seq(count, i requires 0 <= i < count => Child(parent, bits, i))
  }

  /** What a carve promises: aligned blocks of one size inside the parent, each
      starting where the one before it ends, none sharing an address. */
  ghost predicate Carved(parent: Cidr, blocks: seq<Cidr>, bits: Bits)
    requires parent.V4?
  {
    && (forall i :: 0 <= i < |blocks| ==> blocks[i].V4? && blocks[i].bits == bits && Aligned(blocks[i]))
    && (forall i, a: Word :: 0 <= i < |blocks| && Holds(blocks[i], a) ==> Holds(parent, a))
    && (|blocks| > 0 ==> Base(blocks[0]) == Base(parent))
    && (forall i, j :: 0 <= i && j == i + 1 && j < |blocks| ==> Base(blocks[j]) == End(blocks[i]))
    && (forall i, j, a: Word :: 0 <= i < j < |blocks| && Holds(blocks[i], a) ==> !Holds(blocks[j], a))
  }

  lemma ChildrenAreCarved(parent: Cidr, bits: Bits, count: nat)
    requires parent.V4? && parent.bits <= bits && count <= Pow2(bits - parent.bits)
    ensures Carved(parent, Children(parent, bits, count), bits)
  {
    var blocks := Children(parent, bits, count);
    forall i | 0 <= i < count
      ensures Aligned(blocks[i]) && Base(blocks[i]) == Start(parent, bits, i)
           && End(blocks[i]) == Start(parent, bits, i + 1)
    {
      ChildHolds(parent, bits, i, 0);
    }
    forall i, a: Word | 0 <= i < count && Holds(blocks[i], a) ensures Holds(parent, a) {
      ChildHolds(parent, bits, i, a);
      ChildFits(parent, bits, i);
      StartMonotone(parent, bits, 0, i);
      BlockIsInterval(parent, a);
    }
    if count > 0 { StartMonotone(parent, bits, 0, 0); }
    forall i, j, a: Word | 0 <= i < j < count && Holds(blocks[i], a) ensures !Holds(blocks[j], a) {
      ChildHolds(parent, bits, i, a);
      ChildHolds(parent, bits, j, a);
      StartMonotone(parent, bits, i + 1, j);
    }
  }

  /** The last child ends where the parent does. */
  lemma LastChildEnds(parent: Cidr, bits: Bits)
    requires parent.V4? && parent.bits <= bits
    ensures Start(parent, bits, Pow2(bits - parent.bits)) == End(parent)
  {
    PowSum(bits - parent.bits, IPV4_BITS - bits);
  }

  lemma {:induction false} SomeChildHolds(parent: Cidr, bits: Bits, count: nat, a: Word) returns (i: nat)
    requires parent.V4? && parent.bits <= bits && count <= Pow2(bits - parent.bits)
    requires Base(parent) <= a < Start(parent, bits, count)
    ensures i < count && Holds(Child(parent, bits, i), a)
    decreases count
  {
    StartMonotone(parent, bits, 0, 0);
    i := count - 1;
    if a < Start(parent, bits, i) {
      i := SomeChildHolds(parent, bits, i, a);
    } else {
      ChildHolds(parent, bits, i, a);
    }
  }

  ghost predicate SomeHolds(blocks: seq<Cidr>, a: Word) {
    exists i :: 0 <= i < |blocks| && blocks[i].V4? && Holds(blocks[i], a)
  }

  /** Together the blocks hold every address of the parent. */
  ghost predicate Tiles(parent: Cidr, blocks: seq<Cidr>)
    requires parent.V4?
  {
    forall a: Word :: Holds(parent, a) ==> SomeHolds(blocks, a)
  }

  /** The children cover the parent exactly when there are as many of them as fit. */
  lemma TilesExactlyWhen(parent: Cidr, bits: Bits, count: nat)
    requires parent.V4? && parent.bits <= bits && count <= Pow2(bits - parent.bits)
    ensures Tiles(parent, Children(parent, bits, count)) <==> count == Pow2(bits - parent.bits)
  {
    var blocks := Children(parent, bits, count);
    LastChildEnds(parent, bits);
    if count == Pow2(bits - parent.bits) {
      forall a: Word | Holds(parent, a) ensures SomeHolds(blocks, a) {
        BlockIsInterval(parent, a);
        var i := SomeChildHolds(parent, bits, count, a);
        assert Holds(blocks[i], a);
      }
    } else {
      ChildFits(parent, bits, count);
      StartMonotone(parent, bits, 0, count);
      var a: Word := Start(parent, bits, count);
      BlockIsInterval(parent, a);
      forall i | 0 <= i < count ensures !Holds(blocks[i], a) {
        ChildHolds(parent, bits, i, a);
        StartMonotone(parent, bits, i + 1, count);
      }
      assert Holds(parent, a) && !SomeHolds(blocks, a);
    }
  }

  /** createSubnetCIDR, in 32-bit words. */
  function CreateSubnet(base: Word, index: Word, size: Word, bits: Bits): Cidr {
    V4(Wrap(base + Wrap(index * size)), bits)
  }

  lemma NoWrapArithmetic(base: nat, index: nat, size: nat)
    requires size > 0 && base + index * size < WORD
    ensures index <= index * size && Wrap(index) == index && Wrap(base + Wrap(Wrap(index) * size)) == base + index * size
  {
    Multiples(1, size, index);
    assert index * size >= index;
    assert 0 <= index * size < WORD;
  }

  /** No product or sum of a carve wraps, and its bounds check never fires. */
  lemma NoWrap(parent: Cidr, bits: Bits, index: nat)
    requires parent.V4? && parent.bits < bits && index < Pow2(bits - parent.bits)
    ensures index < WORD
    ensures CreateSubnet(Base(parent), index, ShiftOne(IPV4_BITS - bits), bits) == Child(parent, bits, index)
    ensures IsSubnetWithinParent(parent, Child(parent, bits, index))
  {
    ChildFits(parent, bits, index);
    ShiftIsSize(bits);
    NoWrapArithmetic(Base(parent), index, Size(bits));
    ChildHolds(parent, bits, index, 0);
    StartMonotone(parent, bits, 0, index);
    LastIsRight(parent);
    LastIsRight(Child(parent, bits, index));
  }

  /** How many blocks of `bits` bits a block of `from` bits holds. */
  function Fanout(from: Bits, bits: int): (r: nat)
    ensures r > 0
  {
    Pow2(if bits < from then 0 else bits - from)
  }

  /** The shortest prefix above `from`, up to /30, that makes at least `count`. */
  predicate IsNewPrefix(from: Bits, count: int, bits: int) {
    && from < bits <= MAX_BIT_SHIFT && Fanout(from, bits) >= count
    && forall b :: from < b < bits ==> Fanout(from, b) < count
  }

  method CalculateNewPrefix(from: Bits, count: int) returns (r: Option<Bits>)
    ensures r.Some? ==> IsNewPrefix(from, count, r.value)
    ensures r.None? ==> forall b :: !IsNewPrefix(from, count, b)
  {
    var bits := from + 1;
    while bits <= MAX_BIT_SHIFT
      invariant from < bits
      invariant forall b :: from < b < bits && b <= MAX_BIT_SHIFT ==> Fanout(from, b) < count
    {
      if Fanout(from, bits) >= count { return Some(bits); }
      bits := bits + 1;
    }
    return None;
  }

  /** A new prefix exists exactly when /30 blocks are enough. */
  lemma NewPrefixExistsExactlyWhen(from: Bits, count: int)
    ensures (exists b :: IsNewPrefix(from, count, b)) <==> from < MAX_BIT_SHIFT && count <= Fanout(from, MAX_BIT_SHIFT)
  {
    if exists b :: IsNewPrefix(from, count, b) {
      var b :| IsNewPrefix(from, count, b);
      if b < MAX_BIT_SHIFT { PowMonotone(b - from, MAX_BIT_SHIFT - from); }
    }
    if from < MAX_BIT_SHIFT && count <= Fanout(from, MAX_BIT_SHIFT) {
      var r := LeastPrefix(from, count, MAX_BIT_SHIFT);
    }
  }

  lemma {:induction false} LeastPrefix(from: Bits, count: int, top: int) returns (b: int)
    requires from < top <= MAX_BIT_SHIFT && count <= Fanout(from, top)
    ensures IsNewPrefix(from, count, b)
    decreases top
  {
    if top - 1 > from && count <= Fanout(from, top - 1) {
      b := LeastPrefix(from, count, top - 1);
    } else {
      b := top;
      forall c | from < c < b ensures Fanout(from, c) < count {
        if c < top - 1 { PowMonotone(c - from, top - 1 - from); }
      }
    }
  }

  method GenerateSubnets(parent: Cidr, bits: Bits, count: nat) returns (r: seq<Cidr>)
    requires parent.V4? && parent.bits < bits && count <= MAX_INT32 && count <= Pow2(bits - parent.bits)
    ensures r == Children(parent, bits, count)
  {
    var base, size := Base(parent), ShiftOne(IPV4_BITS - bits);
    var subnets := new Cidr[count](_ => Bad);
    var index := 0;
    while index < count
      invariant index <= count
      invariant forall i :: 0 <= i < index ==> subnets[i] == Child(parent, bits, i)
    {
      NoWrap(parent, bits, index);
      var subnet := CreateSubnet(base, index, size, bits);
      // The source would return the subnets carved so far.
      if !IsSubnetWithinParent(parent, subnet) {
        assert false;
        return [];
      }
      subnets[index] := subnet;
      index := index + 1;
    }
    return subnets[..];
  }

  predicate IsValidCount(count: int) { 0 < count <= MAX_INT32 }

  ghost predicate CanSplitIntoN(parent: Cidr, count: int) {
    IsValidCount(count) && parent.V4? && parent.bits < MAX_BIT_SHIFT && count <= Pow2(MAX_BIT_SHIFT - parent.bits)
  }

  /** The result of a split at the shortest prefix that will do: carved, and
      covering the parent exactly when the count is a power of two above 1. */
  ghost predicate IsSplit(parent: Cidr, count: int, blocks: seq<Cidr>, bits: Bits) {
    && parent.V4? && IsNewPrefix(parent.bits, count, bits)
    && |blocks| == count && Carved(parent, blocks, bits)
    && (Tiles(parent, blocks) <==> exists k: nat :: k > 0 && IsPower(k, count))
  }

  predicate IsPower(k: nat, count: int) { Pow2(k) == count }

  lemma Shorter(from: Bits, bits: int, count: int, k: nat)
    requires IsNewPrefix(from, count, bits) && 0 < k < bits - from
    ensures Pow2(k) < count
  {
    assert Fanout(from, from + k) < count;
  }

  lemma FillsExactlyWhenPower(from: Bits, bits: int, count: int)
    requires IsNewPrefix(from, count, bits)
    ensures count == Fanout(from, bits) <==> exists k: nat :: k > 0 && IsPower(k, count)
  {
    var fit := bits - from;
    if count == Fanout(from, bits) { assert IsPower(fit, count); }
    forall k: nat | k > 0 && IsPower(k, count) ensures k == fit {
      if k < fit {
        Shorter(from, bits, count, k);
      } else if k > fit {
        PowMonotone(fit, k);
      }
    }
  }

  lemma NewPrefixSplits(parent: Cidr, bits: Bits, count: nat)
    requires parent.V4? && IsNewPrefix(parent.bits, count, bits)
    ensures IsSplit(parent, count, Children(parent, bits, count), bits)
  {
    ChildrenAreCarved(parent, bits, count);
    TilesExactlyWhen(parent, bits, count);
    FillsExactlyWhenPower(parent.bits, bits, count);
  }

  /** nil, here the empty sequence, exactly when not even /30 blocks are enough. */
  method SplitIntoN(parent: Cidr, count: int) returns (r: seq<Cidr>)
    ensures r != [] <==> CanSplitIntoN(parent, count)
    ensures r != [] ==> exists bits: Bits :: IsSplit(parent, count, r, bits)
  {
    if !IsValidCount(count) { return []; }
    if !parent.V4? { return []; }
    NewPrefixExistsExactlyWhen(parent.bits, count);
    var bits := CalculateNewPrefix(parent.bits, count);
    if bits.None? { return []; }
    assert IsNewPrefix(parent.bits, count, bits.value);
    r := GenerateSubnets(parent, bits.value, count);
    NewPrefixSplits(parent, bits.value, count);
  }

  ghost predicate CanSplitTo(parent: Cidr, bits: int, count: int) {
    IsValidCount(count) && parent.V4? && parent.bits < bits <= IPV4_BITS && count <= Fanout(parent.bits, bits)
  }

  method SplitToTargetPrefix(parent: Cidr, bits: int, count: int) returns (r: seq<Cidr>)
    ensures r != [] <==> CanSplitTo(parent, bits, count)
    ensures r != [] ==> |r| == count && Carved(parent, r, bits) && (Tiles(parent, r) <==> count == Fanout(parent.bits, bits))
  {
    if !IsValidCount(count) { return []; }
    if bits <= 0 || bits > IPV4_BITS { return []; }
    if !parent.V4? { return []; }
    if bits <= parent.bits { return []; }
    if count > Pow2(bits - parent.bits) { return []; }
    var base, stride := Base(parent), ShiftOne(IPV4_BITS - bits);
    var subnets := new Cidr[count](_ => Bad);
    var i := 0;
    while i < count
      invariant i <= count
      invariant forall k :: 0 <= k < i ==> subnets[k] == Child(parent, bits, k)
    {
      NoWrap(parent, bits, i);
      var subnet := CreateSubnet(base, i, stride, bits);
      if !IsSubnetWithinParent(parent, subnet) {
        assert false;
        return [];
      }
      subnets[i] := subnet;
      i := i + 1;
    }
    ChildrenAreCarved(parent, bits, count);
    TilesExactlyWhen(parent, bits, count);
    assert subnets[..] == Children(parent, bits, count);
    return subnets[..];
  }

  /** The two halves of a parent that is not a /30 or smaller. */
  method SplitParentIntoTwo(parent: Cidr) returns (r: Option<(Cidr, Cidr)>)
    ensures r.Some? <==> parent.V4? && parent.bits < MAX_BIT_SHIFT
    ensures r.Some? ==> Carved(parent, [r.value.0, r.value.1], parent.bits + 1) && Tiles(parent, [r.value.0, r.value.1])
  {
    if !parent.V4? { return None; }
    HalvesFit(parent.bits);
    var bits := CalculateNewPrefix(parent.bits, 2);
    if bits.None? { return None; }
    var subnets := GenerateSubnets(parent, bits.value, 2);
    assert subnets == [subnets[0], subnets[1]];
    ChildrenAreCarved(parent, bits.value, 2);
    TilesExactlyWhen(parent, bits.value, 2);
    return Some((subnets[0], subnets[1]));
  }

  lemma HalvesFit(bits: Bits)
    ensures Fanout(bits, bits + 1) == 2
    ensures bits < MAX_BIT_SHIFT ==> IsNewPrefix(bits, 2, bits + 1)
  {
    assert Pow2(1) == 2;
  }

  const PVE_PREFIX: nat := 22
  const PVE_COUNT: nat := 4

  predicate CanCarvePve(parent: Cidr) { parent.V4? && parent.bits <= 28 }

  /** createPVEVirtualSubnets' carve: four /22 blocks, or a plain split in four. */
  method CarvePve(parent: Cidr) returns (r: Option<seq<Cidr>>)
    ensures r.Some? <==> CanCarvePve(parent)
    ensures r.Some? ==> |r.value| == 4
    ensures CanSplitTo(parent, 22, 4) ==> r.Some? && Carved(parent, r.value, 22)
    ensures r.Some? && !CanSplitTo(parent, 22, 4) ==> exists bits: Bits :: IsSplit(parent, 4, r.value, bits)
  {
    PvePrefixes(parent);
    var subnets := SplitToTargetPrefix(parent, PVE_PREFIX, PVE_COUNT);
    if |subnets| != PVE_COUNT {
      subnets := SplitIntoN(parent, PVE_COUNT);
    }
    if |subnets| != PVE_COUNT { return None; }
    return Some(subnets);
  }

  lemma PvePrefixes(parent: Cidr)
    ensures CanCarvePve(parent) <==> CanSplitTo(parent, PVE_PREFIX, PVE_COUNT) || CanSplitIntoN(parent, PVE_COUNT)
  {
    assert Pow2(2) == 4;
    if parent.V4? {
      if parent.bits < 20 { PowMonotone(2, 22 - parent.bits); }
      if parent.bits == 21 { assert Pow2(1) == 2; }
      if parent.bits < 28 { PowMonotone(2, MAX_BIT_SHIFT - parent.bits); }
      if parent.bits == 29 { assert Pow2(1) == 2; }
    }
  }

  // ----- Addresses in a block -----

  datatype Placement = Address(ip: Ip) | NegativeOffset | InvalidCidr | OffsetOutOfRange

  function CalculateIp(c: Cidr, offset: int): Placement
    requires !c.V6?
  {
    if offset < 0 then NegativeOffset
    else if c.Bad? then InvalidCidr
    else if offset > WORD - 1 then OffsetOutOfRange
    else Address(ToIp(Wrap(Base(c) + offset)))
  }

  function GatewayIp(c: Cidr): Option<Ip>
    requires !c.V6?
  {
    if c.Bad? then None else Some(ToIp(Wrap(Base(c) + 1)))
  }

  function LastUsableIp(c: Cidr): Option<Ip>
    requires !c.V6?
  {
    if c.Bad? then None
    else
      var size := ShiftOne(IPV4_BITS - c.bits);
      if size < 2 then None else Some(ToIp(Wrap(Wrap(Base(c) + size) - 2)))
  }

  lemma WrapAbove(base: Word, offset: Word, size: nat)
    requires base + size <= WORD
    ensures base <= Wrap(base + offset) < base + size <==> offset < size
    ensures offset < size ==> Wrap(base + offset) == base + offset
  {
    assert Wrap(base + offset) == base + offset || Wrap(base + offset) == base + offset - WORD;
  }

  /** The address placed, here as the word `a`, is inside the block exactly when
      the offset is below the block's size. */
  lemma PlacementIsInsideExactlyWhen(c: Cidr, offset: Word) returns (a: Word)
    requires c.V4?
    ensures CalculateIp(c, offset) == Address(ToIp(a))
    ensures Holds(c, a) <==> offset < Size(c.bits)
    ensures offset < Size(c.bits) ==> a == Base(c) + offset
  {
    a := Wrap(Base(c) + offset);
    BlockIsInterval(c, a);
    WrapAbove(Base(c), offset, Size(c.bits));
  }

  lemma SameIpSameWord(a: Word, b: Word)
    requires ToIp(a) == ToIp(b)
    ensures a == b
  {
    WordRoundTrip(a);
    WordRoundTrip(b);
  }

  /** No two placements in the blocks of a carve are the same address. */
  lemma PlacementsNeverCollide(parent: Cidr, blocks: seq<Cidr>, bits: Bits, i: nat, j: nat, x: Word, y: Word)
    requires parent.V4? && Carved(parent, blocks, bits) && i < |blocks| && j < |blocks|
    requires x < Size(bits) && y < Size(bits)
    requires CalculateIp(blocks[i], x) == CalculateIp(blocks[j], y)
    ensures i == j && x == y
  {
    var a := PlacementIsInsideExactlyWhen(blocks[i], x);
    var b := PlacementIsInsideExactlyWhen(blocks[j], y);
    SameIpSameWord(a, b);
  }

  lemma TwoOrMore(bits: Bits)
    ensures Size(bits) >= 2 <==> bits < IPV4_BITS
  {
    if bits < IPV4_BITS { PowMonotone(0, IPV4_BITS - bits); }
  }

  /** The gateway is the placement at offset 1, inside every block but a /32. */
  lemma GatewayIsInsideExactlyWhen(c: Cidr) returns (a: Word)
    requires c.V4?
    ensures GatewayIp(c) == Some(ToIp(a)) && CalculateIp(c, 1) == Address(ToIp(a))
    ensures Holds(c, a) <==> c.bits < IPV4_BITS
  {
    a := PlacementIsInsideExactlyWhen(c, 1);
    TwoOrMore(c.bits);
  }

  lemma WrapBelow(base: nat, size: nat)
    requires 2 <= size && base + size <= WORD
    ensures Wrap(Wrap(base + size) - 2) == base + size - 2
  {
  }

  /** There is a last usable address exactly from /1 to /31, since the size of /0
      wraps to 0; then it is the one before the block's last. */
  lemma LastUsableExactlyWhen(c: Cidr) returns (a: Word)
    requires c.V4?
    ensures LastUsableIp(c) == if 1 <= c.bits <= 31 then Some(ToIp(a)) else None
    ensures 1 <= c.bits <= 31 ==> a == End(c) - 2 && Holds(c, a)
  {
    ShiftIsSize(c.bits);
    TwoOrMore(c.bits);
    a := 0;
    if 1 <= c.bits <= 31 {
      EndFits(c);
      WrapBelow(Base(c), Size(c.bits));
      a := Wrap(Wrap(Base(c) + Size(c.bits)) - 2);
      BlockIsInterval(c, a);
    }
  }
}
