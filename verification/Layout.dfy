/** Where the three areas of a queue lie in memory, and the allocator that places queues. */
module Layout {
  import opened Wrap
  import opened Bits
  import opened Records

  const PAGE_SIZE: nat := 4096

  /** Clears the low twelve bits of `n + 4096`: adds a whole page to an exact multiple. */
  function AlignUp(n: nat): nat {
    (n + PAGE_SIZE) / PAGE_SIZE * PAGE_SIZE
  }

  function Pages(n: nat): nat {
    (n + PAGE_SIZE - 1) / PAGE_SIZE
  }

  /** `n` rounded up to whole pages. */
  function RoundUp(n: nat): nat {
    Pages(n) * PAGE_SIZE
  }

  function DescBytes(size: nat): nat { 16 * size }

  function AvailBytes(size: nat): nat { 2 * size + 6 }

  /** The trailing 16-bit field is padded to the alignment of the elements. */
  function UsedBytes(size: nat): nat { 8 * size + 8 }

  /** The sizes are those of the records `Descriptor` (which asks for alignment 16), `AvailRing` and `UsedRing`. */
  lemma RecordSizes(size: nat)
    ensures DescBytes(size) == size * RoundTo(SizeOf([U64, U32, U16, U16]), 16)
    ensures AvailBytes(size) == SizeOf([U16, U16, ArrayOf(size, U16), U16])
    ensures UsedBytes(size) == SizeOf([U16, U16, ArrayOf(size, Field(SizeOf([U32, U32]), AlignOf([U32, U32]))), U16])
  {
    DescriptorSize();
    AvailRingSize(size);
    UsedRingSize(size);
  }

  lemma DescriptorSize()
    ensures SizeOf([U64, U32, U16, U16]) == 16
  {
    SizeOfFour(U64, U32, U16, U16);
  }

  lemma UsedElemSize()
    ensures SizeOf([U32, U32]) == 8 && AlignOf([U32, U32]) == 4
  {
    SizeOfTwo(U32, U32);
  }

  lemma AvailRingSize(size: nat)
    ensures AvailBytes(size) == SizeOf([U16, U16, ArrayOf(size, U16), U16])
  {
    var ring := ArrayOf(size, U16);
    RingEnd(ring, 2, 2 + size);
    RoundEven(3 + size);
  }

  lemma UsedRingSize(size: nat)
    ensures UsedBytes(size) == SizeOf([U16, U16, ArrayOf(size, Field(SizeOf([U32, U32]), AlignOf([U32, U32]))), U16])
  {
    UsedElemSize();
    var ring := ArrayOf(size, Field(8, 4));
    RingEnd(ring, 4, 2 + 4 * size);
    RoundFour(2 * size + 1);
  }

  /** Two flags in front of a ring and one field behind it. */
  lemma RingEnd(ring: Field, align: nat, half: nat)
    requires ring.align == align && (align == 2 || align == 4) && 4 + ring.size == 2 * half
    ensures EndOf([U16, U16, ring, U16]) == 2 * half + 2
    ensures AlignOf([U16, U16, ring, U16]) == align
  {
    SizeOfFour(U16, U16, ring, U16);
    assert RoundTo(0, 2) == 0 && RoundTo(2, 2) == 2 && RoundTo(4, 2) == 4 && RoundTo(4, 4) == 4;
    RoundEven(half);
  }

  lemma RoundEven(k: nat)
    ensures RoundTo(2 * k, 2) == 2 * k
  {
  }

  lemma RoundFour(k: nat)
    ensures RoundTo(4 * k + 2, 4) == 4 * k + 4
  {
  }

  function AvailOffset(size: nat): nat { DescBytes(size) }

  function UsedOffset(size: nat): nat { AlignUp(DescBytes(size) + AvailBytes(size)) }

  function TotalSize(size: nat): nat {
    AlignUp(DescBytes(size) + AvailBytes(size)) + AlignUp(UsedBytes(size))
  }

  /** On 64-bit words it is the mask that the code computes. */
  lemma AlignUpIsMask(n: nat)
    requires n + PAGE_SIZE < 0x1_0000_0000_0000_0000
    ensures And(n + PAGE_SIZE, 0xFFFF_FFFF_FFFF_F000) == AlignUp(n)
  {
    var y := (n + PAGE_SIZE) / PAGE_SIZE;
    Pow2Of52();
    AndShift12(n + PAGE_SIZE, Pow2(52) - 1);
    AndOnes(y, 52);
  }

  lemma Pow2Of52()
    ensures Pow2(52) == 0x10_0000_0000_0000
  {
    Pow2Of16();
    assert Pow2(20) == 0x10_0000;
    assert Pow2(24) == 0x100_0000;
    assert Pow2(28) == 0x1000_0000;
    assert Pow2(32) == 0x1_0000_0000;
    assert Pow2(36) == 0x10_0000_0000;
    assert Pow2(40) == 0x100_0000_0000;
    assert Pow2(44) == 0x1000_0000_0000;
    assert Pow2(48) == 0x1_0000_0000_0000;
  }

  lemma AlignUpIsRoundUp(n: nat)
    ensures n <= AlignUp(n) && AlignUp(n) % PAGE_SIZE == 0
    ensures AlignUp(n) == RoundUp(n) <==> n % PAGE_SIZE != 0
    ensures n % PAGE_SIZE == 0 ==> AlignUp(n) == RoundUp(n) + PAGE_SIZE
  {
  }

  lemma PowerOfTwoShape(size: nat)
    requires IsPowerOfTwo(size)
    ensures size == 1 || size == 2 || size % 4 == 0
  {
    if size > 2 {
      assert IsPowerOfTwo(size / 2);
    }
  }

  /** The sizes that `new` rounds are never whole pages, so rounding adds no spare page. */
  lemma NeverWholePages(size: nat)
    requires Accepted(size)
    ensures (DescBytes(size) + AvailBytes(size)) % PAGE_SIZE != 0 && UsedBytes(size) % PAGE_SIZE != 0
  {
    PowerOfTwoShape(size);
    var a, b := 18 * size + 6, 8 * size + 8;
    if size % 4 == 0 {
      assert a == 8 * (size / 4 * 9) + 6;
      assert b == 16 * (size / 2) + 8;
    }
  }

  lemma NoSparePage(size: nat)
    requires Accepted(size)
    ensures UsedOffset(size) == RoundUp(DescBytes(size) + AvailBytes(size))
    ensures TotalSize(size) == RoundUp(DescBytes(size) + AvailBytes(size)) + RoundUp(UsedBytes(size))
    ensures TotalSize(size) == RoundUp(TotalSize(size))
  {
    NeverWholePages(size);
    AlignUpIsRoundUp(DescBytes(size) + AvailBytes(size));
    AlignUpIsRoundUp(UsedBytes(size));
  }

  // ---------------------------------------------------------------- areas

  datatype Area = Area(start: nat, len: nat) {
    predicate Contains(a: Area) {
      start <= a.start && a.start + a.len <= start + len
    }

    predicate Apart(a: Area) {
      start + len <= a.start || a.start + a.len <= start
    }
  }

  /** The descriptor table, the available ring and the used ring of a queue placed at `base`. */
  function Areas(base: nat, size: nat): (areas: seq<Area>)
    ensures |areas| == 3
  {
    [ Area(base, DescBytes(size)),
      Area(base + AvailOffset(size), AvailBytes(size)),
      Area(base + UsedOffset(size), UsedBytes(size)) ]
  }

  /** A multiple of a page is a multiple of every divisor of a page. */
  lemma PagesAligned(k: nat, d: nat, q: nat)
    requires 0 < d && q * d == PAGE_SIZE
    ensures PAGE_SIZE * k % d == 0
  {
    assert PAGE_SIZE * k == (q * k) * d;
    ModAddMultiple(q * k, d, 0);
  }

  lemma EvenShift(a: nat, size: nat)
    requires a % 2 == 0
    ensures (a + 16 * size) % 2 == 0
  {
    assert a + 16 * size == (a / 2 + 8 * size) * 2;
    ModAddMultiple(a / 2 + 8 * size, 2, 0);
  }

  /** What the placement needs to know of the sizes. */
  lemma Sizes(size: nat)
    requires Accepted(size)
    ensures DescBytes(size) + AvailBytes(size) <= UsedOffset(size)
    ensures UsedOffset(size) + UsedBytes(size) <= Pages(TotalSize(size)) * PAGE_SIZE
  {
    NoSparePage(size);
    AlignUpIsRoundUp(DescBytes(size) + AvailBytes(size));
    AlignUpIsRoundUp(UsedBytes(size));
  }

  lemma AreasAligned(base: nat, size: nat)
    requires base % PAGE_SIZE == 0
    ensures base % 16 == 0 && (base + AvailOffset(size)) % 2 == 0 && (base + UsedOffset(size)) % 4 == 0
  {
    var b, u := base / PAGE_SIZE, (DescBytes(size) + AvailBytes(size) + PAGE_SIZE) / PAGE_SIZE;
    assert base == PAGE_SIZE * b && UsedOffset(size) == PAGE_SIZE * u;
    PagesAligned(b, 16, 256);
    PagesAligned(b, 2, 2048);
    PagesAligned(b + u, 4, 1024);
    assert base + UsedOffset(size) == PAGE_SIZE * (b + u);
    EvenShift(base, size);
  }

  /** The areas of one queue are apart, inside its pages, and aligned as section 2.6 of VIRTIO 1.1 demands. */
  lemma AreasFit(base: nat, size: nat)
    requires Accepted(size) && base % PAGE_SIZE == 0
    ensures forall i, j :: 0 <= i < j < 3 ==> Areas(base, size)[i].Apart(Areas(base, size)[j])
    ensures forall i :: 0 <= i < 3 ==> Area(base, Pages(TotalSize(size)) * PAGE_SIZE).Contains(Areas(base, size)[i])
    ensures Areas(base, size)[0].start % 16 == 0 && Areas(base, size)[1].start % 2 == 0
    ensures Areas(base, size)[2].start % 4 == 0
  {
    Sizes(size);
    AreasAligned(base, size);
  }

  // ---------------------------------------------------------------- allocation

  /** What a driver asks the allocator for: the pages of a queue, or a buffer. */
  datatype Request = ForQueue(size: nat) | ForBuffer(pages: nat) {
    function Need(): nat {
      match this
      case ForQueue(size) => Pages(TotalSize(size))
      case ForBuffer(pages) => pages
    }
  }

  datatype Grant = Grant(base: nat, request: Request) {
    function Region(): Area {
      Area(base, request.Need() * PAGE_SIZE)
    }

    /** The memory the holder of the grant uses. */
    function Used(): seq<Area> {
      if request.ForQueue? then Areas(base, request.size) else [Region()]
    }
  }

  /** Grants in the order they were made: whole pages, one behind the other. */
  ghost predicate Packed(grants: seq<Grant>, next: nat) {
    && next % PAGE_SIZE == 0
    && (forall i :: 0 <= i < |grants| ==>
          grants[i].base % PAGE_SIZE == 0 && grants[i].base + grants[i].Region().len <= next)
    && (forall i :: 0 <= i < |grants| ==> grants[i].request.ForQueue? ==> Accepted(grants[i].request.size))
    && (forall i, j :: 0 <= i < j < |grants| ==> grants[i].base + grants[i].Region().len <= grants[j].base)
  }

  lemma UsedInside(g: Grant, i: nat)
    requires g.base % PAGE_SIZE == 0 && i < |g.Used()|
    requires g.request.ForQueue? ==> Accepted(g.request.size)
    ensures g.Region().Contains(g.Used()[i])
  {
    if g.request.ForQueue? {
      AreasFit(g.base, g.request.size);
    }
  }

  /** Over any run of the allocator no two areas of any two queues or buffers overlap. */
  lemma AllApart(grants: seq<Grant>, next: nat, i: nat, j: nat, a: nat, b: nat)
    requires Packed(grants, next) && i < |grants| && j < |grants|
    requires a < |grants[i].Used()| && b < |grants[j].Used()| && (i, a) != (j, b)
    ensures grants[i].Used()[a].Apart(grants[j].Used()[b])
  {
    UsedInside(grants[i], a);
    UsedInside(grants[j], b);
    if i == j {
      AreasFit(grants[i].base, grants[i].request.size);
    }
  }

  /** Hands out pages by advancing one counter. */
  class BumpAllocator {
    var next: u64
    ghost var grants: seq<Grant>

    ghost predicate Valid()
      reads this
    {
      Packed(grants, next)
    }

    constructor (start: u64)
      requires start % PAGE_SIZE == 0
      ensures Valid() && next == start && grants == []
    {
      next, grants := start, [];
    }

    /** The counter wraps around silently; the grants stay apart as long as it does not. */
    method DmaAlloc(pages: nat, ghost request: Request) returns (paddr: u64)
      requires Valid() && request.Need() == pages
      requires request.ForQueue? ==> Accepted(request.size)
      modifies this
      ensures paddr == old(next) && grants == old(grants) + [Grant(paddr, request)]
      ensures paddr + pages * PAGE_SIZE < 0x1_0000_0000_0000_0000 ==> Valid() && next == paddr + pages * PAGE_SIZE
    {
      paddr := next;
      next := (next + pages * PAGE_SIZE) % 0x1_0000_0000_0000_0000;
      grants := grants + [Grant(paddr, request)];
    }
  }
}
