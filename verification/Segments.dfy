/** The memory segments of a process (context.h) and where they lie in its tree. */
module Segments {
  import opened PageTable

  const PAGE_SIZE: nat := 0x1000
  const CODE_START: nat := 0x1_0000_0000
  const RODATA_START: nat := 0x1_4000_0000
  const DATA_START: nat := 0x1_8000_0000
  const STACK_START: nat := 0x8_0000_0000
  const MAX_STACK_SIZE: nat := 0x100_0000
  const CODE_PAGES: nat := 8

  datatype Segment = Segment(start: nat, end: nat, nextFree: nat, accessFlags: nat)

  /** The four segments, in the order of `mms`. */
  datatype Segs = Segs(code: Segment, rodata: Segment, data: Segment, stack: Segment)

  predicate Aligned(va: nat) {
    va % PAGE_SIZE == 0
  }

  /** What `create_context` and `exec_init` set up, and what `do_expand` and
      `do_shrink` keep: only the RODATA and DATA break pointers move, page by page,
      inside their segments. */
  predicate SegsOk(g: Segs) {
    && g.code == Segment(CODE_START, RODATA_START - 1, CODE_START + CODE_PAGES * PAGE_SIZE, 5)
    && g.rodata.start == RODATA_START && g.rodata.end == DATA_START - 1 && g.rodata.accessFlags == 1
    && g.data.start == DATA_START && g.data.end == STACK_START - MAX_STACK_SIZE - 1 && g.data.accessFlags == 3
    && g.stack == Segment(STACK_START - MAX_STACK_SIZE, STACK_START, STACK_START - PAGE_SIZE, 3)
    && Breaks(g.rodata) && Breaks(g.data)
  }

  predicate Breaks(seg: Segment) {
    seg.start <= seg.nextFree <= seg.end && Aligned(seg.nextFree)
  }

  /** The address of a page. */
  function VaOf(l: Node): nat
    requires l.Leaf?
  {
    l.a * 0x80_0000_0000 + l.b * 0x4000_0000 + l.c * 0x20_0000 + l.d * 0x1000
  }

  predicate InRange(l: Node) {
    l.Leaf? && l.a < ENTRIES && l.b < ENTRIES && l.c < ENTRIES && l.d < ENTRIES
  }

  /** A page number's quotients, one level at a time. */
  lemma Levels(va: nat)
    ensures va / 0x1000 / 512 == va / 0x20_0000 && va / 0x20_0000 / 512 == va / 0x4000_0000
    ensures va / 0x4000_0000 / 512 == va / 0x80_0000_0000
  {
  }

  lemma SplitLevel(x: nat)
    ensures x == x / 512 * 512 + x % 512
  {
  }

  lemma JoinLevel(q: nat, r: nat)
    requires r < 512
    ensures (q * 512 + r) / 512 == q && (q * 512 + r) % 512 == r
  {
  }

  lemma PageNumber(p: nat)
    ensures p * 0x1000 / 0x1000 == p && Aligned(p * 0x1000)
  {
  }

  /** The four indices determine the page and are determined by it. */
  lemma PageOfAddress(va: nat)
    requires va < 0x1_0000_0000_0000
    ensures VaOf(LeafOf(va)) == va / PAGE_SIZE * PAGE_SIZE
  {
    Levels(va);
    SplitLevel(va / 0x1000);
    SplitLevel(va / 0x20_0000);
    SplitLevel(va / 0x4000_0000);
    assert va / 0x80_0000_0000 < 512;
  }

  lemma AddressOfPage(l: Node)
    requires InRange(l)
    ensures LeafOf(VaOf(l)) == l && VaOf(l) < 0x1_0000_0000_0000 && Aligned(VaOf(l))
  {
    var q := l.a * 512 + l.b;
    var r := q * 512 + l.c;
    var p := r * 512 + l.d;
    assert VaOf(l) == p * 0x1000;
    PageNumber(p);
    Levels(VaOf(l));
    JoinLevel(l.a, l.b);
    JoinLevel(q, l.c);
    JoinLevel(r, l.d);
    JoinedIndices(VaOf(l), l);
  }

  /** The four indices of an address whose quotients are these. */
  lemma JoinedIndices(va: nat, l: Node)
    requires InRange(l)
    requires va / 0x1000 % 512 == l.d && va / 0x20_0000 % 512 == l.c
    requires va / 0x4000_0000 % 512 == l.b && va / 0x80_0000_0000 == l.a
    ensures LeafOf(va) == l && va < 0x1_0000_0000_0000
  {
    assert l.a % 512 == l.a;
  }

  /** Every segment address is on the user side: PGD entry 0, PUD entry 4 to 31. */
  lemma UserSide(va: nat)
    requires CODE_START <= va < STACK_START
    ensures LeafOf(va).a == 0 && 4 <= LeafOf(va).b < 32 && !KernelSide(LeafOf(va))
  {
  }
}
