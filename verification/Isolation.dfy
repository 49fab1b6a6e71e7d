/** Address-space isolation over whole runs, on the abstract system: the page maps
    and segments of the live processes, and the set of free user frames. */
module Isolation {
  import opened PageTable
  import opened Segments
  import opened Fork

  /** One live process: its segments and its page map. */
  datatype Proc = Proc(segs: Segs, pages: map<Node, Pte>)

  /** The live processes by slot, and the user frames whose bit is clear. */
  datatype Sys = Sys(procs: map<nat, Proc>, free: set<nat>)

  // ---- Invariant --------------------------------------------------------

  /** A page of CODE or RODATA: what fork shares. */
  predicate ReadOnlySide(l: Node) {
    l.Leaf? && VaOf(l) < DATA_START
  }

  /** Where a process may have pages: its code, below the RODATA and DATA breaks,
      and anywhere in the stack segment. */
  predicate PagePlace(g: Segs, l: Node) {
    l.Leaf? && (
      || CODE_START <= VaOf(l) < CODE_START + CODE_PAGES * PAGE_SIZE
      || RODATA_START <= VaOf(l) < g.rodata.nextFree
      || DATA_START <= VaOf(l) < g.data.nextFree
      || STACK_START - MAX_STACK_SIZE <= VaOf(l) < STACK_START)
  }

  predicate PageOk(g: Segs, l: Node, p: Pte, free: set<nat>) {
    InRange(l) && PagePlace(g, l) && p.pfn !in free && (ReadOnlySide(l) ==> !WriteFlag(p))
  }

  ghost predicate ProcOk(q: Proc, free: set<nat>) {
    && SegsOk(q.segs)
    && LeafOf(CODE_START) in q.pages
    && (forall l | l in q.pages :: PageOk(q.segs, l, q.pages[l], free))
    && (forall l, k | l in q.pages && k in q.pages && l != k :: q.pages[l].pfn != q.pages[k].pfn)
  }

  /** Two processes may have a frame in common only in CODE and RODATA. */
  predicate Apart(a: Proc, b: Proc) {
    forall l, k | l in a.pages && k in b.pages && a.pages[l].pfn == b.pages[k].pfn :: ReadOnlySide(l) && ReadOnlySide(k)
  }

  ghost predicate SysOk(s: Sys) {
    && (forall i | i in s.procs :: ProcOk(s.procs[i], s.free))
    && (forall i, j | i in s.procs && j in s.procs && i != j :: Apart(s.procs[i], s.procs[j]))
  }

  /** What the invariant is for: a frame that one live process can write is in no
      other live address space, and nothing a live process maps is marked free. */
  ghost predicate Isolated(s: Sys) {
    && (forall i, j, l, k | i in s.procs && j in s.procs && l in s.procs[i].pages && k in s.procs[j].pages
          && WriteFlag(s.procs[i].pages[l]) && s.procs[i].pages[l].pfn == s.procs[j].pages[k].pfn
          :: i == j && l == k)
    && (forall i, l | i in s.procs && l in s.procs[i].pages :: s.procs[i].pages[l].pfn !in s.free)
  }

  lemma PageHolds(s: Sys, i: nat, l: Node)
    requires SysOk(s) && i in s.procs && l in s.procs[i].pages
    ensures PageOk(s.procs[i].segs, l, s.procs[i].pages[l], s.free)
  {
    assert ProcOk(s.procs[i], s.free);
  }

  lemma WritableApart(s: Sys, i: nat, j: nat, l: Node, k: Node)
    requires SysOk(s) && i in s.procs && j in s.procs && l in s.procs[i].pages && k in s.procs[j].pages
    requires WriteFlag(s.procs[i].pages[l]) && (i != j || l != k)
    ensures s.procs[i].pages[l].pfn != s.procs[j].pages[k].pfn
  {
    hide SegsOk, PagePlace, InRange, LeafOf, WriteFlag, ReadOnlySide;
    PageHolds(s, i, l);
    if i == j {
      assert ProcOk(s.procs[i], s.free);
    } else {
      assert Apart(s.procs[i], s.procs[j]);
    }
  }

  lemma InvariantIsolates(s: Sys)
    requires SysOk(s)
    ensures Isolated(s)
  {
    hide SysOk, WriteFlag;
    forall i, l | i in s.procs && l in s.procs[i].pages
      ensures s.procs[i].pages[l].pfn !in s.free
    {
      PageHolds(s, i, l);
    }
    forall i, j, l, k | i in s.procs && j in s.procs && l in s.procs[i].pages && k in s.procs[j].pages
      && WriteFlag(s.procs[i].pages[l]) && s.procs[i].pages[l].pfn == s.procs[j].pages[k].pfn
      ensures i == j && l == k
    {
      if i != j || l != k {
        WritableApart(s, i, j, l, k);
      }
    }
  }

  // ---- Steps ------------------------------------------------------------

  datatype Which = Rodata | Data

  function SegOf(g: Segs, which: Which): Segment {
    if which.Rodata? then g.rodata else g.data
  }

  function WithBreak(g: Segs, which: Which, nextFree: nat): Segs {
    if which.Rodata? then g.(rodata := g.rodata.(nextFree := nextFree)) else g.(data := g.data.(nextFree := nextFree))
  }

  /** A handled page fault: one free frame is mapped at one allowed page. */
  ghost predicate FaultStep(s: Sys, t: Sys, i: nat, l: Node, p: Pte) {
    && i in s.procs && l !in s.procs[i].pages && p.pfn in s.free
    && InRange(l) && PagePlace(s.procs[i].segs, l) && (ReadOnlySide(l) ==> !WriteFlag(p))
    && t == Sys(s.procs[i := s.procs[i].(pages := s.procs[i].pages[l := p])], s.free - {p.pfn})
  }

  /** A successful `do_expand`: the break moves up inside its segment. */
  ghost predicate ExpandStep(s: Sys, t: Sys, i: nat, which: Which, nextFree: nat) {
    && i in s.procs
    && var seg := SegOf(s.procs[i].segs, which);
      && seg.nextFree <= nextFree <= seg.end && Aligned(nextFree)
      && t == s.(procs := s.procs[i := s.procs[i].(segs := WithBreak(s.procs[i].segs, which, nextFree))])
  }

  /** The mapped pages between two break values. */
  function Between(q: Proc, lo: nat, hi: nat): set<Node> {
    set l | l in q.pages && l.Leaf? && lo <= VaOf(l) < hi
  }

  function FramesAt(q: Proc, ls: set<Node>): set<nat> {
    set l | l in ls && l in q.pages :: q.pages[l].pfn
  }

  function ShrinkProc(q: Proc, which: Which, nextFree: nat): Proc {
    q.(segs := WithBreak(q.segs, which, nextFree),
       pages := q.pages - Between(q, nextFree, SegOf(q.segs, which).nextFree))
  }

  /** A successful `do_shrink`: exactly the mapped pages in [new break, old break)
      are unmapped and their frames freed. */
  ghost predicate ShrinkStep(s: Sys, t: Sys, i: nat, which: Which, nextFree: nat) {
    && i in s.procs
    && var q := s.procs[i];
      && SegOf(q.segs, which).start <= nextFree <= SegOf(q.segs, which).nextFree && Aligned(nextFree)
      && t == Sys(s.procs[i := ShrinkProc(q, which, nextFree)],
                  s.free + FramesAt(q, Between(q, nextFree, SegOf(q.segs, which).nextFree)))
  }

  /** What fork gives the child: shared pages on the same frames, read-only; private
      pages on free frames, no two alike. */
  ghost predicate ChildOf(a: Proc, b: Proc, free: set<nat>) {
    && b.segs == a.segs
    && (forall l: Node :: l in b.pages <==> l in a.pages && (SharedPage(a.segs, l) || PrivatePage(a.segs, l)))
    && (forall l | l in b.pages && SharedPage(a.segs, l) :: b.pages[l].pfn == a.pages[l].pfn && !WriteFlag(b.pages[l]))
    && (forall l | l in b.pages && PrivatePage(a.segs, l) :: b.pages[l].pfn in free)
    && (forall l, k | l in b.pages && k in b.pages && l != k && PrivatePage(a.segs, l) && PrivatePage(a.segs, k)
          :: b.pages[l].pfn != b.pages[k].pfn)
  }

  function PrivateFrames(b: Proc, g: Segs): set<nat> {
    set l | l in b.pages && PrivatePage(g, l) :: b.pages[l].pfn
  }

  ghost predicate ForkStep(s: Sys, t: Sys, i: nat, j: nat) {
    && i in s.procs && j !in s.procs && j in t.procs
    && ChildOf(s.procs[i], t.procs[j], s.free)
    && t == Sys(s.procs[j := t.procs[j]], s.free - PrivateFrames(t.procs[j], s.procs[i].segs))
  }

  /** Exit of a process that is not the last: its tables stay allocated. */
  ghost predicate ExitStep(s: Sys, t: Sys, i: nat) {
    i in s.procs && t == s.(procs := s.procs - {i})
  }

  // ---- Each step keeps the invariant ------------------------------------

  lemma FaultKeeps(s: Sys, t: Sys, i: nat, l: Node, p: Pte)
    requires SysOk(s) && FaultStep(s, t, i, l, p)
    ensures SysOk(t)
  {
    hide SegsOk, PagePlace, InRange, ReadOnlySide, WriteFlag, LeafOf;
    FaultedProc(s, t, i, l, p);
    forall j | j in t.procs
      ensures ProcOk(t.procs[j], t.free)
    {
      if j != i {
        FewerFree(s.procs[j], s.free, t.free);
      }
    }
    forall j, k | j in t.procs && k in t.procs && j != k
      ensures Apart(t.procs[j], t.procs[k])
    {
      assert Apart(s.procs[j], s.procs[k]);
      FaultApart(s, i, l, p, j, k);
    }
  }

  lemma FewerFree(q: Proc, free: set<nat>, free': set<nat>)
    requires ProcOk(q, free) && free' <= free
    ensures ProcOk(q, free')
  {
    hide SegsOk, PagePlace, InRange, ReadOnlySide, WriteFlag, LeafOf;
    forall l | l in q.pages
      ensures PageOk(q.segs, l, q.pages[l], free')
    {
      assert PageOk(q.segs, l, q.pages[l], free);
    }
  }

  lemma FaultedProc(s: Sys, t: Sys, i: nat, l: Node, p: Pte)
    requires SysOk(s) && FaultStep(s, t, i, l, p)
    ensures ProcOk(t.procs[i], t.free)
  {
    hide SegsOk, PagePlace, InRange, ReadOnlySide, WriteFlag, LeafOf, Apart;
    var q, r := s.procs[i], t.procs[i];
    assert ProcOk(q, s.free);
    forall k | k in q.pages
      ensures PageOk(q.segs, k, q.pages[k], s.free) && q.pages[k].pfn != p.pfn
    {
      assert PageOk(q.segs, k, q.pages[k], s.free);
    }
  }

  lemma FaultApart(s: Sys, i: nat, l: Node, p: Pte, j: nat, k: nat)
    requires SysOk(s) && i in s.procs && j in s.procs && k in s.procs && j != k && p.pfn in s.free
    requires Apart(s.procs[j], s.procs[k])
    ensures var procs := s.procs[i := s.procs[i].(pages := s.procs[i].pages[l := p])]; Apart(procs[j], procs[k])
  {
    hide SegsOk, PagePlace, InRange, ReadOnlySide, WriteFlag, LeafOf;
    NotFree(s, j);
    NotFree(s, k);
  }

  lemma NotFree(s: Sys, j: nat)
    requires SysOk(s) && j in s.procs
    ensures forall l | l in s.procs[j].pages :: s.procs[j].pages[l].pfn !in s.free && l.Leaf?
  {
    assert ProcOk(s.procs[j], s.free);
    forall l | l in s.procs[j].pages
      ensures s.procs[j].pages[l].pfn !in s.free && l.Leaf?
    {
      assert PageOk(s.procs[j].segs, l, s.procs[j].pages[l], s.free);
    }
  }

  lemma WiderPlace(g: Segs, h: Segs, l: Node, p: Pte, free: set<nat>)
    requires PageOk(g, l, p, free) && g.rodata.nextFree <= h.rodata.nextFree && g.data.nextFree <= h.data.nextFree
    ensures PageOk(h, l, p, free)
  {
  }

  lemma ExpandedProc(q: Proc, r: Proc, which: Which, nextFree: nat, free: set<nat>)
    requires ProcOk(q, free) && SegOf(q.segs, which).nextFree <= nextFree <= SegOf(q.segs, which).end
    requires Aligned(nextFree)
    requires r == q.(segs := WithBreak(q.segs, which, nextFree))
    ensures ProcOk(r, free)
  {
    hide PagePlace, InRange, ReadOnlySide, WriteFlag, LeafOf, PageOk;
    assert SegsOk(r.segs);
    hide SegsOk;
    forall l | l in r.pages
      ensures PageOk(r.segs, l, r.pages[l], free)
    {
      assert PageOk(q.segs, l, q.pages[l], free);
      WiderPlace(q.segs, r.segs, l, q.pages[l], free);
    }
  }

  lemma ExpandKeeps(s: Sys, t: Sys, i: nat, which: Which, nextFree: nat)
    requires SysOk(s) && ExpandStep(s, t, i, which, nextFree)
    ensures SysOk(t)
  {
    hide ProcOk, WithBreak, SegOf;
    ExpandedProc(s.procs[i], t.procs[i], which, nextFree, s.free);
    forall j, k | j in t.procs && k in t.procs && j != k
      ensures Apart(t.procs[j], t.procs[k])
    {
      assert Apart(s.procs[j], s.procs[k]);
    }
  }

  // ---- Shrink -----------------------------------------------------------

  /** No frame the shrink frees is mapped by another live process. */
  ghost predicate Unshared(s: Sys, i: nat, which: Which, nextFree: nat)
    requires i in s.procs
  {
    forall j, l, k |
      j in s.procs && j != i && l in Between(s.procs[i], nextFree, SegOf(s.procs[i].segs, which).nextFree)
      && k in s.procs[j].pages :: s.procs[j].pages[k].pfn != s.procs[i].pages[l].pfn
  }

  lemma NarrowerPlace(g: Segs, which: Which, nextFree: nat, l: Node, p: Pte, free: set<nat>)
    requires SegsOk(g) && PageOk(g, l, p, free)
    requires SegOf(g, which).start <= nextFree <= SegOf(g, which).nextFree
    requires !(nextFree <= VaOf(l) < SegOf(g, which).nextFree)
    ensures PageOk(WithBreak(g, which, nextFree), l, p, free)
  {
  }

  lemma CodeStays(q: Proc, which: Which, nextFree: nat)
    requires SegsOk(q.segs) && SegOf(q.segs, which).start <= nextFree
    ensures LeafOf(CODE_START) !in Between(q, nextFree, SegOf(q.segs, which).nextFree)
  {
    PageOfAddress(CODE_START);
  }

  /** The shrinking process itself stays in order: its frames are its own. */
  lemma ShrunkProc(q: Proc, which: Which, nextFree: nat, free: set<nat>)
    requires ProcOk(q, free)
    requires SegOf(q.segs, which).start <= nextFree <= SegOf(q.segs, which).nextFree && Aligned(nextFree)
    ensures ProcOk(ShrinkProc(q, which, nextFree),
      free + FramesAt(q, Between(q, nextFree, SegOf(q.segs, which).nextFree)))
  {
    var gone := Between(q, nextFree, SegOf(q.segs, which).nextFree);
    var r := ShrinkProc(q, which, nextFree);
    CodeStays(q, which, nextFree);
    hide PagePlace, InRange, ReadOnlySide, WriteFlag, LeafOf;
    assert SegsOk(r.segs);
    forall l | l in r.pages
      ensures PageOk(r.segs, l, r.pages[l], free + FramesAt(q, gone))
    {
      assert PageOk(q.segs, l, q.pages[l], free);
      assert l !in gone;
      NarrowerPlace(q.segs, which, nextFree, l, q.pages[l], free);
      assert forall k | k in gone :: q.pages[k].pfn != q.pages[l].pfn;
      assert q.pages[l].pfn !in FramesAt(q, gone);
    }
  }

  lemma OtherProcFree(q: Proc, free: set<nat>, more: set<nat>)
    requires ProcOk(q, free)
    requires forall l | l in q.pages :: q.pages[l].pfn !in more
    ensures ProcOk(q, free + more)
  {
    hide SegsOk, PagePlace, InRange, ReadOnlySide, WriteFlag, LeafOf;
    forall l | l in q.pages
      ensures PageOk(q.segs, l, q.pages[l], free + more)
    {
      assert PageOk(q.segs, l, q.pages[l], free);
    }
  }

  lemma ShrinkApart(s: Sys, t: Sys, i: nat, which: Which, nextFree: nat, j: nat, k: nat)
    requires SysOk(s) && ShrinkStep(s, t, i, which, nextFree) && j in t.procs && k in t.procs && j != k
    ensures Apart(t.procs[j], t.procs[k])
  {
    hide ProcOk, ReadOnlySide, Between, FramesAt, WithBreak;
    assert Apart(s.procs[j], s.procs[k]);
    assert t.procs[j].pages.Keys <= s.procs[j].pages.Keys;
    assert t.procs[k].pages.Keys <= s.procs[k].pages.Keys;
  }

  /** A shrink keeps the invariant exactly when none of the freed frames is mapped
      elsewhere. For DATA that is always so; for RODATA it fails as soon as one of
      the pages is shared with a forked process. */
  lemma ShrinkKeepsIff(s: Sys, t: Sys, i: nat, which: Which, nextFree: nat)
    requires SysOk(s) && ShrinkStep(s, t, i, which, nextFree)
    ensures SysOk(t) <==> Unshared(s, i, which, nextFree)
  {
    assert i in s.procs;
    hide SysOk, ShrinkStep, Unshared;
    if Unshared(s, i, which, nextFree) {
      ShrinkKeeps(s, t, i, which, nextFree);
    }
    if SysOk(t) {
      ShrunkUnshared(s, t, i, which, nextFree);
    }
  }

  lemma ShrinkKeeps(s: Sys, t: Sys, i: nat, which: Which, nextFree: nat)
    requires SysOk(s) && ShrinkStep(s, t, i, which, nextFree) && Unshared(s, i, which, nextFree)
    ensures SysOk(t)
  {
    var gone := Between(s.procs[i], nextFree, SegOf(s.procs[i].segs, which).nextFree);
    hide ProcOk, ReadOnlySide, WithBreak, SegOf, PageOk, Apart, Between;
    forall j | j in t.procs
      ensures ProcOk(t.procs[j], t.free)
    {
      if j == i {
        ShrunkProc(s.procs[i], which, nextFree, s.free);
      } else {
        OtherProcFree(s.procs[j], s.free, FramesAt(s.procs[i], gone));
      }
    }
    forall j, k | j in t.procs && k in t.procs && j != k
      ensures Apart(t.procs[j], t.procs[k])
    {
      ShrinkApart(s, t, i, which, nextFree, j, k);
    }
  }

  lemma ShrunkUnshared(s: Sys, t: Sys, i: nat, which: Which, nextFree: nat)
    requires SysOk(t) && ShrinkStep(s, t, i, which, nextFree)
    ensures Unshared(s, i, which, nextFree)
  {
    var gone := Between(s.procs[i], nextFree, SegOf(s.procs[i].segs, which).nextFree);
    hide SysOk, WithBreak, SegOf;
    forall j, l, k | j in s.procs && j != i && l in gone && k in s.procs[j].pages
      ensures s.procs[j].pages[k].pfn != s.procs[i].pages[l].pfn
    {
      PageHolds(t, j, k);
      assert s.procs[i].pages[l].pfn in FramesAt(s.procs[i], gone);
    }
  }

  /** Pages of DATA are never shared. */
  lemma DataUnshared(s: Sys, i: nat, nextFree: nat)
    requires SysOk(s) && i in s.procs && DATA_START <= nextFree
    ensures Unshared(s, i, Data, nextFree)
  {
    hide ProcOk;
    forall j, l, k | j in s.procs && j != i && l in Between(s.procs[i], nextFree, SegOf(s.procs[i].segs, Data).nextFree)
      && k in s.procs[j].pages
      ensures s.procs[j].pages[k].pfn != s.procs[i].pages[l].pfn
    {
      assert Apart(s.procs[i], s.procs[j]);
    }
  }

  // ---- Fork and exit ----------------------------------------------------

  lemma SharedIsReadOnly(g: Segs, l: Node)
    requires SegsOk(g)
    ensures SharedPage(g, l) ==> ReadOnlySide(l) && PagePlace(g, l)
    ensures PrivatePage(g, l) ==> !ReadOnlySide(l) && PagePlace(g, l)
    ensures l == LeafOf(CODE_START) ==> SharedPage(g, l)
  {
    if l == LeafOf(CODE_START) {
      PageOfAddress(CODE_START);
    }
  }

  lemma ChildPage(a: Proc, b: Proc, free: set<nat>, l: Node)
    requires ProcOk(a, free) && ChildOf(a, b, free) && l in b.pages
    ensures l in a.pages && PageOk(b.segs, l, b.pages[l], free - PrivateFrames(b, a.segs))
    ensures b.pages[l].pfn == a.pages[l].pfn ==> SharedPage(a.segs, l)
  {
    hide SharedPage, PrivatePage, InRange, SegsOk, PagePlace, WriteFlag, LeafOf;
    SharedIsReadOnly(a.segs, l);
    assert PageOk(a.segs, l, a.pages[l], free);
  }

  lemma ChildDistinct(a: Proc, b: Proc, free: set<nat>, l: Node, k: Node)
    requires ProcOk(a, free) && ChildOf(a, b, free) && l in b.pages && k in b.pages && l != k
    ensures b.pages[l].pfn != b.pages[k].pfn
  {
    hide SharedPage, PrivatePage, InRange, SegsOk, PagePlace, WriteFlag, LeafOf;
    assert PageOk(a.segs, l, a.pages[l], free) && PageOk(a.segs, k, a.pages[k], free);
  }

  lemma ChildProcOk(a: Proc, b: Proc, free: set<nat>)
    requires ProcOk(a, free) && ChildOf(a, b, free)
    ensures ProcOk(b, free - PrivateFrames(b, a.segs))
  {
    SharedIsReadOnly(a.segs, LeafOf(CODE_START));
    hide SharedPage, PrivatePage, InRange, SegsOk, PagePlace, WriteFlag, LeafOf, PageOk, PrivateFrames;
    forall l | l in b.pages
      ensures PageOk(b.segs, l, b.pages[l], free - PrivateFrames(b, a.segs))
    {
      ChildPage(a, b, free, l);
    }
    forall l, k | l in b.pages && k in b.pages && l != k
      ensures b.pages[l].pfn != b.pages[k].pfn
    {
      ChildDistinct(a, b, free, l, k);
    }
  }

  /** A frame the child has in common with an old process is one it shares with its parent. */
  lemma ChildPair(s: Sys, i: nat, b: Proc, j: nat, l: Node, k: Node)
    requires SysOk(s) && i in s.procs && j in s.procs && ChildOf(s.procs[i], b, s.free)
    requires l in b.pages && k in s.procs[j].pages && b.pages[l].pfn == s.procs[j].pages[k].pfn
    ensures ReadOnlySide(l) && ReadOnlySide(k)
  {
    hide SharedPage, PrivatePage, InRange, SegsOk, PagePlace, WriteFlag, ReadOnlySide, VaOf;
    var a := s.procs[i];
    PageHolds(s, j, k);
    ParentSegs(a, s.free);
    SharedIsReadOnly(a.segs, l);
    hide PageOk;
    assert SharedPage(a.segs, l);
    if i == j {
      SamePageSame(a, s.free, l, k);
    } else {
      assert Apart(a, s.procs[j]);
    }
  }

  /** The child stands to every old process as the parent does. */
  lemma ChildApart(s: Sys, i: nat, b: Proc, j: nat)
    requires SysOk(s) && i in s.procs && j in s.procs && ChildOf(s.procs[i], b, s.free)
    ensures Apart(b, s.procs[j]) && Apart(s.procs[j], b)
  {
    hide SysOk, ChildOf, ReadOnlySide;
    forall l, k | l in b.pages && k in s.procs[j].pages && b.pages[l].pfn == s.procs[j].pages[k].pfn
      ensures ReadOnlySide(l) && ReadOnlySide(k)
    {
      ChildPair(s, i, b, j, l, k);
    }
  }

  lemma ParentSegs(a: Proc, free: set<nat>)
    requires ProcOk(a, free)
    ensures SegsOk(a.segs)
  {
  }

  lemma SamePageSame(a: Proc, free: set<nat>, l: Node, k: Node)
    requires ProcOk(a, free) && l in a.pages && k in a.pages && a.pages[l].pfn == a.pages[k].pfn
    ensures l == k
  {
  }

  lemma ForkKeeps(s: Sys, t: Sys, i: nat, j: nat)
    requires SysOk(s) && ForkStep(s, t, i, j)
    ensures SysOk(t)
  {
    hide ProcOk, ChildOf, Apart;
    ChildProcOk(s.procs[i], t.procs[j], s.free);
    forall k | k in t.procs
      ensures ProcOk(t.procs[k], t.free)
    {
      if k != j {
        FewerFree(s.procs[k], s.free, t.free);
      }
    }
    forall k, n | k in t.procs && n in t.procs && k != n
      ensures Apart(t.procs[k], t.procs[n])
    {
      if k == j {
        ChildApart(s, i, t.procs[j], n);
      } else if n == j {
        ChildApart(s, i, t.procs[j], k);
      } else {
        assert Apart(s.procs[k], s.procs[n]);
      }
    }
  }

  lemma ExitKeeps(s: Sys, t: Sys, i: nat)
    requires SysOk(s) && ExitStep(s, t, i)
    ensures SysOk(t)
  {
    hide ProcOk, Apart;
  }

  /** The input on which isolation fails: fork a process that has a RODATA page
      mapped, then shrink RODATA in the parent below that page. */
  lemma RodataShrinkAfterFork(s: Sys, t: Sys, u: Sys, i: nat, j: nat, l: Node)
    requires SysOk(s) && ForkStep(s, t, i, j)
    requires l in s.procs[i].pages && RODATA_START <= VaOf(l) < s.procs[i].segs.rodata.nextFree
    requires ShrinkStep(t, u, i, Rodata, RODATA_START)
    ensures j in u.procs && l in u.procs[j].pages && u.procs[j].pages[l].pfn in u.free && !Isolated(u)
  {
    hide ProcOk, WithBreak, PrivateFrames;
    var a, b := s.procs[i], t.procs[j];
    assert ProcOk(a, s.free);
    RodataShared(a, s.free, l);
    assert l in Between(a, RODATA_START, a.segs.rodata.nextFree);
    assert b.pages[l].pfn in FramesAt(a, Between(a, RODATA_START, a.segs.rodata.nextFree));
  }

  lemma RodataShared(a: Proc, free: set<nat>, l: Node)
    requires ProcOk(a, free) && l in a.pages && RODATA_START <= VaOf(l) < a.segs.rodata.nextFree
    ensures SharedPage(a.segs, l)
  {
    assert PageOk(a.segs, l, a.pages[l], free);
  }

  // ---- Runs -------------------------------------------------------------

  datatype Op = Fault(i: nat, l: Node, p: Pte) | Expand(i: nat, which: Which, nextFree: nat)
              | Shrink(i: nat, which: Which, nextFree: nat) | Fork(i: nat, j: nat) | Exit(i: nat)

  ghost predicate OpStep(s: Sys, t: Sys, op: Op) {
    match op
    case Fault(i, l, p) => FaultStep(s, t, i, l, p)
    case Expand(i, which, nextFree) => ExpandStep(s, t, i, which, nextFree)
    case Shrink(i, which, nextFree) => ShrinkStep(s, t, i, which, nextFree) && Unshared(s, i, which, nextFree)
    case Fork(i, j) => ForkStep(s, t, i, j)
    case Exit(i) => ExitStep(s, t, i)
  }

  lemma OpKeeps(s: Sys, t: Sys, op: Op)
    requires SysOk(s) && OpStep(s, t, op)
    ensures SysOk(t)
  {
    hide SysOk, FaultStep, ExpandStep, ShrinkStep, ForkStep, ExitStep, Unshared;
    match op
    case Fault(i, l, p) => FaultKeeps(s, t, i, l, p);
    case Expand(i, which, nextFree) => ExpandKeeps(s, t, i, which, nextFree);
    case Shrink(i, which, nextFree) => ShrinkKeepsIff(s, t, i, which, nextFree);
    case Fork(i, j) => ForkKeeps(s, t, i, j);
    case Exit(i) => ExitKeeps(s, t, i);
  }

  /** A run: states and the operations between them. */
  ghost predicate IsRun(run: seq<Sys>, ops: seq<Op>) {
    |run| == |ops| + 1 && forall n: nat | n < |ops| :: OpStep(run[n], run[n + 1], ops[n])
  }

  /** Isolation at every point of every run of faults, expands, shrinks, forks and
      exits, whatever the processes and their order; a shrink may free only frames
      no other live process maps. */
  lemma {:induction false} RunIsolated(run: seq<Sys>, ops: seq<Op>, n: nat)
    requires IsRun(run, ops) && n < |run| && SysOk(run[0])
    ensures SysOk(run[n]) && Isolated(run[n])
  {
    if n > 0 {
      RunIsolated(run, ops, n - 1);
      assert OpStep(run[n - 1], run[n - 1 + 1], ops[n - 1]);
      OpKeeps(run[n - 1], run[n], ops[n - 1]);
    }
    InvariantIsolates(run[n]);
  }
}
