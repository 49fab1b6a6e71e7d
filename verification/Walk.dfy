/** What the processor makes of a tree: address translation as section 4.5 of the
    Intel SDM volume 3A defines it for 4-level paging, against the tree's map. */
module Walk {
  import opened Integers
  import opened PageTable
  import opened Segments
  import opened Install
  import opened KernelMap
  import opened Physical
  import PL = PageList

  datatype Translation = Fault | Frame(pfn: nat)

  function ReadEntry(mem: Mem, f: nat, i: nat): nat {
    if f < |mem| && i < |mem[f]| then mem[f][i] else 0
  }

  /** Bits 51:12 of an entry. */
  function Base(e: nat): nat {
    (e / 0x1000) % 0x100_0000_0000
  }

  /** Bit 7: the entry maps a page itself. */
  predicate PageSize(e: nat) {
    (e / 0x80) % 2 == 1
  }

  /** User-mode reads and writes, and accesses of the kernel, for which the write bits
      are not consulted. */
  datatype Access = UserRead | UserWrite | Kernel

  /** Whether an access may pass an entry. */
  predicate Passes(e: nat, a: Access) {
    Present(e) && (!a.Kernel? ==> UserBit(e)) && (a.UserWrite? ==> WriteBit(e))
  }

  /** The physical frame of an access to a page. */
  function Translate(mem: Mem, root: nat, l: Node, a: Access): Translation
    requires l.Leaf?
  {
    var e4 := ReadEntry(mem, root, l.a);
    if !Passes(e4, a) then Fault else
    var e3 := ReadEntry(mem, Base(e4), l.b);
    if !Passes(e3, a) then Fault else
    var e2 := ReadEntry(mem, Base(e3), l.c);
    if !Passes(e2, a) then Fault else
    if PageSize(e2) then Frame(Base(e2) / 512 * 512 + l.d) else
    var e1 := ReadEntry(mem, Base(e2), l.d);
    if !Passes(e1, a) then Fault else Frame(Base(e1))
  }

  lemma RawBase(p: Pte)
    requires PteOk(p)
    ensures Base(Raw(p)) == p.pfn % 0x100_0000_0000
    ensures PageSize(Raw(p)) <==> (p.flags / 0x80) % 2 == 1
  {
    RawSplit(p);
    RawPageSize(p.pfn, p.flags);
  }

  lemma RawPageSize(pfn: nat, flags: nat)
    ensures ((pfn * 0x1000 + flags) / 0x80) % 2 == (flags / 0x80) % 2
  {
    var q, r := flags / 0x80, flags % 0x80;
    QuotientIs(pfn * 0x1000 + flags, 0x80, pfn * 0x20 + q, r);
    EvenPlus(pfn * 0x10, q);
  }

  lemma EvenPlus(m: nat, q: nat)
    ensures (2 * m + q) % 2 == q % 2
  {
  }

  /** What the processor reads in a tree's slot that is in use. */
  predicate EntryRead(e: nat, p: Pte) {
    && Present(e)
    && (UserBit(e) <==> UserFlag(p)) && (WriteBit(e) <==> WriteFlag(p))
    && (PageSize(e) <==> (p.flags / 0x80) % 2 == 1)
    && Base(e) == p.pfn % 0x100_0000_0000
  }

  lemma RawIsRead(p: Pte)
    requires PteOk(p)
    ensures EntryRead(Raw(p), p)
  {
    hide Raw, UserBit, WriteBit, PageSize, Base, Present, UserFlag, WriteFlag;
    RawPresent(p);
    RawUserBit(p);
    RawWriteBit(p);
    RawBase(p);
  }

  lemma SlotRead(mem: Mem, s: Space, n: Node)
    requires Wf(mem, s) && !n.Pgd? && IsTable(s, Parent(n)) && Slot(n) < ENTRIES
    ensures ReadEntry(mem, FrameOf(s, Parent(n)), Slot(n)) == SlotValue(s, n)
  {
    hide Raw, Shaped;
    assert SlotOk(mem, s, Parent(n), Slot(n));
    ChildOfParent(n);
  }

  /** One step of the processor's walk where the tree has nothing. */
  lemma AbsentStep(mem: Mem, s: Space, n: Node)
    requires Wf(mem, s) && !n.Pgd? && IsTable(s, Parent(n)) && Slot(n) < ENTRIES && n !in s.ents
    ensures !Present(ReadEntry(mem, FrameOf(s, Parent(n)), Slot(n)))
  {
    hide Raw, ReadEntry, Wf;
    SlotRead(mem, s, n);
  }

  /** One step where it has an entry; a table's entry names its frame and is no page. */
  lemma PresentStep(mem: Mem, s: Space, n: Node)
    requires Wf(mem, s) && !n.Pgd? && IsTable(s, Parent(n)) && Slot(n) < ENTRIES && n in s.ents
    ensures EntryRead(ReadEntry(mem, FrameOf(s, Parent(n)), Slot(n)), s.ents[n])
    ensures !Huge(n) ==> s.ents[n].pfn < 0x100_0000_0000
    ensures IsTable(s, n) ==> (s.ents[n].flags / 0x80) % 2 == 0
  {
    hide Raw, ReadEntry, EntryRead, SlotOk;
    assert NodeOk(s, n);
    SlotRead(mem, s, n);
    RawIsRead(s.ents[n]);
  }

  lemma WalkStep(mem: Mem, s: Space, n: Node)
    requires Wf(mem, s) && !n.Pgd? && IsTable(s, Parent(n)) && Slot(n) < ENTRIES
    ensures var e := ReadEntry(mem, FrameOf(s, Parent(n)), Slot(n));
      && (n !in s.ents ==> !Present(e))
      && (n in s.ents ==> EntryRead(e, s.ents[n]))
      && (n in s.ents && !Huge(n) ==> s.ents[n].pfn < 0x100_0000_0000)
      && (IsTable(s, n) ==> (s.ents[n].flags / 0x80) % 2 == 0)
  {
    hide ReadEntry, EntryRead, Present, Wf;
    if n in s.ents {
      PresentStep(mem, s, n);
    } else {
      AbsentStep(mem, s, n);
    }
  }

  /** The path to a page grants writing at every level. */
  predicate WritablePath(s: Space, l: Node)
    requires l.Leaf? && l in s.ents && IsTable(s, Pud(l.a)) && IsTable(s, Pmd(l.a, l.b)) && IsTable(s, Parent(l))
  {
    && WriteFlag(s.ents[Pud(l.a)]) && WriteFlag(s.ents[Pmd(l.a, l.b)])
    && WriteFlag(s.ents[Parent(l)]) && WriteFlag(s.ents[l])
  }

  lemma UserWalkStep(mem: Mem, s: Space, n: Node)
    requires Wf(mem, s) && UserTree(s) && !n.Pgd? && IsTable(s, Parent(n)) && Slot(n) < ENTRIES
    ensures var e := ReadEntry(mem, FrameOf(s, Parent(n)), Slot(n));
      && (Present(e) ==> n in s.ents)
      && (n in s.ents && !KernelSide(n) ==> Present(e) && UserBit(e))
      && (n in s.ents ==> (WriteBit(e) <==> WriteFlag(s.ents[n])))
      && (Huge(n) ==> !(Present(e) && UserBit(e)))
      && (n in s.ents && !Huge(n) ==> Base(e) == FrameOf(s, n))
      && (n in s.ents && IsTable(s, n) ==> !PageSize(e))
  {
    hide ReadEntry, Base, PageSize, Present, UserBit, WriteBit, Wf, UserFlag, WriteFlag;
    WalkStep(mem, s, n);
    assert n in s.ents ==> UserNodeOk(s, n);
  }

  /** Where a page is mapped, user accesses reach its frame, writes only along a path
      that grants writing at every level. */
  lemma MappedTranslation(mem: Mem, s: Space, l: Node, a: Access)
    requires Wf(mem, s) && UserTree(s) && l.Leaf? && l in s.ents && !a.Kernel?
    ensures IsTable(s, Pud(l.a)) && IsTable(s, Pmd(l.a, l.b)) && IsTable(s, Parent(l))
    ensures Translate(mem, s.root, l, a)
      == if a.UserRead? || WritablePath(s, l) then Frame(s.ents[l].pfn) else Fault
  {
    PathOfLeaf(s, l);
    hide ReadEntry, Base, PageSize, Present, UserBit, WriteBit, Shaped, UserFlag, WriteFlag, Wf;
    UserWalkStep(mem, s, Pud(l.a));
    UserWalkStep(mem, s, Pmd(l.a, l.b));
    UserWalkStep(mem, s, Pt(l.a, l.b, l.c));
    UserWalkStep(mem, s, l);
  }

  lemma UnmappedTranslation(mem: Mem, s: Space, l: Node, a: Access)
    requires Wf(mem, s) && UserTree(s) && InRange(l) && l !in s.ents && !a.Kernel?
    ensures Translate(mem, s.root, l, a) == Fault
  {
    hide ReadEntry, Base, PageSize, Present, UserBit, WriteBit, Shaped, UserFlag, WriteFlag, Wf;
    UserWalkStep(mem, s, Pud(l.a));
    if Pud(l.a) in s.ents {
      UserWalkStep(mem, s, Pmd(l.a, l.b));
      if Pmd(l.a, l.b) in s.ents {
        UserWalkStep(mem, s, Pt(l.a, l.b, l.c));
        if IsTable(s, Pt(l.a, l.b, l.c)) {
          UserWalkStep(mem, s, l);
        }
      }
    }
  }

  /** User reads translate exactly by the tree's page map: an access to any page
      of the 48-bit space reaches the mapped frame, and faults where nothing is mapped. */
  lemma UserTranslationIsTheMap(mem: Mem, s: Space, l: Node)
    requires Wf(mem, s) && UserTree(s) && InRange(l)
    ensures Translate(mem, s.root, l, UserRead) == if l in s.ents then Frame(s.ents[l].pfn) else Fault
  {
    hide Translate, Wf, UserTree;
    if l in s.ents {
      MappedTranslation(mem, s, l, UserRead);
    } else {
      UnmappedTranslation(mem, s, l, UserRead);
    }
  }

  /** User writes reach the mapped frame if and only if the page is mapped and every
      entry on its path has the write bit. */
  lemma UserWriteTranslation(mem: Mem, s: Space, l: Node)
    requires Wf(mem, s) && UserTree(s) && InRange(l)
    ensures l in s.ents ==> IsTable(s, Pud(l.a)) && IsTable(s, Pmd(l.a, l.b)) && IsTable(s, Parent(l))
    ensures Translate(mem, s.root, l, UserWrite)
      == if l in s.ents && WritablePath(s, l) then Frame(s.ents[l].pfn) else Fault
  {
    hide Translate, Wf, UserTree, WritablePath;
    if l in s.ents {
      MappedTranslation(mem, s, l, UserWrite);
    } else {
      UnmappedTranslation(mem, s, l, UserWrite);
    }
  }

  // ---- A page just mapped -----------------------------------------------

  /** After a handled fault the page can be read. It can be written if and only if the
      access that faulted was a write and every table that was there already, on the way
      to the page, grants writing. */
  lemma FaultTranslation(v: Phys, s: Space, w: Phys, t: Space, l: Node, pfn: nat, errorCode: nat)
    requires InRange(l) && UserTree(s) && Mapped(v, s, w, t, l, Pte(pfn, FaultFlags(errorCode)))
    requires NewTables(s, t, FaultFlags(errorCode))
    ensures Translate(w.mem, s.root, l, UserRead) == Frame(pfn)
    ensures (errorCode / 2) % 2 == 1 ==>
      Translate(w.mem, s.root, l, UserWrite) ==
      if forall n | n in s.ents && n in PathTables(l) :: WriteFlag(s.ents[n]) then Frame(pfn) else Fault
    ensures (errorCode / 2) % 2 == 0 ==> Translate(w.mem, s.root, l, UserWrite) == Fault
  {
    MappedEntry(v, s, w, t, l, Pte(pfn, FaultFlags(errorCode)));
    hide Translate, UserTree, Wf, FaultFlags;
    UserTranslationIsTheMap(w.mem, t, l);
    UserWriteTranslation(w.mem, t, l);
    PathRights(s, t, l, FaultFlags(errorCode));
    FlagOfPfn(pfn, FaultFlags(errorCode));
  }

  lemma FlagOfPfn(pfn: nat, flags: nat)
    ensures WriteFlag(Pte(pfn, flags)) <==> WriteFlag(Pte(0, flags))
  {
  }

  lemma MappedEntry(v: Phys, s: Space, w: Phys, t: Space, l: Node, p: Pte)
    requires l.Leaf? && Mapped(v, s, w, t, l, p) && UserTree(s)
    ensures Wf(w.mem, t) && UserTree(t) && t.root == s.root
    ensures l in t.ents && t.ents[l] == p && PathTables(l) <= t.ents.Keys && s.ents.Keys <= t.ents.Keys
  {
    hide PhysOk, Wf, PL.Supply, PL.Free, Huges, UserTree;
    assert l in Leaves(t);
  }

  /** Where the path to a page grants writing, tables that were there and new ones. */
  lemma PathRights(s: Space, t: Space, l: Node, flags: nat)
    requires l.Leaf? && l in t.ents && PathTables(l) <= t.ents.Keys && NewTables(s, t, flags)
    requires IsTable(t, Pud(l.a)) && IsTable(t, Pmd(l.a, l.b)) && IsTable(t, Parent(l))
    ensures WritablePath(t, l) <==>
      && WriteFlag(t.ents[l])
      && forall n | n in PathTables(l) :: if n in s.ents then WriteFlag(s.ents[n]) else WriteFlag(Pte(0, flags))
  {
    forall n | n in PathTables(l)
      ensures WriteFlag(t.ents[n]) <==> if n in s.ents then WriteFlag(s.ents[n]) else WriteFlag(Pte(0, flags))
    {
      FlagOfPfn(t.ents[n].pfn, flags);
      assert t.ents[n] == Pte(t.ents[n].pfn, t.ents[n].flags);
    }
    assert Pud(l.a) in PathTables(l) && Pmd(l.a, l.b) in PathTables(l) && Parent(l) in PathTables(l);
  }

  // ---- A supervisor-only root -------------------------------------------

  /** Under a first-level entry without the user bit no user access to any page of
      PGD entry 0, where all segments lie, gets through. */
  lemma SupervisorRootBars(mem: Mem, s: Space, l: Node, a: Access)
    requires Wf(mem, s) && SupervisorRoot(s) && l.Leaf? && l.a == 0 && !a.Kernel?
    ensures Translate(mem, s.root, l, a) == Fault
  {
    WalkStep(mem, s, Pud(0));
  }

  // ---- Kernel accesses --------------------------------------------------

  /** A table on the way of a kernel access. */
  lemma KernelWalkStep(mem: Mem, s: Space, n: Node)
    requires Wf(mem, s) && !n.Pgd? && IsTable(s, Parent(n)) && Slot(n) < ENTRIES && IsTable(s, n)
    ensures var e := ReadEntry(mem, FrameOf(s, Parent(n)), Slot(n));
      Present(e) && !PageSize(e) && Base(e) == FrameOf(s, n)
  {
    hide ReadEntry, Base, PageSize, Present, UserBit, WriteBit, UserFlag, WriteFlag, Wf;
    WalkStep(mem, s, n);
  }

  lemma HugePath(mem: Mem, s: Space, b: nat, c: nat)
    requires Wf(mem, s) && Pt(0, b, c) in s.ents
    ensures IsTable(s, Pud(0)) && IsTable(s, Pmd(0, b)) && b < ENTRIES && c < ENTRIES
  {
    assert NodeOk(s, Pt(0, b, c));
    assert NodeOk(s, Pmd(0, b));
  }

  /** A supervisor access through a 2MB entry reaches the entry's 512 frames in order. */
  lemma KernelTranslation(mem: Mem, s: Space, b: nat, c: nat, d: nat)
    requires Wf(mem, s) && Pt(0, b, c) in s.ents && b < 4 && d < ENTRIES
    requires (s.ents[Pt(0, b, c)].flags / 0x80) % 2 == 1
    ensures Translate(mem, s.root, Leaf(0, b, c, d), Kernel)
      == Frame(s.ents[Pt(0, b, c)].pfn % 0x100_0000_0000 / 512 * 512 + d)
  {
    HugePath(mem, s, b, c);
    hide ReadEntry, Base, PageSize, Present, UserBit, WriteBit, UserFlag, WriteFlag, Wf;
    KernelWalkStep(mem, s, Pud(0));
    KernelWalkStep(mem, s, Pmd(0, b));
    PresentStep(mem, s, Pt(0, b, c));
  }

  /** Where there is no 2MB entry a supervisor access below 4GB faults. */
  lemma KernelFault(mem: Mem, s: Space, b: nat, c: nat, d: nat)
    requires Wf(mem, s) && Pt(0, b, c) !in s.ents && b < 4 && c < ENTRIES
    ensures Translate(mem, s.root, Leaf(0, b, c, d), Kernel) == Fault
  {
    hide ReadEntry, Base, PageSize, Present, UserBit, WriteBit, UserFlag, WriteFlag, Wf;
    if Pud(0) !in s.ents {
      AbsentStep(mem, s, Pud(0));
    } else {
      KernelWalkStep(mem, s, Pud(0));
      if Pmd(0, b) !in s.ents {
        AbsentStep(mem, s, Pmd(0, b));
      } else {
        KernelWalkStep(mem, s, Pmd(0, b));
        AbsentStep(mem, s, Pt(0, b, c));
      }
    }
  }

  /** With the entries `install_os_pts` writes, the first 128MB are mapped one to one. */
  lemma IdentityTranslation(mem: Mem, s: Space, h: map<Node, Pte>, c: Config, va: nat)
    requires Wf(mem, s) && ConfigOk(c) && Huges(s) == IdentityHuges(h, c, OS_PT_MAPS)[ApicSlot(c) := ApicPte(c)]
    requires va < OS_PT_MAPS * 0x20_0000
    ensures Translate(mem, s.root, LeafOf(va), Kernel) == Frame(va / 0x1000)
  {
    hide ConfigOk, ApicSlot, ApicPte, IdentityPte, IdentityHuges, Wf, Translate, LeafOf, PteIndex;
    var k := va / 0x20_0000;
    IdentityLeaf(va);
    IdentityFrame(c, k);
    IdentityHere(s, h, c, k);
    KernelTranslation(mem, s, 0, k, PteIndex(va));
  }

  lemma IdentityHere(s: Space, h: map<Node, Pte>, c: Config, k: nat)
    requires ConfigOk(c) && Huges(s) == IdentityHuges(h, c, OS_PT_MAPS)[ApicSlot(c) := ApicPte(c)] && k < OS_PT_MAPS
    ensures Pt(0, 0, k) in s.ents && s.ents[Pt(0, 0, k)] == IdentityPte(c, k)
  {
    ApicIsKernel(c);
    hide ConfigOk, ApicSlot, ApicPte, IdentityPte, IdentityHuges;
    IdentityHugesAt(h, c, OS_PT_MAPS, Pt(0, 0, k));
    assert Pt(0, 0, k) in Huges(s);
  }

  lemma IdentityFrame(c: Config, k: nat)
    requires k < OS_PT_MAPS
    ensures IdentityPte(c, k).pfn % 0x100_0000_0000 / 512 * 512 == k * 512
    ensures (IdentityPte(c, k).flags / 0x80) % 2 == 1
  {
  }

  lemma IdentityLeaf(va: nat)
    requires va < OS_PT_MAPS * 0x20_0000
    ensures LeafOf(va) == Leaf(0, 0, va / 0x20_0000, PteIndex(va)) && va / 0x20_0000 < OS_PT_MAPS
    ensures va / 0x1000 == va / 0x20_0000 * 512 + PteIndex(va)
  {
    assert va / 0x1000 / 512 == va / 0x20_0000;
  }

  lemma FrameLeaf(f: nat)
    requires f < 0x2_0000
    ensures LeafOf(f * 0x1000) == Leaf(0, 0, f / 512, f % 512)
  {
    assert f * 0x1000 / 0x1000 == f;
    assert f * 0x1000 / 0x20_0000 == f / 512;
    assert f * 0x1000 / 0x4000_0000 == 0;
    assert f * 0x1000 / 0x80_0000_0000 == 0;
  }

  /** The kernel's accesses to the APIC reach it under every process's tree, whichever options
      are set. */
  lemma ApicReach(mem: Mem, s: Space, c: Config)
    requires Wf(mem, s) && ConfigOk(c) && KernelEntries(s, c)
    ensures Translate(mem, s.root, LeafOf(c.apicBase), Kernel) == Frame(c.apicBase / 0x1000)
  {
    var q, p := c.apicBase / 0x20_0000, c.apicBase / 0x1000;
    ApicIsKernel(c);
    ApicThere(s, c);
    ApicLeaf(c);
    ApicFrame(c);
    hide Translate, Wf, ConfigOk, KernelEntries, ApicSlot, ApicPte, LeafOf;
    KernelTranslation(mem, s, q / 512, q % 512, p % 512);
  }

  lemma ApicThere(s: Space, c: Config)
    requires KernelEntries(s, c)
    ensures ApicSlot(c) in s.ents && s.ents[ApicSlot(c)] == ApicPte(c)
  {
    hide IdentityHuges, ApicSlot, ApicPte;
    assert ApicSlot(c) in Huges(s) && Huges(s)[ApicSlot(c)] == ApicPte(c);
  }

  lemma ApicLeaf(c: Config)
    requires ConfigOk(c)
    ensures var q, p := c.apicBase / 0x20_0000, c.apicBase / 0x1000;
      && LeafOf(c.apicBase) == Leaf(0, q / 512, q % 512, p % 512) && ApicSlot(c) == Pt(0, q / 512, q % 512)
      && q / 512 < 4
  {
    Levels(c.apicBase);
    ApicIndices(c.apicBase / 0x20_0000);
  }

  lemma ApicFrame(c: Config)
    requires ConfigOk(c)
    ensures var p := ApicPte(c);
      && (p.flags / 0x80) % 2 == 1
      && p.pfn % 0x100_0000_0000 / 512 * 512 + c.apicBase / 0x1000 % 512 == c.apicBase / 0x1000
  {
    Levels(c.apicBase);
    var q := c.apicBase / 0x20_0000;
    assert ApicAddress(c) / 0x1000 == q * 512 && q < 0x800;
    SplitLevel(c.apicBase / 0x1000);
  }

  /** The whole of physical memory as the kernel sees it under a process's tree: a frame
      is where its address says if it lies in the first 128MB, and out of reach otherwise. */
  lemma KernelRange(mem: Mem, s: Space, c: Config, f: nat)
    requires Wf(mem, s) && ConfigOk(c) && KernelEntries(s, c) && f < END_PFN
    ensures Translate(mem, s.root, LeafOf(f * 0x1000), Kernel) == if f < KERNEL_FRAMES then Frame(f) else Fault
  {
    hide ConfigOk, IdentityHuges, Wf, Translate, LeafOf, ApicSlot, ApicPte, Huges;
    if f < KERNEL_FRAMES {
      IdentityTranslation(mem, s, map[], c, f * 0x1000);
      assert f * 0x1000 / 0x1000 == f;
    } else {
      FrameLeaf(f);
      NoHighEntry(s, c, f / 512);
      KernelFault(mem, s, 0, f / 512, f % 512);
    }
  }

  lemma NoHighEntry(s: Space, c: Config, k: nat)
    requires ConfigOk(c) && KernelEntries(s, c) && OS_PT_MAPS <= k < 0x100
    ensures Pt(0, 0, k) !in s.ents
  {
    ApicIsKernel(c);
    hide ConfigOk, IdentityHuges, ApicSlot, ApicPte;
    IdentityHugesAt(map[], c, OS_PT_MAPS, Pt(0, 0, k));
    assert Pt(0, 0, k) in Huges(s) <==> Pt(0, 0, k) in s.ents;
  }

  lemma RawInjective(p: Pte, q: Pte)
    requires PteOk(p) && PteOk(q) && Raw(p) == Raw(q)
    ensures p == q
  {
    RawSplit(p);
    RawSplit(q);
  }

  lemma {:induction false} NodeDetermined(mem: Mem, s: Space, t: Space, n: Node)
    requires Wf(mem, s) && Wf(mem, t) && s.root == t.root && n in s.ents
    ensures n in t.ents && t.ents[n] == s.ents[n]
    decreases 4 - Level(n)
  {
    assert NodeOk(s, n);
    var p := Parent(n);
    if !p.Pgd? {
      NodeDetermined(mem, s, t, p);
    }
    assert SlotOk(mem, s, p, Slot(n)) && SlotOk(mem, t, p, Slot(n));
    ChildOfParent(n);
    RawPresent(s.ents[n]);
    hide Raw;
    assert n in t.ents;
    assert NodeOk(t, n);
    RawInjective(s.ents[n], t.ents[n]);
  }

  /** Memory and the root frame determine the tree: there is nothing to choose. */
  lemma TreeDetermined(mem: Mem, s: Space, t: Space)
    requires Wf(mem, s) && Wf(mem, t) && s.root == t.root
    ensures s.ents == t.ents
  {
    forall n | n in s.ents
      ensures n in t.ents && t.ents[n] == s.ents[n]
    {
      NodeDetermined(mem, s, t, n);
    }
    forall n | n in t.ents
      ensures n in s.ents
    {
      NodeDetermined(mem, t, s, n);
    }
  }
}
