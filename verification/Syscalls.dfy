/** The memory system calls and the page-fault handler (entry.c) on the kernel state. */
module Syscalls {
  import opened PageTable
  import opened Physical
  import opened Install
  import opened KernelMap
  import opened Segments
  import opened Context
  import opened Fork
  import opened CopyLoops
  import opened CopyWhole
  import opened Shrink
  import opened Teardown
  import opened Isolation
  import opened Kernel
  import opened KernelSteps
  import opened ChildView
  import W = Walk
  import PL = PageList

  const MAX_EXPAND_PAGES: nat := 1024
  const MAP_RD: nat := 0
  const MAP_WR: nat := 1

  function WhichOf(segmentT: nat): Which {
    if segmentT == MAP_RD then Rodata else Data
  }

  predicate KnownSegment(segmentT: nat) {
    segmentT == MAP_RD || segmentT == MAP_WR
  }

  /** When `do_expand` succeeds. */
  predicate ExpandGood(g: Segs, size: nat, segmentT: nat) {
    && size <= MAX_EXPAND_PAGES && KnownSegment(segmentT)
    && SegOf(g, WhichOf(segmentT)).nextFree + size * PAGE_SIZE <= SegOf(g, WhichOf(segmentT)).end
  }

  /** When `do_shrink` succeeds. */
  predicate ShrinkGood(g: Segs, size: nat, segmentT: nat) {
    && size <= MAX_EXPAND_PAGES && KnownSegment(segmentT)
    && SegOf(g, WhichOf(segmentT)).start + size * PAGE_SIZE <= SegOf(g, WhichOf(segmentT)).nextFree
  }

  predicate WriteFault(errorCode: nat) {
    (errorCode / 2) % 2 == 1
  }

  /** When `do_page_fault` maps a page: the page was not present, and the address is
      below the DATA break, or below the RODATA break for a read, or in the stack
      segment below its fixed `next_free`. */
  predicate FaultGood(g: Segs, cr2: nat, errorCode: nat) {
    errorCode % 2 == 0 && (
      || g.data.start <= cr2 < g.data.nextFree
      || (g.rodata.start <= cr2 < g.rodata.nextFree && !WriteFault(errorCode))
      || g.stack.start <= cr2 < g.stack.nextFree)
  }

  /** The handler takes an address at a segment's end for the segment's. */
  predicate Inside(seg: Segment, va: nat) {
    seg.start <= va <= seg.end
  }

  /** Which faults are served, segment by segment: only those on pages that are not there;
      DATA and stack pages below their breaks, RODATA pages below the break for reads. */
  predicate FaultServed(g: Segs, cr2: nat, errorCode: nat, handled: bool) {
    && (errorCode % 2 == 1 ==> !handled)
    && (errorCode % 2 == 0 && Inside(g.data, cr2) ==> (handled <==> cr2 < g.data.nextFree))
    && (errorCode % 2 == 0 && Inside(g.rodata, cr2) ==>
      (handled <==> cr2 < g.rodata.nextFree && (errorCode / 2) % 2 == 0))
    && (errorCode % 2 == 0 && Inside(g.stack, cr2) ==> (handled <==> cr2 < g.stack.nextFree))
    && (handled ==> Inside(g.data, cr2) || Inside(g.rodata, cr2) || Inside(g.stack, cr2))
  }

  /** The stack grows by faults: any first access to its 16MB but the topmost page, which
      is there from the start, is served. */
  lemma StackGrows(g: Segs, cr2: nat, errorCode: nat)
    requires SegsOk(g) && errorCode % 2 == 0 && 0x7_FF00_0000 <= cr2 < 0x7_FFFF_F000
    ensures FaultGood(g, cr2, errorCode)
  {
  }

  /** What the process reaches at the address of a fault afterwards, as the processor
      translates: reads the new frame, and writes too if and only if the fault was a write
      and the tables that were there before grant writing. */
  predicate Reaches(mem: Mem, pgd: nat, s: Space, cr2: nat, errorCode: nat, pfn: nat) {
    var l := LeafOf(cr2);
    && W.Translate(mem, pgd, l, W.UserRead) == W.Frame(pfn)
    && W.Translate(mem, pgd, l, W.UserWrite) ==
       if (errorCode / 2) % 2 == 1 && forall n | n in s.ents && n in PathTables(l) :: WriteFlag(s.ents[n])
       then W.Frame(pfn) else W.Fault
  }

  lemma FaultReaches(v: Phys, s: Space, w: Phys, t: Space, cr2: nat, pfn: nat, errorCode: nat)
    requires UserTree(s) && Mapped(v, s, w, t, LeafOf(cr2), Pte(pfn, FaultFlags(errorCode)))
    requires NewTables(s, t, FaultFlags(errorCode))
    ensures Reaches(w.mem, s.root, s, cr2, errorCode, pfn)
  {
    LeafOfInRange(cr2);
    hide W.Translate, LeafOf, Mapped, UserTree, NewTables, FaultFlags;
    W.FaultTranslation(v, s, w, t, LeafOf(cr2), pfn, errorCode);
  }

  /** Where a handled fault maps: inside a segment, on the user side. */
  lemma FaultPlace(g: Segs, cr2: nat, errorCode: nat)
    requires SegsOk(g) && FaultGood(g, cr2, errorCode)
    ensures var l := LeafOf(cr2);
      && l.Leaf? && InRange(l) && PagePlace(g, l) && l.a == 0 && 4 <= l.b && !KernelSide(l)
      && (ReadOnlySide(l) ==> forall pfn: nat :: !WriteFlag(Pte(pfn, FaultFlags(errorCode))))
  {
    PageOfAddress(cr2);
    UserSide(cr2);
    hide LeafOf, VaOf;
    LeafOfInRange(cr2);
    PageFloor(cr2);
  }

  lemma LeafOfInRange(va: nat)
    ensures InRange(LeafOf(va))
  {
  }

  /** An address and its page lie on the same side of every page boundary. */
  lemma PageFloor(va: nat)
    ensures forall b: nat | Aligned(b) ::
      (va < b ==> va / PAGE_SIZE * PAGE_SIZE < b) && (b <= va ==> b <= va / PAGE_SIZE * PAGE_SIZE)
  {
    forall b: nat | Aligned(b)
      ensures (va < b ==> va / PAGE_SIZE * PAGE_SIZE < b) && (b <= va ==> b <= va / PAGE_SIZE * PAGE_SIZE)
    {
      assert b == b / PAGE_SIZE * PAGE_SIZE;
    }
  }

  /** The pages with addresses in [lo, hi) are gone from the tree, and nothing else. */
  predicate Unmaps(s: Space, t: Space, lo: nat, hi: nat) {
    && t.root == s.root && t.owner == s.owner
    && (forall n | n in t.ents :: n in s.ents && t.ents[n] == s.ents[n])
    && forall n | n in s.ents :: n in t.ents <==> !(n.Leaf? && lo <= VaOf(n) < hi)
  }

  /** Their frames are free now, and no others have become so. */
  ghost predicate FreesPages(before: PL.State, after: PL.State, s: Space, lo: nat, hi: nat) {
    forall f: nat :: f in PL.Free(after) <==>
      f in PL.Free(before) || exists l :: l in s.ents && l.Leaf? && lo <= VaOf(l) < hi && s.ents[l].pfn == f
  }

  lemma RemovedPages(v: Phys, s: Space, w: Phys, t: Space, lo: nat, hi: nat)
    requires Removed(v, s, w, t, lo, hi)
    ensures Unmaps(s, t, lo, hi) && FreesPages(v.user, w.user, s, lo, hi)
  {
    hide Holds, Grown, UserTree, VaOf, PL.Free;
  }

  class System {
    const m: Machine
    const ctxs: array<ExecContext>
    const config: Config
    var current: nat
    var osPmd: nat
    ghost var spaces: map<nat, Space>

    constructor (machine: Machine, table: array<ExecContext>, cfg: Config)
      requires machine.Valid() && table.Length == MAX_PROCESSES
      ensures m == machine && ctxs == table && config == cfg && spaces == map[]
    {
      m := machine;
      ctxs := table;
      config := cfg;
      current := 0;
      osPmd := 0;
      spaces := map[];
    }

    ghost function Objs(): set<object> {
      {this, ctxs} + m.Objs()
    }

    ghost predicate Valid()
      reads Objs()
    {
      && ctxs !in m.Objs() && this !in m.Objs() && current < ctxs.Length
      && m.Valid() && KernelOk(m.Value(), ctxs[..], spaces, config) && current in spaces
    }

    ghost function Sys(): Sys
      reads Objs()
    {
      Abs(m.Value(), ctxs[..], spaces)
    }

    ghost function Self(): ExecContext
      requires current < ctxs.Length
      reads this, ctxs
    {
      ctxs[..][current]
    }

    /** The current process's tree. */
    ghost function Tree(): Space
      reads this
    {
      if current in spaces then spaces[current] else Space(0, map[], map[])
    }

    ghost predicate Unchanged(table: seq<ExecContext>, v: Phys, trees: map<nat, Space>)
      reads Objs()
    {
      ctxs[..] == table && m.Value() == v && spaces == trees
    }

    /** A store to one entry of the process table. */
    method SetContext(i: nat, x: ExecContext)
      requires i < ctxs.Length && ctxs !in m.Objs()
      modifies ctxs
      ensures ctxs[..] == old(ctxs[..])[i := x] && m.Value() == old(m.Value()) && (old(m.Valid()) ==> m.Valid())
    {
      hide PhysOk, PL.PageList.Value;
      ctxs[i] := x;
    }

    /** `do_expand`: 1 moves the DATA break, 0 the RODATA break. */
    method DoExpand(size: nat, segmentT: nat) returns (r: nat)
      requires Valid()
      modifies ctxs
      ensures Valid()
      ensures var seg := old(Self()).segs.data;
        segmentT == 1 && size <= 1024 && seg.nextFree + size * PAGE_SIZE <= seg.end ==>
        r == seg.nextFree && ctxs[..] == old(ctxs[..])[current :=
          old(Self()).(segs := old(Self()).segs.(data := seg.(nextFree := r + size * PAGE_SIZE)))]
      ensures var seg := old(Self()).segs.rodata;
        segmentT == 0 && size <= 1024 && seg.nextFree + size * PAGE_SIZE <= seg.end ==>
        r == seg.nextFree && ctxs[..] == old(ctxs[..])[current :=
          old(Self()).(segs := old(Self()).segs.(rodata := seg.(nextFree := r + size * PAGE_SIZE)))]
      ensures segmentT > 1 || size > 1024 ==> r == 0 && ctxs[..] == old(ctxs[..])
      ensures segmentT == 1 && old(Self()).segs.data.nextFree + size * PAGE_SIZE > old(Self()).segs.data.end ==>
        r == 0 && ctxs[..] == old(ctxs[..])
      ensures segmentT == 0 && old(Self()).segs.rodata.nextFree + size * PAGE_SIZE > old(Self()).segs.rodata.end ==>
        r == 0 && ctxs[..] == old(ctxs[..])
      ensures !ExpandGood(old(Self()).segs, size, segmentT) ==> r == 0 && ctxs[..] == old(ctxs[..])
      ensures ExpandGood(old(Self()).segs, size, segmentT) ==> r == SegOf(old(Self()).segs, WhichOf(segmentT)).nextFree
      ensures ExpandGood(old(Self()).segs, size, segmentT) ==> ctxs[..] == old(ctxs[..])[current :=
        WithSegs(old(Self()), WithBreak(old(Self()).segs, WhichOf(segmentT), r + size * PAGE_SIZE))]
      ensures ExpandGood(old(Self()).segs, size, segmentT) ==>
        ExpandStep(old(Sys()), Sys(), current, WhichOf(segmentT), r + size * PAGE_SIZE)
    {
      hide KernelOk, Abs, PhysOk, SegsOk, ExpandStep, PL.PageList.Value, Live, Leaves, Machine.Value, Aligned;
      KernelSlot(m.Value(), ctxs[..], spaces, config, current);
      KernelTable(m.Value(), ctxs[..], spaces, config);
      if size > MAX_EXPAND_PAGES || !(segmentT == MAP_RD || segmentT == MAP_WR) {
        return 0;
      }
      var which := WhichOf(segmentT);
      var x := ctxs[current];
      var seg := SegOf(x.segs, which);
      if seg.nextFree + size * PAGE_SIZE > seg.end {
        return 0;
      }
      BreakMoves(x.segs, which, size);
      ExpandKernel(m.Value(), ctxs[..], spaces, config, current, which, seg.nextFree + size * PAGE_SIZE);
      SetContext(current, WithSegs(x, WithBreak(x.segs, which, seg.nextFree + size * PAGE_SIZE)));
      return seg.nextFree;
    }

    /** `do_shrink`: on success the abstract shrink happens in every case; the
        invariant survives exactly when no freed frame is mapped by another process. */
    method DoShrink(size: nat, segmentT: nat) returns (r: nat, ghost t: Space)
      requires Valid()
      modifies ctxs, this`spaces, m.Objs()
      ensures var seg := old(Self()).segs.data;
        segmentT == 1 && size <= 1024 && seg.start + size * PAGE_SIZE <= seg.nextFree ==>
        r == seg.nextFree - size * PAGE_SIZE && Unmaps(old(Tree()), t, r, seg.nextFree) &&
        FreesPages(old(m.Value()).user, m.Value().user, old(Tree()), r, seg.nextFree) &&
        ctxs[..] == old(ctxs[..])[current :=
          old(Self()).(segs := old(Self()).segs.(data := seg.(nextFree := r)))]
      ensures var seg := old(Self()).segs.rodata;
        segmentT == 0 && size <= 1024 && seg.start + size * PAGE_SIZE <= seg.nextFree ==>
        r == seg.nextFree - size * PAGE_SIZE && Unmaps(old(Tree()), t, r, seg.nextFree) &&
        FreesPages(old(m.Value()).user, m.Value().user, old(Tree()), r, seg.nextFree) &&
        ctxs[..] == old(ctxs[..])[current :=
          old(Self()).(segs := old(Self()).segs.(rodata := seg.(nextFree := r)))]
      ensures segmentT > 1 || size > 1024 ==> r == 0 && Unchanged(old(ctxs[..]), old(m.Value()), old(spaces))
      ensures segmentT == 1 && old(Self()).segs.data.nextFree < old(Self()).segs.data.start + size * PAGE_SIZE ==>
        r == 0 && Unchanged(old(ctxs[..]), old(m.Value()), old(spaces))
      ensures segmentT == 0 && old(Self()).segs.rodata.nextFree < old(Self()).segs.rodata.start + size * PAGE_SIZE ==>
        r == 0 && Unchanged(old(ctxs[..]), old(m.Value()), old(spaces))
      ensures !ShrinkGood(old(Self()).segs, size, segmentT) ==> Valid() && r == 0
      ensures !ShrinkGood(old(Self()).segs, size, segmentT) ==>
        ctxs[..] == old(ctxs[..]) && spaces == old(spaces) && m.Value() == old(m.Value())
      ensures ShrinkGood(old(Self()).segs, size, segmentT) ==> m.Valid() && spaces == old(spaces)[current := t]
      ensures ShrinkGood(old(Self()).segs, size, segmentT) ==>
        ctxs[..] == old(ctxs[..])[current := WithSegs(old(Self()), WithBreak(old(Self()).segs, WhichOf(segmentT), r))]
      ensures ShrinkGood(old(Self()).segs, size, segmentT) ==>
        Removed(old(m.Value()), old(Tree()), m.Value(), t, r, SegOf(old(Self()).segs, WhichOf(segmentT)).nextFree)
      ensures ShrinkGood(old(Self()).segs, size, segmentT) ==>
        r + size * PAGE_SIZE == SegOf(old(Self()).segs, WhichOf(segmentT)).nextFree
      ensures ShrinkGood(old(Self()).segs, size, segmentT) ==>
        ShrinkStep(old(Sys()), Sys(), current, WhichOf(segmentT), r)
      ensures ShrinkGood(old(Self()).segs, size, segmentT) ==>
        (Valid() <==> Unshared(old(Sys()), current, WhichOf(segmentT), r))
    {
      hide KernelOk, Abs, PhysOk, SegsOk, ShrinkStep, Unshared, PL.PageList.Value, Aligned, Removed;
      hide OwnFrames, Holds, UserTree;
      hide Live, Leaves, Machine.Value, ProcessTree, Unmaps, FreesPages, PL.Free;
      ghost var v := m.Value();
      KernelSlot(v, ctxs[..], spaces, config, current);
      KernelTable(v, ctxs[..], spaces, config);
      t := spaces[current];
      r := 0;
      if size > MAX_EXPAND_PAGES || !(segmentT == MAP_RD || segmentT == MAP_WR) {
        return;
      }
      var which := WhichOf(segmentT);
      var x := ctxs[current];
      var seg := SegOf(x.segs, which);
      if seg.nextFree - size * PAGE_SIZE < seg.start {
        return;
      }
      r := seg.nextFree - size * PAGE_SIZE;
      BreakMovesDown(x.segs, which, size);
      LiveHolds(v, x, spaces[current], config);
      KernelFrames(v, ctxs[..], spaces, config, current);
      SetContext(current, WithSegs(x, WithBreak(x.segs, which, r)));
      t := UnmapRange(m, x.pgd, r, seg.nextFree, spaces[current]);
      RemovedPages(v, spaces[current], m.Value(), t, r, seg.nextFree);
      ShrinkKernel(v, m.Value(), t, old(ctxs[..]), spaces, config, current, which, r);
      spaces := spaces[current := t];
    }

    /** `do_page_fault` with the fault address and the error code as arguments: true
        when the page is mapped, false on the way to SIGSEGV. A clear present bit in
        the error code means that nothing is mapped there (Intel SDM 3A, section 4.7). The
        invariant survives exactly when the frame that is mapped was free. */
    method DoPageFault(cr2: nat, errorCode: nat) returns (handled: bool, ghost t: Space)
      requires Valid()
      requires FaultGood(Self().segs, cr2, errorCode) ==>
        LeafOf(cr2) !in spaces[current].ents && m.user.freePages != 0
        && |PL.Supply(m.pt.Value())| >= Missing(spaces[current], LeafOf(cr2))
      modifies this`spaces, m.Objs()
      ensures handled == FaultGood(old(Self()).segs, cr2, errorCode)
      ensures FaultServed(old(Self()).segs, cr2, errorCode, handled)
      ensures handled && Valid() ==> Reaches(m.mem, old(Self()).pgd, old(Tree()), cr2, errorCode,
        PL.Picked(old(m.user.Value())))
      ensures !handled ==> Valid() && spaces == old(spaces) && m.Value() == old(m.Value())
      ensures handled ==> spaces == old(spaces)[current := t] && m.user.Value() == PL.Take(old(m.user.Value()))
      ensures handled ==> Mapped(old(m.Value()), old(Tree()), m.Value().(user := old(m.user.Value())), t, LeafOf(cr2),
        Pte(PL.Picked(old(m.user.Value())), FaultFlags(errorCode)))
      ensures handled ==> NewTables(old(Tree()), t, FaultFlags(errorCode))
      ensures handled ==> (Valid() <==> PL.IsFree(old(m.user.Value()), PL.Picked(old(m.user.Value()))))
      ensures handled && Valid() ==> Mapped(old(m.Value()), old(Tree()), m.Value(), t, LeafOf(cr2),
        Pte(PL.Picked(old(m.user.Value())), FaultFlags(errorCode)))
      ensures handled && Valid() ==> FaultStep(old(Sys()), Sys(), current, LeafOf(cr2),
        Pte(PL.Picked(old(m.user.Value())), FaultFlags(errorCode)))
    {
      hide KernelOk, Abs, PhysOk, FaultStep, PL.PageList.Value, Aligned, Holds, UserTree, Missing, PL.Supply;
      hide PL.Picked, PL.Take, LeafOf, Mapped, SegsOk, NewTables, PL.IsFree, PL.Shape, Reaches;
      hide PagePlace, InRange, ReadOnlySide, WriteFlag;
      ghost var v := m.Value();
      KernelSlot(v, ctxs[..], spaces, config, current);
      KernelTable(v, ctxs[..], spaces, config);
      var x := ctxs[current];
      SegmentOrder(x.segs);
      t := spaces[current];
      if errorCode % 2 == 1 {
        handled := false;
        return;
      }
      if cr2 >= x.segs.data.start && cr2 <= x.segs.data.end {
        handled := cr2 < x.segs.data.nextFree;
      } else if cr2 >= x.segs.rodata.start && cr2 <= x.segs.rodata.end {
        handled := cr2 < x.segs.rodata.nextFree && !WriteFault(errorCode);
      } else if cr2 >= x.segs.stack.start && cr2 <= x.segs.stack.end {
        handled := cr2 < x.segs.stack.nextFree;
      } else {
        handled := false;
      }
      if handled {
        FaultPlace(x.segs, cr2, errorCode);
        LiveHolds(v, x, spaces[current], config);
        var pfn;
        pfn, t := InstallPageTable(m, x.pgd, cr2, errorCode, spaces[current]);
        if m.Valid() {
          ShapeOf(v);
          FaultReaches(v, spaces[current], m.Value(), t, cr2, pfn, errorCode);
          FaultKernel(v, m.Value(), t, ctxs[..], spaces, config, current, LeafOf(cr2),
            Pte(pfn, FaultFlags(errorCode)));
        }
        spaces := spaces[current := t];
      }
    }

    /** `do_fork`: the first unused slot becomes a READY copy of the caller with its
        own address space and OS stack. One page-table frame pays for the new root,
        at most one for each of the caller's tables, and one for the stack. When a page
        to be copied, or a frame taken for one, lies beyond the first 128MB, the copy
        raises a page fault inside the kernel: the slot stays behind with the caller's
        state and half a tree, and everything else is as it was. */
    method DoFork()
      returns (pid: nat, faulted: bool, child: nat, stack: nat, ghost ct: Space, ghost priv: map<nat, Node>)
      requires Valid() && FirstUnused(ctxs[..]) < MAX_PROCESSES
      requires ForkBudget(m.Value(), Tree(), Self().segs)
      requires |PL.Supply(m.pt.Value())| >= 2 + |TableNodes(Tree())|
      modifies ctxs, this`spaces, this`osPmd, m.Objs()
      ensures pid == FirstUnused(old(ctxs[..])) && pid !in old(spaces)
      ensures faulted <==> !ForkFits(old(m.Value()), old(Tree()), old(Self()).segs)
      ensures faulted ==>
        KernelOk(m.Value(), old(ctxs[..]), spaces, config) && spaces == old(spaces) && osPmd == old(osPmd)
      ensures faulted ==> ctxs[..] == old(ctxs[..])[pid := HalfChild(old(Self()), pid, child)]
      ensures !faulted ==> spaces == old(spaces)[pid := ct] && child == ct.root && osPmd == OsPmdOf(ct)
      ensures !faulted ==> ctxs[..] == old(ctxs[..])[pid := ForkChild(old(Self()), pid, child, stack)]
      ensures var x, y := old(Self()), ctxs[..][pid];
        && y.pid == pid && y.ppid == x.pid && y.pgd == child && y.segs == x.segs && y.regs == x.regs
        && y.handlers == x.handlers && y.ticksToSleep == x.ticksToSleep
        && y.alarmConfigTime == x.alarmConfigTime && y.ticksToAlarm == x.ticksToAlarm
        && (if faulted then y.state == x.state && y.osStackPfn == x.osStackPfn
            else y.state == Ready && y.osStackPfn == stack)
      ensures forall i: nat | i < ctxs.Length && i != pid :: ctxs[..][i] == old(ctxs[..])[i]
      ensures !faulted ==> ForkMade(old(m.Value()), m.Value(), old(Tree()), ct, old(Self()).segs, stack, priv, config)
      ensures !faulted ==> ChildSees(old(m.Value()), m.Value(), old(Tree()), ct)
      ensures !faulted ==> ForkStep(old(Sys()), Sys(), current, pid)
      ensures !faulted ==> Valid()
    {
      hide KernelOk, Abs, PhysOk, ForkStep, PL.PageList.Value, Holds, UserTree, PL.Supply, SegsOk, Live;
      hide OwnFrames, ParentOk;
      hide ForkBudget, SomethingCopied, TableNodes, ForkFits, Stopped, PL.Shape;
      hide ConfigOk, ProcessTree, KernelEntries, Forked, ForkMade, PL.Take, PL.Picked, PL.Free, PagePlace, ChildSees;
      ghost var v, table, ps := m.Value(), ctxs[..], spaces[current];
      KernelSlot(v, table, spaces, config, current);
      KernelTable(v, table, spaces, config);
      UnusedSlot(v, table, spaces, config);
      KernelParent(v, table, spaces, config, current);
      var slot := GetNewCtx(ctxs);
      pid := slot;
      var x := ctxs[current];
      SetContext(slot, x.(pid := pid, ppid := x.pid));
      stack := 0;
      faulted, child, osPmd, ct, priv := CopyMm(m, config, x.pgd, x.segs, osPmd, ps);
      ghost var w := m.Value();
      if faulted {
        StoppedKernel(v, w, table, spaces, config, ps);
        SetContext(slot, HalfChild(x, pid, child));
        assert ctxs[..] == table[slot := HalfChild(x, pid, child)];
        return;
      }
      StackRoom(w, |PL.Supply(v.pt)|, |TableNodes(ps)|);
      stack := m.FreshTable();
      StackTaken(v, ps, w, ct, x.segs, priv, config);
      SetContext(slot, ForkChild(x, pid, child, stack));
      spaces := spaces[slot := ct];
      assert ctxs[..] == table[slot := ForkChild(x, pid, child, stack)];
      ForkKernel(v, m.Value(), table, old(spaces), config, current, slot, ForkChild(x, pid, child, stack), ct, priv);
      KernelPlaces(v, table, old(spaces), config, current);
      ForkSeen(v, m.Value(), ps, ct, x.segs, stack, priv, config);
    }

    /** `do_exit` up to the choice of what runs next: the OS stack is freed, the slot
        becomes UNUSED, and the scan says whether any other process is left. */
    method DoExit() returns (procExist: bool)
      requires Valid()
      modifies ctxs, this`spaces, m.Objs()
      ensures ctxs[..] == old(ctxs[..])[current := old(Self()).(state := Unused)]
      ensures spaces == old(spaces) - {current}
      ensures ExitStep(old(Sys()), Sys(), current)
      ensures procExist <==> spaces != map[]
      ensures m.Value() == old(m.Value()).(pt := PL.Give(old(m.pt.Value()), old(Self()).osStackPfn))
      ensures m.Valid() && KernelOk(m.Value(), ctxs[..], spaces, config)
    {
      hide KernelOk, Abs, PhysOk, ExitStep, PL.PageList.Value, Live, PL.Give, PL.Free;
      ghost var v, table := m.Value(), ctxs[..];
      KernelSlot(v, table, spaces, config, current);
      KernelSlotHeld(v, table, spaces, config, current);
      KernelTable(v, table, spaces, config);
      var x := ctxs[current];
      m.FreeTable(x.osStackPfn);
      HeldPhysNow();
      ExitKernel(v, m.Value(), table, spaces, config, current);
      SetContext(current, x.(state := Unused));
      spaces := spaces - {current};
      KernelSlots(m.Value(), ctxs[..], spaces, config);
      procExist := false;
      for ctr := 1 to MAX_PROCESSES
        invariant !procExist && forall i: nat | 1 <= i < ctr :: ctxs[..][i].state == Unused
      {
        if ctxs[ctr].state != Unused {
          assert ctxs[..][ctr].state != Unused;
          procExist := true;
          break;
        }
      }
    }

    lemma HeldPhysNow()
      requires m.Valid()
      ensures PhysOk(m.Value())
    {
    }
  }

  /** No two live trees have the same kernel PMD: after a fork `os_pmd_pfn` names the
      child's, and a teardown of the parent would release the wrong frame. */
  lemma PmdsDiffer(v: Phys, ctxs: seq<ExecContext>, spaces: map<nat, Space>, c: Config, i: nat, j: nat)
    requires KernelOk(v, ctxs, spaces, c) && i in spaces && j in spaces && i != j
    ensures OsPmdOf(spaces[i]) != OsPmdOf(spaces[j])
  {
    KernelSlot(v, ctxs, spaces, c, i);
    KernelSlot(v, ctxs, spaces, c, j);
    assert PairOk(ctxs[i], spaces[i], ctxs[j], spaces[j]);
    hide KernelOk, Abs, Live, Holds, UserTree;
    LiveHolds(v, ctxs[i], spaces[i], c);
    LiveHolds(v, ctxs[j], spaces[j], c);
    OwnPmd(v, spaces[i], c);
    OwnPmd(v, spaces[j], c);
  }

  lemma OwnPmd(v: Phys, s: Space, c: Config)
    requires Holds(v, s) && ProcessTree(s, c)
    ensures OsPmdOf(s) in s.owner
  {
    assert TableOwned(s, Pmd(0, 0));
  }

  /** Where a live process's pages are. */
  lemma KernelPlaces(v: Phys, ctxs: seq<ExecContext>, spaces: map<nat, Space>, c: Config, i: nat)
    requires KernelOk(v, ctxs, spaces, c) && i in spaces && i < |ctxs|
    ensures forall l | l in spaces[i].ents && l.Leaf? :: PagePlace(ctxs[i].segs, l)
  {
    KernelSlot(v, ctxs, spaces, c, i);
    KernelAbsOk(v, ctxs, spaces, c);
    AbsKeys(v, ctxs, spaces);
    hide KernelOk, SysOk, Abs, Leaves, Live, PagePlace, PL.Free;
    LeavesAre(spaces[i]);
    forall l | l in spaces[i].ents && l.Leaf?
      ensures PagePlace(ctxs[i].segs, l)
    {
      PageHolds(Abs(v, ctxs, spaces), i, l);
    }
  }

  lemma UnusedSlot(v: Phys, ctxs: seq<ExecContext>, spaces: map<nat, Space>, c: Config)
    requires KernelOk(v, ctxs, spaces, c) && FirstUnused(ctxs) < MAX_PROCESSES
    ensures FirstUnused(ctxs) !in spaces && 1 <= FirstUnused(ctxs)
  {
    hide Live, PairOk, SysOk, PhysOk, ConfigOk;
  }

  lemma KernelSlots(v: Phys, ctxs: seq<ExecContext>, spaces: map<nat, Space>, c: Config)
    requires KernelOk(v, ctxs, spaces, c)
    ensures |ctxs| == MAX_PROCESSES
    ensures spaces != map[] <==> exists i: nat | 1 <= i < MAX_PROCESSES :: ctxs[i].state != Unused
  {
    hide Live, PairOk, SysOk, PhysOk, ConfigOk;
    if spaces != map[] {
      var i :| i in spaces;
      assert ctxs[i].state != Unused;
    }
  }

  /** A live process can be the parent of a fork. */
  lemma KernelParent(v: Phys, ctxs: seq<ExecContext>, spaces: map<nat, Space>, c: Config, i: nat)
    requires KernelOk(v, ctxs, spaces, c) && i in spaces && i < |ctxs|
    ensures ParentOk(v, spaces[i]) && ProcessTree(spaces[i], c) && KernelEntries(spaces[i], c)
    ensures SomethingCopied(spaces[i], ctxs[i].segs)
    ensures spaces[i].root == ctxs[i].pgd
  {
    KernelFrames(v, ctxs, spaces, c, i);
    KernelSlot(v, ctxs, spaces, c, i);
    KernelAbsOk(v, ctxs, spaces, c);
    AbsKeys(v, ctxs, spaces);
    SysProc(Abs(v, ctxs, spaces), i);
    LiveHolds(v, ctxs[i], spaces[i], c);
    hide KernelOk, Abs, Live, Holds, UserTree, ProcessTree, Taken, Leaves, PL.Free, SysOk, SomethingCopied;
    CodeCopied(ctxs[i].segs, spaces[i], PL.Free(v.user));
  }

  /** When a fork stops short, the processes that exist keep everything they have. */
  lemma StoppedKernel(v: Phys, w: Phys, ctxs: seq<ExecContext>, spaces: map<nat, Space>, c: Config, ps: Space)
    requires KernelOk(v, ctxs, spaces, c) && Stopped(v, ps, w)
    ensures KernelOk(w, ctxs, spaces, c)
  {
    hide PairOk, SysOk, ConfigOk, Abs, PL.Free, Live, KeptHeld, PhysOk, Holds;
    StoppedSys(v, w, ctxs, spaces);
    SameApic(v, w, c);
    forall k | k in spaces
      ensures Live(w, ctxs[k], spaces[k], c)
    {
      StoppedLive(v, w, ctxs[k], spaces[k], c);
    }
  }

  lemma StoppedLive(v: Phys, w: Phys, y: ExecContext, o: Space, c: Config)
    requires Live(v, y, o, c) && PhysOk(v) && PhysOk(w) && KeptHeld(v, w) && SameRegions(v, w)
    requires PL.Free(w.pt) <= PL.Free(v.pt)
    ensures Live(w, y, o, c)
  {
    hide PL.Free, PL.Shape, PL.Ledger, Taken;
    LiveHolds(v, y, o, c);
    hide Live, Holds;
    HeldUnchanged(v, w, o);
    SameSize(v, w);
    OtherAgree(v, w, y, o, c);
  }

  lemma SameSize(v: Phys, w: Phys)
    requires KeptHeld(v, w)
    ensures |w.mem| == |v.mem|
  {
  }

  lemma StoppedSys(v: Phys, w: Phys, ctxs: seq<ExecContext>, spaces: map<nat, Space>)
    requires SysOk(Abs(v, ctxs, spaces)) && PL.Free(w.user) <= PL.Free(v.user)
    ensures SysOk(Abs(w, ctxs, spaces))
  {
    hide ProcOk, PL.Free, Leaves, Apart;
    var a, b := Abs(v, ctxs, spaces), Abs(w, ctxs, spaces);
    assert b.procs == a.procs;
    forall i | i in b.procs
      ensures ProcOk(b.procs[i], b.free)
    {
      FewerFree(a.procs[i], a.free, b.free);
    }
  }

  lemma CodeCopied(g: Segs, s: Space, free: set<nat>)
    requires ProcOk(Proc(g, Leaves(s)), free)
    ensures SomethingCopied(s, g)
  {
    LeavesAre(s);
    PageOfAddress(CODE_START);
    hide Leaves, LeafOf, PagePlace, WriteFlag;
    assert LeafOf(CODE_START) in s.ents && SharedPage(g, LeafOf(CODE_START));
  }

  lemma StackRoom(w: Phys, before: nat, tables: nat)
    requires |PL.Supply(w.pt)| + 1 + tables >= before && before >= 2 + tables
    ensures PL.Supply(w.pt) != {}
  {
    hide PL.Supply;
  }

  /** Taking the OS stack frame after the copy disturbs nothing the copy made. */
  lemma StackTaken(v: Phys, ps: Space, w: Phys, ct: Space, g: Segs, priv: map<nat, Node>, c: Config)
    requires PhysOk(v) && Forked(v, ps, w, ct, g, priv, c) && PL.Supply(w.pt) != {}
    ensures PhysOk(w)
    requires UserTree(ct)
    ensures ForkMade(v, TakeTable(w), ps, ct, g, PL.Picked(w.pt), priv, c)
  {
    hide PL.Free, PL.Supply, PL.Take, PL.Picked, PL.Shape, PL.Ledger, Wf, ProcessTree, ChildPagesExactly;
    hide PL.IsFree, KernelHuges, Huges;
    TakeTableOk(w);
    TakeTableHolds(w, ct);
    PL.SupplyIsFree(w.pt);
    var x, f := TakeTable(w), PL.Picked(w.pt);
    StackPages(v, ps, w, x, ct, g, priv, f);
  }

  lemma StackPages(v: Phys, ps: Space, w: Phys, x: Phys, ct: Space, g: Segs, priv: map<nat, Node>, f: nat)
    requires PhysOk(v) && ChildPagesExactly(v, ps, w, ct, g, priv) && x.user == w.user && f in PL.Free(v.pt)
    requires f < |w.mem| && x.mem == w.mem[f := ZeroFrame()]
    ensures ChildPagesExactly(v, ps, x, ct, g, priv)
  {
    hide PhysOk, SharedWith, SharedPage, PrivatePage, CopyFlags, PL.Free;
    SharedLeaves(g);
    forall u | u in priv
      ensures CopyOf(v, ps, x, ct, g, u, priv[u])
    {
      assert CopyOf(v, ps, w, ct, g, u, priv[u]);
      UserFrameNotTable(v, u);
    }
  }

  lemma KernelTable(v: Phys, ctxs: seq<ExecContext>, spaces: map<nat, Space>, c: Config)
    requires KernelOk(v, ctxs, spaces, c)
    ensures |ctxs| == MAX_PROCESSES && PhysOk(v) && ConfigOk(c)
  {
  }

  lemma BreakMoves(g: Segs, which: Which, size: nat)
    requires SegsOk(g)
    ensures Aligned(SegOf(g, which).nextFree + size * PAGE_SIZE)
  {
  }

  lemma BreakMovesDown(g: Segs, which: Which, size: nat)
    requires SegsOk(g) && SegOf(g, which).start + size * PAGE_SIZE <= SegOf(g, which).nextFree
    ensures Aligned(SegOf(g, which).nextFree - size * PAGE_SIZE) && Aligned(SegOf(g, which).nextFree)
    ensures SegOf(g, which).nextFree <= STACK_START
  {
    var seg := SegOf(g, which);
    assert seg.nextFree == seg.nextFree / PAGE_SIZE * PAGE_SIZE;
    var k := seg.nextFree / PAGE_SIZE;
    assert seg.nextFree - size * PAGE_SIZE == (k - size) * PAGE_SIZE;
  }

  lemma SegmentOrder(g: Segs)
    requires SegsOk(g)
    ensures g.rodata.nextFree <= g.rodata.end < g.data.start <= g.data.nextFree <= g.data.end < g.stack.start
    ensures g.stack.nextFree <= g.stack.end
  {
  }

  /** The kernel's invariant gives a process frames of its own, all allocated. */
  lemma KernelFrames(v: Phys, ctxs: seq<ExecContext>, spaces: map<nat, Space>, c: Config, i: nat)
    requires KernelOk(v, ctxs, spaces, c) && i in spaces
    ensures OwnFrames(v, spaces[i])
  {
    hide SysOk, Abs, Live, Leaves, PL.Free, Taken, PhysOk, ProcOk, PairOk, LiveSlots, ConfigOk, ApicOutside;
    KernelSlot(v, ctxs, spaces, c, i);
    KernelAbsOk(v, ctxs, spaces, c);
    AbsKeys(v, ctxs, spaces);
    SysProc(Abs(v, ctxs, spaces), i);
    LiveUser(v, ctxs[i], spaces[i], c);
    ProcFrames(v, ctxs[i].segs, spaces[i]);
  }

  lemma SysProc(a: Sys, i: nat)
    requires SysOk(a) && i in a.procs
    ensures ProcOk(a.procs[i], a.free)
  {
  }

  lemma LiveUser(v: Phys, x: ExecContext, s: Space, c: Config)
    requires Live(v, x, s, c)
    ensures forall l | l in s.ents && l.Leaf? :: v.user.start < s.ents[l].pfn < v.user.start + v.user.size
  {
  }

  lemma ProcFrames(v: Phys, g: Segs, s: Space)
    requires ProcOk(Proc(g, Leaves(s)), PL.Free(v.user))
    requires forall l | l in s.ents && l.Leaf? :: v.user.start < s.ents[l].pfn < v.user.start + v.user.size
    ensures OwnFrames(v, s)
  {
    hide SegsOk, InRange, PagePlace, ReadOnlySide, WriteFlag, LeafOf, Leaves, PL.Free;
    LeavesAre(s);
    var q := Proc(g, Leaves(s));
    forall l | l in s.ents && l.Leaf?
      ensures Taken(v.user, s.ents[l].pfn)
    {
      assert PageOk(g, l, q.pages[l], PL.Free(v.user));
      PL.FreeMembership(v.user, s.ents[l].pfn);
    }
    forall l, k | l in s.ents && k in s.ents && l.Leaf? && k.Leaf? && l != k
      ensures s.ents[l].pfn != s.ents[k].pfn
    {
      assert l in q.pages && k in q.pages;
    }
  }

  lemma KernelAbsOk(v: Phys, ctxs: seq<ExecContext>, spaces: map<nat, Space>, c: Config)
    requires KernelOk(v, ctxs, spaces, c)
    ensures SysOk(Abs(v, ctxs, spaces)) && forall i | i in spaces :: i < |ctxs|
  {
  }
}
