/** The exit of the last process: `do_exit` and then `do_cleanup`. Everything the process
    held comes back, its OS stack frame twice. */
module LastExit {
  import opened Integers
  import opened PageTable
  import opened Physical
  import opened KernelMap
  import opened Context
  import opened Fork
  import opened Teardown
  import opened Lifecycle
  import opened Isolation
  import opened Kernel
  import opened KernelSteps
  import opened Shrink
  import opened Syscalls
  import PL = PageList

  /** `os_pmd_pfn` is an allocated frame, and no part of the tree but perhaps its kernel PMD. */
  predicate OsPmdKnown(v: Phys, x: ExecContext, s: Space, osPmd: nat) {
    Taken(v.pt, osPmd) && osPmd != x.osStackPfn && (osPmd in s.owner ==> s.owner[osPmd] == Pmd(0, 0))
  }

  /** What has come back between v, before the exit, and w: each page, each table, where
      `os_pmd_pfn` stands for the kernel PMD, and the OS stack; the page-table list counts
      one frame more than it has. */
  ghost predicate AllBack(v: Phys, w: Phys, x: ExecContext, s: Space, osPmd: nat) {
    && Pmd(0, 0) in s.ents
    && SameRegions(v, w) && PL.Shape(w.pt) && PL.Shape(w.user)
    && PL.Free(w.user) == PL.Free(v.user) + PageFrames(Leaves(s))
    && PL.Free(w.pt) == PL.Free(v.pt) + {x.osStackPfn} + (s.owner.Keys - {s.ents[Pmd(0, 0)].pfn}) + {osPmd}
    && PL.Ledger(w.user) && w.pt.freePages == |PL.Free(w.pt)| + 1
  }

  /** Releases commute, so it does not matter that the code makes the second release of
      the stack before it goes through the tree. */
  lemma ReleasesCommute(l: PL.State, f: nat, g: nat)
    ensures PL.Give(PL.Give(l, f), g) == PL.Give(PL.Give(l, g), f)
  {
  }

  lemma StackGone(v: Phys, x: ExecContext, s: Space, c: Config)
    requires Live(v, x, s, c)
    ensures var w := v.(pt := PL.Give(v.pt, x.osStackPfn)); PhysOk(w) ==> Holds(w, s)
    ensures PL.Free(PL.Give(v.pt, x.osStackPfn)) == PL.Free(v.pt) + {x.osStackPfn}
    ensures SameRegions(v, v.(pt := PL.Give(v.pt, x.osStackPfn)))
    ensures forall f | Taken(v.pt, f) && f != x.osStackPfn :: Taken(PL.Give(v.pt, x.osStackPfn), f)
    ensures ApicOutside(v, c) ==> ApicOutside(v.(pt := PL.Give(v.pt, x.osStackPfn)), c)
  {
    hide Wf, PhysOk, UserTree, ProcessTree, KernelEntries, Taken, PL.Give, PL.Free;
    HoldsShape(v, s);
    GivenOne(v.pt, x.osStackPfn);
    assert s.owner.Keys !! {x.osStackPfn};
  }

  lemma GivenOne(l: PL.State, f: nat)
    requires PL.Shape(l) && Taken(l, f)
    ensures PL.Free(PL.Give(l, f)) == PL.Free(l) + {f}
    ensures PL.Give(l, f).start == l.start && PL.Give(l, f).size == l.size
    ensures forall g | Taken(l, g) && g != f :: Taken(PL.Give(l, f), g)
  {
    GiveFrame(l, f);
  }

  lemma HoldsShape(v: Phys, s: Space)
    requires Holds(v, s)
    ensures PL.Shape(v.pt) && PL.Shape(v.user)
  {
  }

  /** The second release of a frame that is free already. */
  lemma GivenAgain(l: PL.State, f: nat)
    requires ListOk(l) && f in PL.Free(l) && l.start < f < l.start + l.size
    ensures var r := PL.Give(l, f);
      && PL.Shape(r) && PL.Free(r) == PL.Free(l) && r.start == l.start && r.size == l.size
      && r.freePages == |PL.Free(r)| + 1
  {
    PL.GiveEffect(l, f);
    PL.FreeFits(l);
    hide PL.Free;
    assert PL.Free(l) + {f} == PL.Free(l);
  }

  /** `do_cleanup`, after the first release of the OS stack. */
  method CleanUp(m: Machine, c: Config, x: ExecContext, osPmd: nat, ghost v: Phys, ghost s: Space)
    requires m.Valid() && m.Value() == v.(pt := PL.Give(v.pt, x.osStackPfn))
    requires Live(v, x, s, c) && OwnFrames(v, s) && ApicOutside(v, c) && ConfigOk(c) && OsPmdKnown(v, x, s, osPmd)
    modifies m.Objs()
    ensures AllBack(v, m.Value(), x, s, osPmd)
  {
    hide PhysOk, PL.PageList.Value, PL.Give, PL.Free, HomeOk, HomeOf, Holds, Taken, ConfigOk, ProcessTree, Live;
    hide OwnFrames, PL.Shape, PL.Ledger, Leaves, PageFrames, Distinct, OsPmdKnown, AllBack, UserTree;
    hide KernelEntries, ApicOutside;
    LiveHolds(v, x, s, c);
    StackGone(v, x, s, c);
    HomeReady(v, s);
    StackPlace(v, x, s, c);
    OsPmdStays(v, x, s, osPmd);
    ReleaseTree(m, c, x.pgd, osPmd, s, HomeOf(s));
    ghost var w := m.Value();
    Collected(v, w, x, s, osPmd);
    assert m.pt.Value() == w.pt;
    m.pt.PfnFree(x.osStackPfn);
    assert m.Value() == w.(pt := PL.Give(w.pt, x.osStackPfn));
  }

  lemma Collected(v: Phys, w: Phys, x: ExecContext, s: Space, osPmd: nat)
    requires PhysOk(w) && SameRegions(v, w) && Pmd(0, 0) in s.ents
    requires v.pt.start < x.osStackPfn < v.pt.start + v.pt.size
    requires PL.Free(w.pt) == PL.Free(v.pt) + {x.osStackPfn} + (s.owner.Keys - {s.ents[Pmd(0, 0)].pfn}) + {osPmd}
    requires PL.Free(w.user) == PL.Free(v.user) + PageFrames(Leaves(s))
    ensures AllBack(v, w.(pt := PL.Give(w.pt, x.osStackPfn)), x, s, osPmd) && PL.Shape(w.pt)
  {
    ListsOk(w);
    hide PhysOk, PL.Free, Leaves, PageFrames, PL.Give;
    GivenAgain(w.pt, x.osStackPfn);
  }

  lemma HomeReady(v: Phys, s: Space)
    requires OwnFrames(v, s)
    ensures Distinct(Leaves(s)) && HomeOk(s, HomeOf(s)) && HomeOf(s).Keys == PageFrames(Leaves(s))
    ensures forall f | f in HomeOf(s) :: Taken(v.user, f)
  {
    LeavesAre(s);
    hide Leaves, HomeOf, Taken;
    HomeFits(s);
  }

  lemma OsPmdStays(v: Phys, x: ExecContext, s: Space, osPmd: nat)
    requires OsPmdKnown(v, x, s, osPmd)
    ensures Taken(v.pt, osPmd) && osPmd != x.osStackPfn && (osPmd in s.owner ==> s.owner[osPmd] == Pmd(0, 0))
  {
  }

  lemma StackPlace(v: Phys, x: ExecContext, s: Space, c: Config)
    requires Live(v, x, s, c)
    ensures v.pt.start < x.osStackPfn < v.pt.start + v.pt.size
    ensures Pmd(0, 0) in s.ents
  {
  }

  /** Over a whole life of a process that was the only one: from v0, before its OS stack and
      its root were allocated, to after its exit the bits are the same, and the page-table
      list counts one frame too many, when `os_pmd_pfn` is its own kernel PMD. */
  lemma WholeLife(v0: Phys, v: Phys, w: Phys, x: ExecContext, s: Space, osPmd: nat)
    requires PhysOk(v0) && SameRegions(v0, v) && AllBack(v, w, x, s, osPmd) && osPmd == s.ents[Pmd(0, 0)].pfn
    requires osPmd in s.owner && s.owner.Keys + {x.osStackPfn} <= PL.Free(v0.pt)
    requires PL.Free(v.pt) == PL.Free(v0.pt) - s.owner.Keys - {x.osStackPfn}
    requires PagesFrom(PL.Free(v0.user), PL.Free(v.user), Leaves(s))
    ensures w.pt.bits == v0.pt.bits && w.pt.freePages == v0.pt.freePages + 1
    ensures w.user.bits == v0.user.bits && w.user.freePages == v0.user.freePages
  {
    hide PhysOk, PL.Free, Leaves, PageFrames, Distinct, PL.Ledger, PL.Shape, ListOk;
    SetsBack(PL.Free(v0.pt), s.owner.Keys, x.osStackPfn, osPmd);
    PagesBack(PL.Free(v0.user), PL.Free(v.user), Leaves(s));
    ListsOk(v0);
    SameFree(v0.pt, w.pt);
    SameFree(v0.user, w.user);
  }

  lemma SetsBack(free: set<nat>, owner: set<nat>, stack: nat, pmd: nat)
    requires pmd in owner && owner + {stack} <= free
    ensures free - owner - {stack} + {stack} + (owner - {pmd}) + {pmd} == free
  {
  }

  lemma PagesBack(before: set<nat>, now: set<nat>, pages: map<Node, Pte>)
    requires PagesFrom(before, now, pages)
    ensures now + PageFrames(pages) == before
  {
    hide PageFrames, Distinct;
  }

  lemma SameFree(l: PL.State, r: PL.State)
    requires ListOk(l) && PL.Shape(r) && l.start == r.start && l.size == r.size && PL.Free(l) == PL.Free(r)
    ensures r.bits == l.bits && l.freePages == |PL.Free(r)|
    ensures PL.Ledger(r) ==> r.freePages == l.freePages
  {
    PL.FreeDeterminesBits(l, r);
    hide PL.Free;
  }
}
