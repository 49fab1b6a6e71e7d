/** The kernel's own mappings in every process tree: `install_os_pts`
    (context.c), `install_apic_mapping` and `remove_apic_mapping` (apic.c). */
module KernelMap {
  import opened PageTable
  import opened Physical
  import opened Install
  import PL = PageList

  const OS_PT_MAPS: nat := 64

  /** The two configuration words these functions read, and the APIC's address. */
  datatype Config = Config(globalMapping: bool, advGlobal: bool, apicBase: nat)

  /** The APIC page lies below 4GB and above the memory the kernel hands out. */
  predicate ConfigOk(c: Config) {
    END_PFN * 0x1000 <= c.apicBase < 0x1_0000_0000
  }

  function ApicAddress(c: Config): nat {
    c.apicBase / 0x20_0000 * 0x20_0000
  }

  function ApicPmd(c: Config): Node {
    Pmd(PgdIndex(ApicAddress(c)), PudIndex(ApicAddress(c)))
  }

  function ApicSlot(c: Config): Node {
    Child(ApicPmd(c), PmdIndex(ApicAddress(c)))
  }

  /** The APIC's 2MB entry is on the kernel side, and not one of the identity entries. */
  lemma ApicIsKernel(c: Config)
    requires ConfigOk(c)
    ensures ApicPmd(c).a == 0 && ApicPmd(c).b < 4 && Huge(ApicSlot(c))
    ensures Parent(ApicSlot(c)) == ApicPmd(c)
    ensures forall k: nat | k < 0x100 :: ApicSlot(c) != Pt(0, 0, k)
    ensures ApicAddress(c) < 0x1_0000_0000 && ApicAddress(c) % 0x1000 == 0
  {
    var q := c.apicBase / 0x20_0000;
    assert 0x100 <= q < 0x800;
    ApicIndices(q);
  }

  /** The indices of the q-th 2MB page. */
  lemma ApicIndices(q: nat)
    requires q < 0x800
    ensures PgdIndex(q * 0x20_0000) == 0 && PudIndex(q * 0x20_0000) == q / 0x200 && PmdIndex(q * 0x20_0000) == q % 0x200
  {
    assert q * 0x20_0000 / 0x80_0000_0000 == 0;
    assert q * 0x20_0000 / 0x4000_0000 == q / 0x200;
    assert q * 0x20_0000 / 0x20_0000 == q;
  }

  /** `(pfn << 21) | 0x183` or `| 0x83`. */
  function IdentityPte(c: Config, k: nat): Pte {
    Pte(k * 512, if c.globalMapping then 0x183 else 0x83)
  }

  /** The APIC entry; bit 52 is set under both options. */
  function ApicPte(c: Config): Pte {
    Pte(ApicAddress(c) / 0x1000 + (if c.globalMapping && c.advGlobal then 0x100_0000_0000 else 0),
        if c.globalMapping then 0x183 else 0x83)
  }

  function IdentityHuges(h: map<Node, Pte>, c: Config, k: nat): map<Node, Pte> {
    if k == 0 then h else IdentityHuges(h, c, k - 1)[Pt(0, 0, k - 1) := IdentityPte(c, k - 1)]
  }

  /** After k identity entries: 2MB page j maps to physical 2MB page j. */
  lemma {:induction false} IdentityHugesAt(h: map<Node, Pte>, c: Config, k: nat, x: Node)
    ensures var r := IdentityHuges(h, c, k);
      && (x in r <==> x in h || (x.Pt? && x.a == 0 && x.b == 0 && x.c < k))
      && (x in r ==> r[x] == if x.Pt? && x.a == 0 && x.b == 0 && x.c < k then IdentityPte(c, x.c) else h[x])
  {
    if k > 0 {
      IdentityHugesAt(h, c, k - 1, x);
    }
  }

  // ---- Steps ------------------------------------------------------------

  /** Kernel-side growth: no page of the map changes, and nothing on the user side; new
      tables have flags 0x3. */
  ghost predicate KernelGrown(v: Phys, s: Space, w: Phys, t: Space) {
    && Holds(w, t) && Grown(v, s, w, t)
    && w.user == v.user
    && Leaves(t) == Leaves(s)
    && (forall n | n in s.ents && !Huge(n) :: n in t.ents && t.ents[n] == s.ents[n])
    && (forall n | n in t.ents && n !in s.ents :: (n == Pud(0) || KernelSide(n)) && (!Huge(n) ==> t.ents[n].flags == 3))
    && (UserTree(s) && Pud(0) in s.ents ==> UserTree(t))
  }

  lemma KernelGrownKeeps(v: Phys, s: Space, w: Phys, t: Space)
    requires KernelGrown(v, s, w, t)
    ensures Holds(w, t) && t.root == s.root
    ensures SupervisorRoot(s) ==> SupervisorRoot(t)
    ensures Pud(0) in s.ents ==> Pud(0) in t.ents
    ensures forall b :: Pmd(0, b) in s.ents ==> Pmd(0, b) in t.ents && t.ents[Pmd(0, b)] == s.ents[Pmd(0, b)]
  {
    hide Holds, Leaves, UserTree, PL.Shape;
  }

  lemma KernelGrownTransitive(v: Phys, s: Space, w: Phys, t: Space, x: Phys, u: Space)
    requires KernelGrown(v, s, w, t) && KernelGrown(w, t, x, u)
    ensures KernelGrown(v, s, x, u)
  {
    hide PL.Shape, Grown, Holds, Leaves, UserTree;
    GrownTransitive(v, s, w, t, x, u);
  }

  /** PGD entry 0 denies user access, and with it the whole user side. */
  predicate SupervisorRoot(s: Space) {
    Pud(0) in s.ents && !UserFlag(s.ents[Pud(0)])
  }

  lemma SupervisorRootNotUser(s: Space)
    requires SupervisorRoot(s)
    ensures !UserTree(s)
  {
    assert !UserNodeOk(s, Pud(0));
  }

  lemma UserRootStays(v: Phys, s: Space, w: Phys, t: Space)
    requires KernelGrown(v, s, w, t) && UserTree(s) && Pud(0) in s.ents
    ensures !SupervisorRoot(t)
  {
    hide Holds, Grown, Leaves, UserTree;
    if SupervisorRoot(t) {
      SupervisorRootNotUser(t);
    }
  }

  /** What the mapping and unmapping code does to a tree: tables and pages are added, a
      page or 2MB entry is removed, the kernel's entries are added. */
  ghost predicate TreeStep(s: Space, t: Space) {
    || (exists flags: nat :: NewTables(s, t, flags))
    || (exists n :: n in s.ents && !IsTable(s, n) && t == WithoutEntry(s, n))
    || (exists v, w :: KernelGrown(v, s, w, t))
  }

  lemma RootStep(s: Space, t: Space)
    requires SupervisorRoot(s) && TreeStep(s, t)
    ensures SupervisorRoot(t)
  {
    hide Holds, Grown, Leaves, UserTree, UserFlag;
    if v, w :| KernelGrown(v, s, w, t) {
      KernelGrownKeeps(v, s, w, t);
    }
  }

  /** Once it is supervisor-only the root stays so, whatever is mapped or unmapped later. */
  lemma {:induction false} SupervisorForever(trees: seq<Space>, n: nat)
    requires n < |trees| && SupervisorRoot(trees[0])
    requires forall k: nat | k + 1 < |trees| :: TreeStep(trees[k], trees[k + 1])
    ensures SupervisorRoot(trees[n])
  {
    hide SupervisorRoot, TreeStep;
    if n > 0 {
      SupervisorForever(trees, n - 1);
      assert TreeStep(trees[n - 1], trees[n - 1 + 1]);
      RootStep(trees[n - 1], trees[n]);
    }
  }

  /** Table flags 0x3: the user bit is left clear, which only PGD entry 0 feels. */
  lemma EnteredKernel(v: Phys, s: Space, w: Phys, t: Space, c: Node, next: nat)
    requires Entered(v, s, w, t, c, 3, next)
    requires c == Pud(0) || (c.Pmd? && KernelSide(c))
    ensures KernelGrown(v, s, w, t) && Huges(t) == Huges(s)
    ensures c == Pud(0) && c !in s.ents ==> SupervisorRoot(t)
  {
    hide PL.Shape, Holds, Leaves, Huges, Grown;
    if c !in s.ents {
      assert t.ents == s.ents[c := Pte(next, 3)];
      forall n | UserTree(s) && Pud(0) in s.ents && n in t.ents
        ensures UserNodeOk(t, n)
      {
        assert n != c ==> UserNodeOk(s, n);
      }
    }
  }

  lemma PutHuge(v: Phys, s: Space, n: Node, p: Pte)
    requires Holds(v, s) && Huge(n) && IsTable(s, Parent(n)) && Slot(n) < ENTRIES
    requires PteOk(p) && !UserFlag(p)
    ensures FrameOf(s, Parent(n)) < |v.mem|
    ensures KernelGrown(v, s, Hang(v, s, n, p), WithEntry(s, n, p))
    ensures Huges(WithEntry(s, n, p)) == Huges(s)[n := p]
  {
    hide PL.Shape, Leaves, Huges, Grown, Wf, PhysOk, Raw, Store;
    PutHolds(v, s, n, p);
    EntryViews(s, n, p);
    if UserTree(s) {
      EntryUser(s, n, p);
    }
  }

  // ---- The code ---------------------------------------------------------

  /** One level of `install_os_pts`: an empty entry gets a new table with flags 0x3. */
  method EnterForOs(m: Machine, base: nat, ghost s: Space, ghost n: Node)
    returns (next: nat, made: bool, ghost t: Space)
    requires m.Valid() && Holds(m.Value(), s)
    requires (n.Pgd? || n == Pud(0)) && IsTable(s, n) && FrameOf(s, n) == base
    requires Child(n, 0) !in s.ents ==> PL.Supply(m.pt.Value()) != {}
    modifies m`mem, m.pt, m.pt.bitmap
    ensures m.Valid() && Entered(old(m.Value()), s, m.Value(), t, Child(n, 0), 3, next)
    ensures made <==> Child(n, 0) !in s.ents
  {
    hide Holds, Entered, PL.Supply, PL.Take, PL.Picked, Raw, PhysOk, Store, SlotValue, Present, MaskedFrame, UserBit;
    ghost var c, v := Child(n, 0), m.Value();
    ReadHeld(v, s, c);
    t := s;
    made := m.mem[base][0] == 0;
    if made {
      EnteredNew(v, s, c, 3);
      next := m.FreshTable();
      m.StoreWord(base, 0, Raw(Pte(next, 3)));
      t := WithTable(s, c, Pte(next, 3));
    } else {
      EnteredThere(v, s, c, 3);
      next := MaskedFrame(m.mem[base][0]);
    }
  }

  /** One level of `install_apic_mapping`. */
  method EnterForApic(m: Machine, base: nat, i: nat, ghost s: Space, ghost n: Node)
    returns (next: nat, ghost t: Space)
    requires m.Valid() && Holds(m.Value(), s)
    requires (n.Pgd? || n.Pud?) && IsTable(s, n) && FrameOf(s, n) == base && i < ENTRIES
    requires Child(n, i) !in s.ents ==> PL.Supply(m.pt.Value()) != {}
    modifies m`mem, m.pt, m.pt.bitmap
    ensures m.Valid() && Entered(old(m.Value()), s, m.Value(), t, Child(n, i), 3, next)
  {
    hide Holds, Entered, PL.Supply, PL.Take, PL.Picked, Raw, PhysOk, Store, SlotValue, Present, MaskedFrame, UserBit;
    ghost var c, v := Child(n, i), m.Value();
    ReadHeld(v, s, c);
    t := s;
    if !Present(m.mem[base][i]) {
      EnteredNew(v, s, c, 3);
      next := m.FreshTable();
      m.StoreWord(base, i, Raw(Pte(next, 3)));
      t := WithTable(s, c, Pte(next, 3));
    } else {
      EnteredThere(v, s, c, 3);
      next := m.mem[base][i] / 0x1000;
    }
  }

  /** Tables the APIC mapping still lacks. */
  function ApicMissing(s: Space, c: Config): nat {
    (if Pud(0) in s.ents then 0 else 1) + (if ApicPmd(c) in s.ents then 0 else 1)
  }

  /** `install_apic_mapping`. */
  method InstallApicMapping(m: Machine, c: Config, pl4: nat, ghost s: Space) returns (ghost t: Space)
    requires m.Valid() && Holds(m.Value(), s) && s.root == pl4 && ConfigOk(c)
    requires |PL.Supply(m.pt.Value())| >= ApicMissing(s, c)
    modifies m`mem, m.pt, m.pt.bitmap
    ensures m.Valid() && KernelGrown(old(m.Value()), s, m.Value(), t)
    ensures Huges(t) == Huges(s)[ApicSlot(c) := ApicPte(c)]
    ensures Pud(0) !in s.ents ==> SupervisorRoot(t)
    ensures |PL.Supply(m.pt.Value())| == |PL.Supply(old(m.pt.Value()))| - ApicMissing(s, c)
    ensures ApicPmd(c) in t.ents
  {
    hide Holds, KernelGrown, PL.Supply, PL.Shape, PL.Ledger, PgdIndex, PudIndex, PmdIndex, PL.PageList.Value;
    hide Raw, Store, ConfigOk, Leaves, Huges, UserTree, Grown;
    ApicIsKernel(c);
    ghost var v := m.Value();
    var address := ApicAddress(c);
    var pud, s1 := EnterForApic(m, pl4, PgdIndex(address), s, Pgd);
    ghost var v1 := m.Value();
    EnteredKernel(v, s, v1, s1, Pud(0), pud);
    var pmd, s2 := EnterForApic(m, pud, PudIndex(address), s1, Pud(0));
    ghost var v2 := m.Value();
    EnteredKernel(v1, s1, v2, s2, ApicPmd(c), pmd);
    KernelGrownTransitive(v, s, v1, s1, v2, s2);
    ApicPteOk(c);
    PutHuge(v2, s2, ApicSlot(c), ApicPte(c));
    m.StoreWord(pmd, PmdIndex(address), Raw(ApicPte(c)));
    t := WithEntry(s2, ApicSlot(c), ApicPte(c));
    KernelGrownTransitive(v, s, v2, s2, m.Value(), t);
  }

  lemma ApicPteOk(c: Config)
    requires ConfigOk(c)
    ensures PteOk(ApicPte(c)) && !UserFlag(ApicPte(c))
    ensures Raw(ApicPte(c)) == ApicAddress(c) + (if c.globalMapping then 0x183 else 0x83)
      + (if c.globalMapping && c.advGlobal then 0x10_0000_0000_0000 else 0)
  {
    ApicIsKernel(c);
  }

  lemma IdentityPteOk(c: Config, k: nat)
    requires k < OS_PT_MAPS
    ensures PteOk(IdentityPte(c, k)) && !UserFlag(IdentityPte(c, k))
    ensures Raw(IdentityPte(c, k)) == k * 0x20_0000 + (if c.globalMapping then 0x183 else 0x83)
  {
  }

  /** The 2MB entries of every process: 64 for the identity map and one for the APIC. */
  function KernelHuges(c: Config): map<Node, Pte> {
    IdentityHuges(map[], c, OS_PT_MAPS)[ApicSlot(c) := ApicPte(c)]
  }

  /** The kernel's half of an address space: these 2MB entries and no others. */
  predicate KernelEntries(s: Space, c: Config) {
    Huges(s) == KernelHuges(c)
  }

  /** Tables `install_os_pts` still lacks. */
  function OsMissing(s: Space, c: Config): nat {
    (if Pud(0) in s.ents then 0 else 1)
    + (if Pmd(0, 0) in s.ents then 0 else 1)
    + (if ApicPmd(c) in s.ents || ApicPmd(c) == Pmd(0, 0) then 0 else 1)
  }

  /** The identity loop's state after k entries. */
  ghost predicate IdentityMapped(v: Phys, s: Space, w: Phys, t: Space, c: Config, k: nat, frame: nat) {
    && KernelGrown(v, s, w, t)
    && Huges(t) == IdentityHuges(Huges(s), c, k)
    && w.pt == v.pt
    && (forall n | !Huge(n) :: n in t.ents <==> n in s.ents)
    && Pmd(0, 0) in t.ents && FrameOf(t, Pmd(0, 0)) == frame && frame < |w.mem|
  }

  lemma IdentityStep(v: Phys, s: Space, w: Phys, t: Space, c: Config, k: nat, frame: nat)
    requires k < OS_PT_MAPS
    requires IdentityMapped(v, s, w, t, c, k, frame)
    ensures MemOk(w.mem)
    ensures var n, p := Pt(0, 0, k), IdentityPte(c, k);
      IdentityMapped(v, s, w.(mem := Store(w.mem, frame, k, Raw(p))), WithEntry(t, n, p), c, k + 1, frame)
  {
    hide PL.Shape, PL.Ledger, Leaves, Huges, Grown, UserTree, Raw, Store, IdentityPte, Wf;
    var n, p := Pt(0, 0, k), IdentityPte(c, k);
    IdentityPteOk(c, k);
    PutHuge(w, t, n, p);
    var x := w.(mem := Store(w.mem, frame, k, Raw(p)));
    assert x == Hang(w, t, n, p);
    KernelGrownTransitive(v, s, w, t, x, WithEntry(t, n, p));
  }

  lemma IdentityStart(v: Phys, s: Space, c: Config, frame: nat)
    requires Holds(v, s) && Pmd(0, 0) in s.ents && FrameOf(s, Pmd(0, 0)) == frame && frame < |v.mem|
    ensures IdentityMapped(v, s, v, s, c, 0, frame)
  {
    GrownReflexive(v, s);
  }

  /** The loop of `install_os_pts`. */
  method MapIdentity(m: Machine, c: Config, ptBase: nat, ghost s: Space) returns (ghost t: Space)
    requires m.Valid() && Holds(m.Value(), s)
    requires Pmd(0, 0) in s.ents && FrameOf(s, Pmd(0, 0)) == ptBase && ptBase < |m.mem|
    modifies m`mem
    ensures m.Valid() && IdentityMapped(old(m.Value()), s, m.Value(), t, c, OS_PT_MAPS, ptBase)
  {
    hide Holds, PL.Shape, PL.Ledger, PL.PageList.Value, Raw, Store, IdentityMapped, IdentityPte;
    ghost var v := m.Value();
    IdentityStart(v, s, c, ptBase);
    t := s;
    var pfn := 0;
    while pfn < OS_PT_MAPS
      invariant pfn <= OS_PT_MAPS && m.Valid() && ptBase < |m.mem|
      invariant IdentityMapped(v, s, m.Value(), t, c, pfn, ptBase)
    {
      IdentityStep(v, s, m.Value(), t, c, pfn, ptBase);
      m.StoreWord(ptBase, pfn, Raw(IdentityPte(c, pfn)));
      t := WithEntry(t, Pt(0, 0, pfn), IdentityPte(c, pfn));
      pfn := pfn + 1;
    }
  }

  /** `install_os_pts`: the 64 identity entries and the APIC entry are there
      afterwards, no page of the process changes, and the trees that had a user page
      keep every page reachable from user mode; a tree without one loses its user
      side for good. `osPmd` is the one global that remembers the last PMD made. */
  method InstallOsPts(m: Machine, c: Config, pl4: nat, osPmd: nat, ghost s: Space)
    returns (osPmd': nat, ghost t: Space)
    requires m.Valid() && Holds(m.Value(), s) && s.root == pl4 && ConfigOk(c)
    requires |PL.Supply(m.pt.Value())| >= OsMissing(s, c)
    modifies m`mem, m.pt, m.pt.bitmap
    ensures m.Valid() && KernelGrown(old(m.Value()), s, m.Value(), t)
    ensures Huges(t) == IdentityHuges(Huges(s), c, OS_PT_MAPS)[ApicSlot(c) := ApicPte(c)]
    ensures Pud(0) !in s.ents ==> SupervisorRoot(t)
    ensures UserTree(s) ==> (SupervisorRoot(t) <==> Pud(0) !in s.ents)
    ensures Pmd(0, 0) in t.ents && ApicPmd(c) in t.ents
    ensures osPmd' == if Pmd(0, 0) in s.ents then osPmd else t.ents[Pmd(0, 0)].pfn
    ensures |PL.Supply(m.pt.Value())| == |PL.Supply(old(m.pt.Value()))| - OsMissing(s, c)
  {
    hide Holds, KernelGrown, PL.Supply, PL.Shape, PL.Ledger, PgdIndex, PudIndex, PmdIndex, PL.PageList.Value;
    hide Raw, Store, ConfigOk;
    hide Leaves, Huges, UserTree, Grown, IdentityHuges, ApicPte, SupervisorRoot;
    ApicIsKernel(c);
    ghost var v := m.Value();
    var pud, _, s1 := EnterForOs(m, pl4, s, Pgd);
    ghost var v1 := m.Value();
    EnteredKernel(v, s, v1, s1, Pud(0), pud);
    var pmd, newPmd, s2 := EnterForOs(m, pud, s1, Pud(0));
    osPmd' := if newPmd then pmd else osPmd;
    ghost var v2 := m.Value();
    EnteredKernel(v1, s1, v2, s2, Pmd(0, 0), pmd);
    KernelGrownKeeps(v1, s1, v2, s2);
    KernelGrownTransitive(v, s, v1, s1, v2, s2);
    ghost var s3 := MapIdentity(m, c, pmd, s2);
    ghost var v3 := m.Value();
    KernelGrownKeeps(v2, s2, v3, s3);
    KernelGrownTransitive(v, s, v2, s2, v3, s3);
    t := InstallApicMapping(m, c, pl4, s3);
    KernelGrownKeeps(v3, s3, m.Value(), t);
    KernelGrownTransitive(v, s, v3, s3, m.Value(), t);
    if UserTree(s) && Pud(0) in s.ents {
      UserRootStays(v, s, m.Value(), t);
    }
  }

  /** `remove_apic_mapping`: the APIC entry goes, its tables and all else stay. */
  method RemoveApicMapping(m: Machine, c: Config, pl4: nat, ghost s: Space) returns (ghost t: Space)
    requires m.Valid() && Holds(m.Value(), s) && s.root == pl4 && ConfigOk(c)
    requires ApicSlot(c) in s.ents
    modifies m`mem
    ensures m.Valid() && Holds(m.Value(), t) && Grown(old(m.Value()), s, m.Value(), t)
    ensures t == WithoutEntry(s, ApicSlot(c))
    ensures Leaves(t) == Leaves(s) && Huges(t) == Huges(s) - {ApicSlot(c)}
    ensures m.Value() == old(m.Value()).(mem := m.mem)
  {
    hide Wf, PL.Shape, PL.Ledger, PgdIndex, PudIndex, PmdIndex, PL.PageList.Value, Raw, Store, ConfigOk;
    hide Leaves, Huges, Grown, Present;
    ghost var v, n := m.Value(), ApicSlot(c);
    ApicIsKernel(c);
    ApicPath(v, s, c);
    DropHolds(v, s, n);
    WithoutViews(s, n);
    var address := ApicAddress(c);
    var pfn := m.mem[pl4][PgdIndex(address)] / 0x1000;
    pfn := m.mem[pfn][PudIndex(address)] / 0x1000;
    m.StoreWord(pfn, PmdIndex(address), 0);
    t := WithoutEntry(s, n);
  }

  lemma ApicPath(v: Phys, s: Space, c: Config)
    requires Holds(v, s) && ConfigOk(c) && ApicSlot(c) in s.ents
    ensures Pud(0) in s.ents && ApicPmd(c) in s.ents && s.root < |v.mem|
    ensures s.ents[Pud(0)].pfn < |v.mem| && s.ents[ApicPmd(c)].pfn < |v.mem|
    ensures v.mem[s.root][PgdIndex(ApicAddress(c))] / 0x1000 == s.ents[Pud(0)].pfn
    ensures v.mem[s.ents[Pud(0)].pfn][PudIndex(ApicAddress(c))] / 0x1000 == s.ents[ApicPmd(c)].pfn
  {
    hide PgdIndex, PudIndex, PmdIndex, ConfigOk;
    ApicIsKernel(c);
    assert NodeOk(s, ApicSlot(c));
    assert NodeOk(s, ApicPmd(c));
    hide Wf, PhysOk, Present, UserBit, PfnField, MaskedFrame, Raw, NodeOk;
    ReadHeld(v, s, Pud(0));
    ReadHeld(v, s, ApicPmd(c));
    ReadHeld(v, s, ApicSlot(c));
  }
}
