/** The code that builds and edits page tables: `install_ptable`,
    `install_ptable_multi` (context.c), `get_user_pte`, `do_unmap_user` and
    `install_page_table` (entry.c). */
module Install {
  import opened PageTable
  import opened Physical
  import PL = PageList

  /** How many tables a walk to n still lacks. */
  function Missing(s: Space, n: Node): nat
    requires n.Leaf?
  {
    (if Pud(n.a) in s.ents then 0 else 1)
    + (if Pmd(n.a, n.b) in s.ents then 0 else 1)
    + (if Pt(n.a, n.b, n.c) in s.ents then 0 else 1)
  }

  lemma TableUser(s: Space, n: Node, p: Pte)
    requires UserTree(s) && UserFlag(p) && !Huge(n)
    ensures UserTree(WithTable(s, n, p))
  {
    var t := WithTable(s, n, p);
    forall m | m in t.ents
      ensures UserNodeOk(t, m)
    {
      assert m != n ==> UserNodeOk(s, m);
    }
  }

  lemma EntryUser(s: Space, n: Node, p: Pte)
    requires UserTree(s) && (if Huge(n) then !UserFlag(p) else KernelSide(n) || UserFlag(p))
    ensures UserTree(WithEntry(s, n, p))
  {
    var t := WithEntry(s, n, p);
    forall m | m in t.ents
      ensures UserNodeOk(t, m)
    {
      assert m != n ==> UserNodeOk(s, m);
    }
  }

  lemma TakeTableCost(v: Phys)
    requires PhysOk(v) && PL.Supply(v.pt) != {}
    ensures |PL.Supply(TakeTable(v).pt)| == |PL.Supply(v.pt)| - 1
  {
    TakeTableOk(v);
    hide PL.Supply;
    assert |PL.Supply(v.pt) - {PL.Picked(v.pt)}| == |PL.Supply(v.pt)| - 1;
  }

  /** The table at c has been reached: found where it was, or taken and hung there. */
  ghost predicate Entered(v: Phys, s: Space, w: Phys, t: Space, c: Node, flags: nat, next: nat) {
    && Holds(w, t) && Grown(v, s, w, t)
    && w.user == v.user
    && IsTable(t, c) && FrameOf(t, c) == next && next < |w.mem|
    && (c in s.ents ==> t == s && w == v)
    && (c !in s.ents ==> t == WithTable(s, c, Pte(next, flags)) && |PL.Supply(w.pt)| == |PL.Supply(v.pt)| - 1)
    && Leaves(t) == Leaves(s) && Huges(t) == Huges(s)
  }

  lemma EnteredThere(v: Phys, s: Space, c: Node, flags: nat)
    requires Holds(v, s) && c in s.ents && IsTable(s, c) && !c.Pgd?
    ensures Entered(v, s, v, s, c, flags, s.ents[c].pfn)
  {
    GrownReflexive(v, s);
    assert TableOwned(s, c);
    assert Taken(v.pt, s.ents[c].pfn);
  }

  lemma EnteredNew(v: Phys, s: Space, c: Node, flags: nat)
    requires Holds(v, s) && PL.Supply(v.pt) != {}
    requires !c.Pgd? && !c.Leaf? && !Huge(c) && c !in s.ents && IsTable(s, Parent(c)) && Slot(c) < ENTRIES
    requires flags < 8 && flags % 2 == 1
    ensures FrameOf(s, Parent(c)) < |v.mem|
    ensures var p := Pte(PL.Picked(v.pt), flags);
      Entered(v, s, Hang(TakeTable(v), s, c, p), WithTable(s, c, p), c, flags, p.pfn)
  {
    hide PL.Supply, PL.Shape, PL.Take, PL.Picked, PhysOk, Wf, Raw, Huge;
    GrowTable(v, s, c, flags);
    TakeTableHolds(v, s);
    TakeTableCost(v);
  }

  /** One level of `install_ptable`: the table below entry i, made if the entry is
      zero. The set-up code zeroes a frame that the allocator has zeroed already. */
  method EnterForSetup(m: Machine, base: nat, i: nat, ghost s: Space, ghost n: Node)
    returns (next: nat, ghost t: Space)
    requires m.Valid() && Holds(m.Value(), s)
    requires !n.Leaf? && !n.Pt? && IsTable(s, n) && FrameOf(s, n) == base
    requires i < ENTRIES && !Huge(Child(n, i))
    requires Child(n, i) !in s.ents ==> PL.Supply(m.pt.Value()) != {}
    modifies m`mem, m.pt, m.pt.bitmap
    ensures m.Valid() && Entered(old(m.Value()), s, m.Value(), t, Child(n, i), 7, next)
  {
    hide Holds, Entered, PL.Supply, PL.Take, PL.Picked, Raw, PhysOk, Store, SlotValue, Present, MaskedFrame;
    hide UserBit, Huge;
    ghost var c, v := Child(n, i), m.Value();
    ReadHeld(v, s, c);
    t := s;
    if m.mem[base][i] == 0 {
      EnteredNew(v, s, c, 7);
      ZeroAgain(v, s, c, 7);
      var pfn := m.FreshTable();
      m.StoreWord(base, i, Raw(Pte(pfn, 7)));
      next := pfn;
      m.Bzero(next);
      t := WithTable(s, c, Pte(pfn, 7));
    } else {
      EnteredThere(v, s, c, 7);
      next := MaskedFrame(m.mem[base][i]);
    }
  }

  /** One level of `install_page_table`: the table below entry i, made if the entry
      is not present. */
  method EnterForFault(m: Machine, base: nat, i: nat, acFlags: nat, ghost s: Space, ghost n: Node)
    returns (next: nat, ghost t: Space)
    requires m.Valid() && Holds(m.Value(), s)
    requires !n.Leaf? && !n.Pt? && IsTable(s, n) && FrameOf(s, n) == base
    requires i < ENTRIES && !Huge(Child(n, i)) && acFlags < 8 && acFlags % 2 == 1
    requires Child(n, i) !in s.ents ==> PL.Supply(m.pt.Value()) != {}
    modifies m`mem, m.pt, m.pt.bitmap
    ensures m.Valid() && Entered(old(m.Value()), s, m.Value(), t, Child(n, i), acFlags, next)
  {
    hide Holds, Entered, PL.Supply, PL.Take, PL.Picked, Raw, PhysOk, Store, SlotValue, Present, PfnField, UserBit, Huge;
    ghost var c, v := Child(n, i), m.Value();
    ReadHeld(v, s, c);
    t := s;
    if Present(m.mem[base][i]) {
      EnteredThere(v, s, c, acFlags);
      next := PfnField(m.mem[base][i]);
    } else {
      EnteredNew(v, s, c, acFlags);
      var pfn := m.FreshTable();
      m.StoreWord(base, i, Raw(Pte(pfn, acFlags)));
      next := pfn;
      t := WithTable(s, c, Pte(pfn, acFlags));
    }
  }

  function PathTables(l: Node): set<Node>
    requires l.Leaf?
  {
    {Pud(l.a), Pmd(l.a, l.b), Pt(l.a, l.b, l.c)}
  }

  /** The last-level table of a page has been reached; only tables were added. */
  ghost predicate Reached(v: Phys, s: Space, w: Phys, t: Space, l: Node, frame: nat)
    requires l.Leaf?
  {
    && Holds(w, t) && Grown(v, s, w, t)
    && w.user == v.user
    && IsTable(t, Parent(l)) && FrameOf(t, Parent(l)) == frame && frame < |w.mem|
    && Leaves(t) == Leaves(s) && Huges(t) == Huges(s)
    && t.ents.Keys == s.ents.Keys + PathTables(l)
    && |PL.Supply(w.pt)| == |PL.Supply(v.pt)| - Missing(s, l)
    && (UserTree(s) ==> UserTree(t))
  }

  lemma ThreeLevels(v0: Phys, s0: Space, v1: Phys, s1: Space, v2: Phys, s2: Space, v3: Phys, s3: Space,
                    l: Node, flags: nat, f1: nat, f2: nat, f3: nat)
    requires l.Leaf? && UserFlag(Pte(0, flags))
    requires Entered(v0, s0, v1, s1, Pud(l.a), flags, f1)
    requires Entered(v1, s1, v2, s2, Pmd(l.a, l.b), flags, f2)
    requires Entered(v2, s2, v3, s3, Pt(l.a, l.b, l.c), flags, f3)
    ensures Reached(v0, s0, v3, s3, l, f3)
  {
    hide PL.Supply, PL.Shape, Holds, Leaves, Huges, Grown, UserTree;
    GrownTransitive(v0, s0, v1, s1, v2, s2);
    GrownTransitive(v0, s0, v2, s2, v3, s3);
    EnteredUser(v0, s0, v1, s1, Pud(l.a), flags, f1);
    EnteredUser(v1, s1, v2, s2, Pmd(l.a, l.b), flags, f2);
    EnteredUser(v2, s2, v3, s3, Pt(l.a, l.b, l.c), flags, f3);
  }

  lemma EnteredUser(v: Phys, s: Space, w: Phys, t: Space, c: Node, flags: nat, next: nat)
    requires UserFlag(Pte(0, flags)) && !c.Pgd?
    requires Entered(v, s, w, t, c, flags, next)
    ensures UserTree(s) ==> UserTree(t)
    ensures t.ents.Keys == s.ents.Keys + {c}
  {
    hide PL.Supply, PL.Shape, Holds, Leaves, Huges, Grown;
    if UserTree(s) && c !in s.ents {
      TableUser(s, c, Pte(next, flags));
    }
  }

  /** Tables that were there keep their entries; the ones made carry these flags. */
  predicate NewTables(s: Space, t: Space, flags: nat) {
    && (forall n | n in s.ents && !n.Leaf? :: n in t.ents && t.ents[n] == s.ents[n])
    && (forall n | n in t.ents && n !in s.ents && !n.Leaf? :: t.ents[n].flags == flags)
  }

  lemma EnteredTables(v0: Phys, s0: Space, v1: Phys, s1: Space, v2: Phys, s2: Space, v3: Phys, s3: Space,
                      l: Node, flags: nat, f1: nat, f2: nat, f3: nat)
    requires l.Leaf?
    requires Entered(v0, s0, v1, s1, Pud(l.a), flags, f1)
    requires Entered(v1, s1, v2, s2, Pmd(l.a, l.b), flags, f2)
    requires Entered(v2, s2, v3, s3, Pt(l.a, l.b, l.c), flags, f3)
    ensures NewTables(s0, s3, flags)
  {
    EnteredTable(v0, s0, v1, s1, Pud(l.a), flags, f1);
    EnteredTable(v1, s1, v2, s2, Pmd(l.a, l.b), flags, f2);
    EnteredTable(v2, s2, v3, s3, Pt(l.a, l.b, l.c), flags, f3);
    hide Entered;
  }

  lemma EnteredTable(v: Phys, s: Space, w: Phys, t: Space, c: Node, flags: nat, next: nat)
    requires Entered(v, s, w, t, c, flags, next)
    ensures NewTables(s, t, flags)
  {
    hide PL.Supply, PL.Shape, Holds, Leaves, Huges, Grown;
  }

  lemma PageKeepsTables(s: Space, t: Space, l: Node, p: Pte, flags: nat)
    requires NewTables(s, t, flags) && l.Leaf?
    ensures NewTables(s, WithEntry(t, l, p), flags)
  {
  }

  /** The three table steps that `install_ptable` and `install_ptable_multi` begin with. */
  method WalkForSetup(m: Machine, base: nat, address: nat, ghost s: Space)
    returns (frame: nat, ghost t: Space)
    requires m.Valid() && Holds(m.Value(), s) && s.root == base
    requires !KernelSide(LeafOf(address))
    requires |PL.Supply(m.pt.Value())| >= Missing(s, LeafOf(address))
    modifies m`mem, m.pt, m.pt.bitmap
    ensures m.Valid() && Reached(old(m.Value()), s, m.Value(), t, LeafOf(address), frame) && NewTables(s, t, 7)
  {
    hide Holds, PL.Supply, PL.Shape, PL.Ledger, Grown, Leaves, Huges, PgdIndex, PudIndex, PmdIndex, PteIndex;
    hide PL.PageList.Value, NewTables;
    ghost var l, v := LeafOf(address), m.Value();
    var pud, s1 := EnterForSetup(m, base, PgdIndex(address), s, Pgd);
    ghost var v1 := m.Value();
    var pmd, s2 := EnterForSetup(m, pud, PudIndex(address), s1, Pud(PgdIndex(address)));
    ghost var v2 := m.Value();
    frame, t := EnterForSetup(m, pmd, PmdIndex(address), s2, Pmd(PgdIndex(address), PudIndex(address)));
    ThreeLevels(v, s, v1, s1, v2, s2, m.Value(), t, l, 7, pud, pmd, frame);
    EnteredTables(v, s, v1, s1, v2, s2, m.Value(), t, l, 7, pud, pmd, frame);
  }

  /** The three table steps of `install_page_table`, with the fault's flags. */
  method WalkForFault(m: Machine, base: nat, address: nat, acFlags: nat, ghost s: Space)
    returns (frame: nat, ghost t: Space)
    requires m.Valid() && Holds(m.Value(), s) && s.root == base
    requires !KernelSide(LeafOf(address)) && (acFlags == 5 || acFlags == 7)
    requires |PL.Supply(m.pt.Value())| >= Missing(s, LeafOf(address))
    modifies m`mem, m.pt, m.pt.bitmap
    ensures m.Valid() && Reached(old(m.Value()), s, m.Value(), t, LeafOf(address), frame) && NewTables(s, t, acFlags)
  {
    hide Holds, PL.Supply, PL.Shape, PL.Ledger, Grown, Leaves, Huges, PgdIndex, PudIndex, PmdIndex, PteIndex;
    hide PL.PageList.Value, NewTables;
    ghost var l, v := LeafOf(address), m.Value();
    var pud, s1 := EnterForFault(m, base, PgdIndex(address), acFlags, s, Pgd);
    ghost var v1 := m.Value();
    var pmd, s2 := EnterForFault(m, pud, PudIndex(address), acFlags, s1, Pud(PgdIndex(address)));
    ghost var v2 := m.Value();
    frame, t := EnterForFault(m, pmd, PmdIndex(address), acFlags, s2, Pmd(PgdIndex(address), PudIndex(address)));
    ThreeLevels(v, s, v1, s1, v2, s2, m.Value(), t, l, acFlags, pud, pmd, frame);
    EnteredTables(v, s, v1, s1, v2, s2, m.Value(), t, l, acFlags, pud, pmd, frame);
  }

  // ---- Mapping one page -------------------------------------------------

  /** One page has been mapped: the map changes at that page only, the 2MB entries
      not at all, and memory only in the tree's own frames. */
  ghost predicate Mapped(v: Phys, s: Space, w: Phys, t: Space, l: Node, p: Pte)
    requires l.Leaf?
  {
    && Holds(w, t) && Grown(v, s, w, t)
    && Leaves(t) == Leaves(s)[l := p] && Huges(t) == Huges(s)
    && t.ents.Keys == s.ents.Keys + PathTables(l) + {l}
    && |PL.Supply(w.pt)| == |PL.Supply(v.pt)| - Missing(s, l)
    && (UserTree(s) ==> UserTree(t))
  }

  lemma MapLast(v: Phys, s: Space, w: Phys, t: Space, l: Node, frame: nat, user: PL.State, p: Pte)
    requires l.Leaf?
    requires Reached(v, s, w, t, l, frame) && !KernelSide(l) && Slot(l) < ENTRIES
    requires UserFlag(p) && PteOk(p) && p.pfn < MAX_FRAMES
    requires PhysOk(w.(user := user))
    ensures var x := w.(user := user, mem := Store(w.mem, frame, Slot(l), Raw(p)));
      Mapped(v, s, x, WithEntry(t, l, p), l, p)
  {
    hide PL.Supply, PL.Shape, PL.Ledger, Leaves, Huges, Grown, Wf, UserTree, Raw, KernelSide, MemOk, Store;
    var y := w.(user := user);
    assert Holds(y, t);
    PutHolds(y, t, l, p);
    EntryViews(t, l, p);
    if UserTree(t) {
      EntryUser(t, l, p);
    }
    var x := y.(mem := Store(w.mem, frame, Slot(l), Raw(p)));
    assert x == Hang(y, t, l, p);
    GrownIgnoresUser(w, t, y, t, x, WithEntry(t, l, p));
    GrownTransitive(v, s, w, t, x, WithEntry(t, l, p));
  }

  lemma GrownIgnoresUser(w: Phys, s: Space, y: Phys, s': Space, x: Phys, t: Space)
    requires s == s' && y.mem == w.mem && y.pt == w.pt
    requires Grown(y, s', x, t)
    ensures Grown(w, s, x, t)
  {
    hide PL.Supply, PL.Shape, PL.Free;
  }

  /** Bit 1 of the segment's access flags: it is writable. */
  predicate Writable(accessFlags: nat) {
    (accessFlags / 2) % 2 == 1
  }

  /** The two stores `*ptep = (pfn << 12) | 0x5` and `*ptep |= 0x2`. */
  method StoredPte(m: Machine, f: nat, i: nat, pfn: nat, write: bool)
    requires m.Valid() && f < |m.mem| && i < ENTRIES
    modifies m`mem
    ensures m.Valid()
    ensures m.Value() == old(m.Value()).(mem := Store(old(m.mem), f, i, Raw(Pte(pfn, if write then 7 else 5))))
  {
    hide PL.Shape, PL.Ledger, Raw, WithWrite, PL.PageList.Value;
    m.StoreWord(f, i, Raw(Pte(pfn, 5)));
    if write {
      RawWrite(pfn);
      StoreTwice(old(m.mem), f, i, Raw(Pte(pfn, 5)), Raw(Pte(pfn, 7)));
      m.StoreWord(f, i, WithWrite(m.mem[f][i]));
    }
  }

  /** `install_ptable` maps the segment's start when the address is 0. */
  function PageAddress(mmStart: nat, address: nat): nat {
    if address == 0 then mmStart else address
  }

  /** `install_ptable`: map one page, to the given frame or to a new one. */
  method InstallPtable(m: Machine, base: nat, mmStart: nat, accessFlags: nat, address: nat, upfn: nat, ghost s: Space)
    returns (r: nat, ghost t: Space)
    requires m.Valid() && Holds(m.Value(), s) && s.root == base
    requires !KernelSide(LeafOf(PageAddress(mmStart, address)))
    requires |PL.Supply(m.pt.Value())| >= Missing(s, LeafOf(PageAddress(mmStart, address)))
    requires upfn < MAX_FRAMES && (upfn == 0 ==> PL.Supply(m.user.Value()) != {})
    modifies m.Objs()
    ensures m.Valid()
    ensures Mapped(old(m.Value()), s, m.Value(), t, LeafOf(PageAddress(mmStart, address)),
      Pte(r, if Writable(accessFlags) then 7 else 5))
    ensures NewTables(s, t, 7)
    ensures upfn != 0 ==> r == upfn && m.user.Value() == old(m.user.Value())
    ensures upfn == 0 ==>
      r == PL.Picked(old(m.user.Value())) && m.user.Value() == PL.Take(old(m.user.Value())) && r < |m.mem|
  {
    hide Holds, PL.Supply, PL.Shape, PL.Ledger, PL.Take, PL.Picked, Grown, Leaves, Huges, PgdIndex, PudIndex;
    hide PmdIndex, PteIndex;
    hide KernelSide, PL.PageList.Value, Writable, WithWrite, Raw, Store, NewTables;
    var va := PageAddress(mmStart, address);
    ghost var l, v := LeafOf(va), m.Value();
    var frame;
    frame, t := WalkForSetup(m, base, va, s);
    ghost var w := m.Value();
    r := upfn;
    if r == 0 {
      r := m.FreshUser();
    }
    StoredPte(m, frame, PteIndex(va), r, Writable(accessFlags));
    ghost var p := Pte(r, if Writable(accessFlags) then 7 else 5);
    MapLast(v, s, w, t, l, frame, m.user.Value(), p);
    PageKeepsTables(s, t, l, p, 7);
    t := WithEntry(t, l, p);
  }

  /** `install_page_table`: map a new user frame at the faulting page. */
  method InstallPageTable(m: Machine, pgd: nat, addr: nat, errorCode: nat, ghost s: Space)
    returns (pfn: nat, ghost t: Space)
    requires m.Valid() && Holds(m.Value(), s) && s.root == pgd
    requires !KernelSide(LeafOf(addr))
    requires |PL.Supply(m.pt.Value())| >= Missing(s, LeafOf(addr)) && m.user.freePages != 0
    modifies m.Objs()
    ensures pfn == PL.Picked(old(m.user.Value())) && m.user.Value() == PL.Take(old(m.user.Value()))
    ensures Mapped(old(m.Value()), s, m.Value().(user := old(m.user.Value())), t, LeafOf(addr),
      Pte(pfn, FaultFlags(errorCode)))
    ensures m.Valid() <==> PL.IsFree(old(m.user.Value()), pfn)
    ensures m.Valid() ==> Mapped(old(m.Value()), s, m.Value(), t, LeafOf(addr), Pte(pfn, FaultFlags(errorCode)))
    ensures NewTables(s, t, FaultFlags(errorCode))
  {
    hide Holds, PL.Supply, PL.Shape, PL.Ledger, PL.Take, PL.Picked, Grown, Leaves, Huges, PgdIndex, PudIndex;
    hide PmdIndex, PteIndex;
    hide KernelSide, PL.PageList.Value, Raw, Store, NewTables, Mapped, PL.IsFree;
    ghost var l, v := LeafOf(addr), m.Value();
    var acFlags := FaultFlags(errorCode);
    var frame;
    frame, t := WalkForFault(m, pgd, addr, acFlags, s);
    ghost var w := m.Value();
    pfn := m.AllocUser();
    PickedFrame(w, pfn);
    MapLast(v, s, w, t, l, frame, w.user, Pte(pfn, acFlags));
    m.StoreWord(frame, PteIndex(addr), Raw(Pte(pfn, acFlags)));
    PageKeepsTables(s, t, l, Pte(pfn, acFlags), acFlags);
    t := WithEntry(t, l, Pte(pfn, acFlags));
    assert m.Value().(user := v.user) == w.(mem := m.mem);
    if m.Valid() {
      MappedUser(v, s, w.(mem := m.mem), m.user.Value(), t, l, Pte(pfn, acFlags));
    }
  }

  lemma PickedFrame(w: Phys, f: nat)
    requires PhysOk(w) && f < |w.mem|
    ensures f < MAX_FRAMES && w.(user := w.user) == w
  {
  }

  lemma MappedUser(v: Phys, s: Space, x: Phys, user: PL.State, t: Space, l: Node, p: Pte)
    requires l.Leaf? && Mapped(v, s, x, t, l, p) && PhysOk(x.(user := user))
    ensures Mapped(v, s, x.(user := user), t, l, p)
  {
    hide PL.Supply, PL.Shape, PL.Ledger, Wf, UserTree, PhysOk, Leaves, Huges, Taken, PathTables, Missing, PL.Free;
  }

  /** `0x5 | (error_code & 0x2)`. */
  function FaultFlags(errorCode: nat): (r: nat)
    ensures r == 5 || r == 7
    ensures UserFlag(Pte(0, r)) && r % 2 == 1 && (WriteFlag(Pte(0, r)) <==> (errorCode / 2) % 2 == 1)
  {
    if (errorCode / 2) % 2 == 1 then 7 else 5
  }

  // ---- Looking up and unmapping one page --------------------------------

  datatype Option<T> = None | Some(value: T)

  /** Where an entry is stored: a frame and an index. */
  datatype EntryPtr = EntryPtr(frame: nat, index: nat)

  /** The pointer is to a page's entry in its last-level table. */
  predicate PointsAt(v: Phys, s: Space, l: Node, e: EntryPtr) {
    && l.Leaf? && IsTable(s, Parent(l)) && l in s.ents
    && e == EntryPtr(FrameOf(s, Parent(l)), Slot(l))
    && e.frame < |v.mem| && e.index < |v.mem[e.frame]|
    && ReadsAs(v.mem[e.frame][e.index], s, l)
  }

  /** `get_user_pte`: on a tree the walk is the map's lookup. */
  method GetUserPte(m: Machine, pgd: nat, addr: nat, ghost s: Space) returns (r: Option<EntryPtr>)
    requires m.Valid() && Holds(m.Value(), s) && s.root == pgd && UserTree(s)
    ensures r.Some? <==> LeafOf(addr) in s.ents
    ensures r.Some? ==> PointsAt(m.Value(), s, LeafOf(addr), r.value)
  {
    hide PhysOk, ReadsAs, PgdIndex, PudIndex, PmdIndex, PteIndex, PL.PageList.Value, UserNodeOk, Shaped;
    ghost var l, v := LeafOf(addr), m.Value();
    if l in s.ents {
      PathOfLeaf(s, l);
    }
    UserStep(v, s, Pud(l.a));
    var entry := m.mem[pgd][PgdIndex(addr)];
    if !Present(entry) || !UserBit(entry) {
      return None;
    }
    UserStep(v, s, Pmd(l.a, l.b));
    var base := PfnField(entry);
    entry := m.mem[base][PudIndex(addr)];
    if !Present(entry) || !UserBit(entry) {
      return None;
    }
    UserStep(v, s, Pt(l.a, l.b, l.c));
    base := PfnField(entry);
    entry := m.mem[base][PmdIndex(addr)];
    if !Present(entry) || !UserBit(entry) || HugeTest(entry) {
      HugeTestNeverFires(entry);
      return None;
    }
    UserStep(v, s, l);
    base := PfnField(entry);
    entry := m.mem[base][PteIndex(addr)];
    if !Present(entry) || !UserBit(entry) {
      return None;
    }
    r := Some(EntryPtr(base, PteIndex(addr)));
  }

  /** One level of the lookup: present with the user bit means there is a table or
      page here, and outside the kernel side the two are the same thing. */
  lemma UserStep(v: Phys, s: Space, n: Node)
    requires Holds(v, s) && UserTree(s) && !n.Pgd? && IsTable(s, Parent(n)) && Slot(n) < ENTRIES
    ensures FrameOf(s, Parent(n)) < |v.mem| && |v.mem[FrameOf(s, Parent(n))]| == ENTRIES
    ensures var e := v.mem[FrameOf(s, Parent(n))][Slot(n)];
      && ReadsAs(e, s, n)
      && (Present(e) && UserBit(e) ==> n in s.ents && (IsTable(s, n) || n.Leaf?) && PfnField(e) == FrameOf(s, n))
      && (n in s.ents && !KernelSide(n) ==> Present(e) && UserBit(e))
  {
    ReadHeld(v, s, n);
    hide Wf, PhysOk, Present, UserBit, PfnField, MaskedFrame, UserFlag;
    assert n in s.ents ==> UserNodeOk(s, n);
  }

  /** One page has been removed and its frame freed; every other page, the 2MB
      entries and all tables stay. */
  ghost predicate Unmapped(v: Phys, s: Space, w: Phys, t: Space, l: Node)
    requires l.Leaf? && l in s.ents
  {
    && Holds(w, t) && Grown(v, s, w, t)
    && t == WithoutEntry(s, l)
    && Leaves(t) == Leaves(s) - {l} && Huges(t) == Huges(s)
    && w.pt == v.pt && w.user == PL.Give(v.user, s.ents[l].pfn)
    && (UserTree(s) ==> UserTree(t))
  }

  lemma UnmapLast(v: Phys, s: Space, l: Node, user: PL.State)
    requires Holds(v, s) && l.Leaf? && l in s.ents && PhysOk(v.(user := user))
    requires user == PL.Give(v.user, s.ents[l].pfn)
    ensures IsTable(s, Parent(l)) && Slot(l) < ENTRIES && FrameOf(s, Parent(l)) < |v.mem|
    ensures Unmapped(v, s, Unhang(v.(user := user), s, l), WithoutEntry(s, l), l)
  {
    hide PL.Supply, PL.Shape, PL.Ledger, Leaves, Huges, Grown, Wf, PL.Give, Store;
    var y := v.(user := user);
    assert Holds(y, s);
    DropHolds(y, s, l);
    WithoutViews(s, l);
    GrownIgnoresUser(v, s, y, s, Unhang(y, s, l), WithoutEntry(s, l));
    forall n | UserTree(s) && n in WithoutEntry(s, l).ents
      ensures UserNodeOk(WithoutEntry(s, l), n)
    {
      assert UserNodeOk(s, n);
    }
  }

  /** `do_unmap_user`: -1 and no change when nothing is mapped there, else the page
      goes and its frame is freed. */
  method DoUnmapUser(m: Machine, pgd: nat, addr: nat, ghost s: Space) returns (r: int, ghost t: Space)
    requires m.Valid() && Holds(m.Value(), s) && s.root == pgd && UserTree(s)
    requires LeafOf(addr) in s.ents ==> Taken(m.user.Value(), s.ents[LeafOf(addr)].pfn)
    modifies m.Objs()
    ensures m.Valid()
    ensures LeafOf(addr) !in s.ents ==> r == -1 && m.Value() == old(m.Value()) && t == s
    ensures LeafOf(addr) in s.ents ==> r == 0 && Unmapped(old(m.Value()), s, m.Value(), t, LeafOf(addr))
  {
    hide Holds, PL.Supply, PL.Shape, PL.Ledger, PL.Give, Taken, Leaves, Huges, PgdIndex, PudIndex, PmdIndex;
    hide PteIndex, KernelSide;
    hide PL.PageList.Value, Raw, Store, Unmapped;
    t := s;
    ghost var l, v := LeafOf(addr), m.Value();
    var pte := GetUserPte(m, pgd, addr, s);
    if pte.None? {
      return -1, t;
    }
    m.FreeUser(PfnField(m.mem[pte.value.frame][pte.value.index]));
    UnmapLast(v, s, l, m.user.Value());
    m.StoreWord(pte.value.frame, pte.value.index, 0);
    t := WithoutEntry(s, l);
    r := 0;
  }
}
