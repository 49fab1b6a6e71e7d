/** Physical memory together with the page-table and user frame allocators, and
    the primitive operations that the page-table code is made of. */
module Physical {
  import opened PageTable
  import PL = PageList

  const PT_START_PFN: nat := 0x2000
  const USER_START_PFN: nat := 0x6400
  const END_PFN: nat := 0x2_0000

  /** Frames below this one, the first 128MB, are those the kernel can address while a
      process's tree is loaded. */
  const KERNEL_FRAMES: nat := 0x8000

  /** The machine's state as a value. */
  datatype Phys = Phys(mem: Mem, pt: PL.State, user: PL.State)

  /** A region list in good order; its first frame, where the bitmap lives, is taken. */
  predicate ListOk(l: PL.State) {
    PL.Shape(l) && PL.Ledger(l) && 0 < l.start && l.bits[0]
  }

  predicate PhysOk(v: Phys) {
    && MemOk(v.mem)
    && ListOk(v.pt) && ListOk(v.user)
    && v.pt.start + v.pt.size <= v.user.start
    && v.user.start + v.user.size <= |v.mem|
    && v.user.start <= KERNEL_FRAMES && v.user.start + v.user.size <= END_PFN
  }

  /** An allocated frame of a region. */
  predicate Taken(l: PL.State, f: nat) {
    l.start < f < l.start + l.size && !PL.IsFree(l, f)
  }

  /** An allocation takes one frame from the free set and from the scan's reach. */
  lemma TakeFrame(l: PL.State)
    requires PL.Shape(l) && PL.Supply(l) != {}
    ensures PL.Picked(l) in PL.Free(l) && PL.Free(PL.Take(l)) == PL.Free(l) - {PL.Picked(l)}
    ensures PL.Picked(l) < l.start + l.size
    ensures |PL.Supply(PL.Take(l))| == |PL.Supply(l)| - 1
    ensures PL.Take(l).start == l.start && PL.Take(l).size == l.size
  {
    PL.TakeEffect(l);
    hide PL.Supply, PL.Free;
    assert |PL.Supply(l) - {PL.Picked(l)}| == |PL.Supply(l)| - 1;
  }

  /** A release puts back the frame. */
  lemma GiveFrame(l: PL.State, f: nat)
    requires PL.Shape(l) && Taken(l, f)
    ensures PL.Free(PL.Give(l, f)) == PL.Free(l) + {f}
    ensures PL.Give(l, f).start == l.start && PL.Give(l, f).size == l.size
  {
    PL.GiveEffect(l, f);
  }

  /** A tree is held: memory holds it and all its tables are allocated frames. */
  ghost predicate Holds(v: Phys, s: Space) {
    && PhysOk(v)
    && Wf(v.mem, s)
    && forall f | f in s.owner :: Taken(v.pt, f)
  }

  /** What building up a tree may do: memory changes only in frames the tree has
      afterwards, the frames that leave the free set are exactly the ones the tree
      gains, and each of them comes out of the supply. */
  ghost predicate Grown(v: Phys, s: Space, w: Phys, t: Space) {
    && t.root == s.root
    && |w.mem| == |v.mem|
    && (forall f: nat | f < |v.mem| && f !in t.owner :: w.mem[f] == v.mem[f])
    && s.owner.Keys <= t.owner.Keys <= s.owner.Keys + PL.Supply(v.pt)
    && PL.Free(w.pt) == PL.Free(v.pt) - t.owner.Keys
    && PL.Supply(w.pt) == PL.Supply(v.pt) - t.owner.Keys
    && w.pt.start == v.pt.start && w.pt.size == v.pt.size
  }

  lemma HeldShaped(v: Phys, s: Space)
    requires Holds(v, s)
    ensures Shaped(s)
  {
  }

  lemma GrownReflexive(v: Phys, s: Space)
    requires Holds(v, s)
    ensures Grown(v, s, v, s)
  {
    HeldNotFree(v, s);
  }

  lemma GrownTransitive(v: Phys, s: Space, w: Phys, t: Space, x: Phys, u: Space)
    requires Grown(v, s, w, t) && Grown(w, t, x, u)
    ensures Grown(v, s, x, u)
  {
    hide PL.Free, PL.Supply, PL.Shape;
  }

  /** The state after taking the next table frame and zeroing it. */
  function TakeTable(v: Phys): (w: Phys)
    requires PhysOk(v)
    ensures MemOk(w.mem)
  {
    PL.PickedPlace(v.pt);
    v.(pt := PL.Take(v.pt), mem := v.mem[PL.Picked(v.pt) := ZeroFrame()])
  }

  lemma TakeTableOk(v: Phys)
    requires PhysOk(v) && PL.Supply(v.pt) != {}
    ensures PhysOk(TakeTable(v))
    ensures var f, w := PL.Picked(v.pt), TakeTable(v);
      && v.pt.start < f < v.pt.start + v.pt.size && f in PL.Supply(v.pt) && PL.IsFree(v.pt, f) && Taken(w.pt, f)
      && PL.Free(w.pt) == PL.Free(v.pt) - {f} && PL.Supply(w.pt) == PL.Supply(v.pt) - {f}
      && w.pt.start == v.pt.start && w.pt.size == v.pt.size
      && forall g | Taken(v.pt, g) :: Taken(w.pt, g)
  {
    PL.TakeEffect(v.pt);
  }

  lemma HeldNotFree(v: Phys, s: Space)
    requires Holds(v, s)
    ensures s.owner.Keys !! PL.Free(v.pt) && s.owner.Keys !! PL.Supply(v.pt)
  {
    hide Wf;
    forall f | f in s.owner
      ensures f !in PL.Free(v.pt) && f !in PL.Supply(v.pt)
    {
      assert Taken(v.pt, f);
    }
  }

  lemma TakeTableHolds(v: Phys, s: Space)
    requires Holds(v, s) && PL.Supply(v.pt) != {}
    ensures Holds(TakeTable(v), s) && PL.Picked(v.pt) !in s.owner
    ensures PL.Picked(v.pt) < |v.mem|
  {
    TakeTableOk(v);
    hide PL.Take, PL.Free, PL.Supply, PL.Shape, Wf;
    assert !Taken(v.pt, PL.Picked(v.pt));
    WfFraming(v.mem, TakeTable(v).mem, s);
  }

  function Hang(w: Phys, s: Space, n: Node, p: Pte): (x: Phys)
    requires MemOk(w.mem) && !n.Pgd? && IsTable(s, Parent(n)) && Slot(n) < ENTRIES
    requires FrameOf(s, Parent(n)) < |w.mem|
  {
    w.(mem := Store(w.mem, FrameOf(s, Parent(n)), Slot(n), Raw(p)))
  }

  lemma HangTable(w: Phys, s: Space, n: Node, p: Pte)
    requires Holds(w, s) && Taken(w.pt, p.pfn) && p.pfn !in s.owner && p.pfn < |w.mem| && w.mem[p.pfn] == ZeroFrame()
    requires !n.Pgd? && !n.Leaf? && !Huge(n) && n !in s.ents && IsTable(s, Parent(n)) && Slot(n) < ENTRIES
    requires p.flags < 8 && p.flags % 2 == 1
    ensures FrameOf(s, Parent(n)) < |w.mem|
    ensures Holds(Hang(w, s, n, p), WithTable(s, n, p))
  {
    AddTable(w.mem, s, n, p);
    hide Wf, Taken;
    hide PL.Shape, PL.Ledger;
  }

  /** Taking a table frame and hanging it under a free slot grows the tree. */
  lemma GrowTable(v: Phys, s: Space, n: Node, flags: nat)
    requires Holds(v, s) && PL.Supply(v.pt) != {}
    requires !n.Pgd? && !n.Leaf? && !Huge(n) && n !in s.ents && IsTable(s, Parent(n)) && Slot(n) < ENTRIES
    requires flags < 8 && flags % 2 == 1
    ensures FrameOf(s, Parent(n)) < |v.mem|
    ensures var p, w := Pte(PL.Picked(v.pt), flags), TakeTable(v);
      var x, t := Hang(w, s, n, p), WithTable(s, n, p);
      Holds(x, t) && Grown(v, s, x, t) && Leaves(t) == Leaves(s) && Huges(t) == Huges(s)
  {
    hide PL.Take, PL.Free, PL.Supply, PL.Picked, PL.IsFree, PL.Ledger, PL.Shape, Leaves, Huges, Raw, Huge;
    hide NodeOk, SlotOk, OwnerOk;
    var p, w := Pte(PL.Picked(v.pt), flags), TakeTable(v);
    assert TableOwned(s, Parent(n));
    HeldNotFree(v, s);
    TakeTableOk(v);
    TakeTableHolds(v, s);
    HangTable(w, s, n, p);
    TableViews(s, n, p);
  }

  /** Zeroing the frame once more, as the set-up code does, changes nothing. */
  lemma ZeroAgain(v: Phys, s: Space, n: Node, flags: nat)
    requires Holds(v, s) && PL.Supply(v.pt) != {}
    requires !n.Pgd? && IsTable(s, Parent(n)) && Slot(n) < ENTRIES && FrameOf(s, Parent(n)) < |v.mem|
    ensures var f := PL.Picked(v.pt);
      var x := Hang(TakeTable(v), s, n, Pte(f, flags));
      x.(mem := x.mem[f := ZeroFrame()]) == x
  {
    TakeTableHolds(v, s);
    assert TableOwned(s, Parent(n));
    hide PL.Picked, PL.Take, PL.Supply, PL.Shape, PL.Ledger;
    var f := PL.Picked(v.pt);
    var x := Hang(TakeTable(v), s, n, Pte(f, flags));
    assert x.mem[f] == ZeroFrame();
    assert x.mem[f := ZeroFrame()] == x.mem;
  }

  /** Writing a page or a 2MB entry into a held tree. */
  lemma PutHolds(v: Phys, s: Space, n: Node, p: Pte)
    requires Holds(v, s) && (n.Leaf? || Huge(n)) && (n.Leaf? ==> !KernelSide(n))
    requires IsTable(s, Parent(n)) && Slot(n) < ENTRIES
    requires PteOk(p) && (n.Leaf? ==> p.pfn < MAX_FRAMES)
    ensures FrameOf(s, Parent(n)) < |v.mem|
    ensures Holds(Hang(v, s, n, p), WithEntry(s, n, p)) && Grown(v, s, Hang(v, s, n, p), WithEntry(s, n, p))
  {
    hide PL.Free, PL.Supply, PL.IsFree, PL.Ledger, PL.Shape, NodeOk, SlotOk, OwnerOk;
    assert TableOwned(s, Parent(n));
    HeldNotFree(v, s);
    PutEntry(v.mem, s, n, p);
  }

  function Unhang(v: Phys, s: Space, n: Node): (x: Phys)
    requires MemOk(v.mem) && !n.Pgd? && IsTable(s, Parent(n)) && Slot(n) < ENTRIES
    requires FrameOf(s, Parent(n)) < |v.mem|
  {
    v.(mem := Store(v.mem, FrameOf(s, Parent(n)), Slot(n), 0))
  }

  /** Clearing a page or a 2MB entry of a held tree. */
  lemma DropHolds(v: Phys, s: Space, n: Node)
    requires Holds(v, s) && n in s.ents && (n.Leaf? || Huge(n))
    ensures !n.Pgd? && IsTable(s, Parent(n)) && Slot(n) < ENTRIES && FrameOf(s, Parent(n)) < |v.mem|
    ensures Holds(Unhang(v, s, n), WithoutEntry(s, n)) && Grown(v, s, Unhang(v, s, n), WithoutEntry(s, n))
  {
    hide PL.Free, PL.Supply, PL.IsFree, PL.Ledger, PL.Shape, SlotOk, OwnerOk;
    assert NodeOk(s, n);
    assert TableOwned(s, Parent(n));
    HeldNotFree(v, s);
    DropEntry(v.mem, s, n);
  }

  /** What the code reads in a tree's slot: zero, and not present, exactly when the
      tree has nothing there, else the entry's fields. */
  predicate ReadsAs(e: nat, s: Space, n: Node) {
    && e == SlotValue(s, n)
    && (n in s.ents <==> e != 0)
    && (n in s.ents <==> Present(e))
    && (n in s.ents ==> (UserBit(e) <==> UserFlag(s.ents[n])))
    && (n in s.ents && !Huge(n) ==> PfnField(e) == s.ents[n].pfn == MaskedFrame(e) && e / 0x1000 == s.ents[n].pfn)
  }

  lemma ReadHeld(v: Phys, s: Space, n: Node)
    requires Holds(v, s) && !n.Pgd? && IsTable(s, Parent(n)) && Slot(n) < ENTRIES
    ensures FrameOf(s, Parent(n)) < |v.mem|
    ensures |v.mem[FrameOf(s, Parent(n))]| == ENTRIES
    ensures ReadsAs(v.mem[FrameOf(s, Parent(n))][Slot(n)], s, n)
  {
    hide Raw, Present, UserBit, PfnField, MaskedFrame;
    ZeroNotPresent();
    assert SlotOk(v.mem, s, Parent(n), Slot(n));
    ChildOfParent(n);
    if n in s.ents {
      assert NodeOk(s, n);
      RawFields(s.ents[n]);
    }
  }

  lemma ShapeOf(v: Phys)
    requires PhysOk(v)
    ensures PL.Shape(v.pt) && PL.Shape(v.user)
  {
  }

  /** An allocation leaves a list in order exactly when the frame was free. */
  lemma TakenListOk(l: PL.State)
    requires ListOk(l) && l.freePages != 0
    ensures ListOk(PL.Take(l)) <==> PL.IsFree(l, PL.Picked(l))
    ensures PL.Take(l).start == l.start && PL.Take(l).size == l.size
    ensures l.start < PL.Picked(l) < l.start + l.size
  {
    PL.TakeKeepsLedger(l);
    PL.PickedPlace(l);
    hide PL.Free, PL.Ledger, PL.Picked;
  }

  lemma TakenList(v: Phys)
    requires PhysOk(v) && v.pt.freePages != 0
    ensures PL.Shape(v.pt) && PL.Picked(v.pt) < |v.mem|
    ensures PhysOk(TakeTable(v)) <==> PL.IsFree(v.pt, PL.Picked(v.pt))
  {
    hide ListOk;
    ShapeOf(v);
    TakenListOk(v.pt);
    hide PL.Take, PL.Picked, PL.IsFree;
  }

  lemma TakenUser(v: Phys)
    requires PhysOk(v) && v.user.freePages != 0
    ensures PL.Shape(v.user) && 0 < PL.Picked(v.user) < |v.mem|
    ensures PhysOk(v.(user := PL.Take(v.user))) <==> PL.IsFree(v.user, PL.Picked(v.user))
  {
    hide ListOk;
    ShapeOf(v);
    TakenListOk(v.user);
    hide PL.Take, PL.Picked, PL.IsFree;
  }

  /** Physical memory and the two region lists the page-table code allocates from. */
  class Machine {
    var mem: Mem
    const pt: PL.PageList
    const user: PL.PageList

    /** `init_pagelists` for the two regions used here, over whatever the frames hold. */
    constructor (ram: Mem)
      requires MemOk(ram) && END_PFN <= |ram|
      ensures Valid() && fresh(Objs())
      ensures mem == ram
      ensures pt.start == PT_START_PFN && user.start == USER_START_PFN
      ensures pt.size == USER_START_PFN - PT_START_PFN && user.size == END_PFN - USER_START_PFN
      ensures PL.Booted(pt.Value()) && PL.Booted(user.Value())
    {
      hide PL.Booted, PL.Reserve, PL.Free, PL.Supply;
      mem := ram;
      var l1 := new PL.PageList(PT_START_PFN, USER_START_PFN);
      var l2 := new PL.PageList(USER_START_PFN, END_PFN);
      pt := l1;
      user := l2;
    }

    ghost function Objs(): set<object> {
      {this, pt, pt.bitmap, user, user.bitmap}
    }

    function Value(): Phys
      reads Objs()
    {
      Phys(mem, pt.Value(), user.Value())
    }

    ghost predicate Valid()
      reads Objs()
    {
      pt != user && pt.bitmap != user.bitmap && MemOk(mem) && PhysOk(Value())
    }

    /** `*(base + i) = e` for an entry of a frame. */
    method StoreWord(f: nat, i: nat, e: nat)
      requires MemOk(mem) && f < |mem| && i < ENTRIES
      modifies this`mem
      ensures Value() == old(Value()).(mem := Store(old(mem), f, i, e)) && (Valid() <==> old(Valid()))
    {
      hide PL.Shape, PL.Ledger;
      mem := Store(mem, f, i, e);
    }

    /** `bzero` on a frame. */
    method Bzero(f: nat)
      requires MemOk(mem) && f < |mem|
      modifies this`mem
      ensures Value() == old(Value()).(mem := old(mem)[f := ZeroFrame()]) && (Valid() <==> old(Valid()))
    {
      hide PL.Shape, PL.Ledger;
      var i := 0;
      while i < ENTRIES
        invariant i <= ENTRIES
        invariant MemOk(mem) && |mem| == |old(mem)| && (Valid() <==> old(Valid()))
        invariant forall g: nat | g < |mem| && g != f :: mem[g] == old(mem)[g]
        invariant forall j: nat | j < i :: mem[f][j] == 0
      {
        StoreWord(f, i, 0);
        i := i + 1;
      }
      assert mem[f] == ZeroFrame();
      assert mem == old(mem)[f := ZeroFrame()];
    }

    /** `memcpy` of one page between frames. */
    method CopyFrame(dst: nat, src: nat)
      requires Valid() && dst < |mem| && src < |mem| && dst != src
      modifies this`mem
      ensures Valid() && Value() == old(Value()).(mem := old(mem)[dst := old(mem)[src]])
    {
      hide PL.Shape, PL.Ledger;
      var i := 0;
      while i < ENTRIES
        invariant i <= ENTRIES
        invariant Valid() && |mem| == |old(mem)|
        invariant forall g: nat | g < |mem| && g != dst :: mem[g] == old(mem)[g]
        invariant forall j: nat | j < i :: mem[dst][j] == old(mem)[src][j]
      {
        StoreWord(dst, i, mem[src][i]);
        i := i + 1;
      }
      assert mem[dst] == old(mem)[src];
      assert mem == old(mem)[dst := old(mem)[src]];
    }

    /** `os_pfn_alloc(OS_PT_REG)`: frame 0 when none is counted free, else the scan's
        frame, zeroed; the lists stay in order exactly when that frame was free. */
    method AllocTable() returns (f: nat)
      requires Valid()
      modifies this`mem, pt, pt.bitmap
      ensures old(pt.freePages) == 0 ==> f == 0 && Value() == old(Value())
      ensures old(pt.freePages) != 0 ==> f == PL.Picked(old(pt.Value())) && f < |mem|
      ensures old(pt.freePages) != 0 ==> Value() == TakeTable(old(Value()))
      ensures Valid() <==> old(pt.freePages) == 0 || PL.IsFree(old(pt.Value()), PL.Picked(old(pt.Value())))
    {
      hide PL.Shape, PL.Take, PL.Supply, PL.Free, PL.Picked, PL.Ledger, PL.IsFree, Taken, ListOk;
      ghost var v := Value();
      ShapeOf(v);
      var some := pt.freePages != 0;
      if some {
        TakenList(v);
      }
      f := pt.PfnAlloc();
      if some {
        Bzero(f);
      }
    }

    /** The same while a free frame is in supply. */
    method FreshTable() returns (f: nat)
      requires Valid() && PL.Supply(pt.Value()) != {}
      modifies this`mem, pt, pt.bitmap
      ensures Valid() && Value() == TakeTable(old(Value()))
      ensures f == PL.Picked(old(pt.Value())) && f < |mem|
    {
      hide PL.Take, PL.Supply, PL.Free, PL.Picked;
      PL.SupplyCounts(pt.Value());
      hide PL.Shape, PL.Ledger, PL.IsFree;
      f := AllocTable();
    }

    /** `os_pfn_alloc(USER_REG)`, in the same way. */
    method AllocUser() returns (f: nat)
      requires Valid()
      modifies user, user.bitmap
      ensures old(user.freePages) == 0 ==> f == 0 && Value() == old(Value())
      ensures old(user.freePages) != 0 ==> f == PL.Picked(old(user.Value())) && f < |mem| && f != 0
      ensures old(user.freePages) != 0 ==> Value() == old(Value()).(user := PL.Take(old(user.Value())))
      ensures Valid() <==> old(user.freePages) == 0 || PL.IsFree(old(user.Value()), PL.Picked(old(user.Value())))
    {
      hide PL.Shape, PL.Take, PL.Supply, PL.Free, PL.Picked, PL.Ledger, PL.IsFree, Taken, ListOk;
      ghost var v := Value();
      ShapeOf(v);
      if user.freePages != 0 {
        TakenUser(v);
      }
      f := user.PfnAlloc();
    }

    method FreshUser() returns (f: nat)
      requires Valid() && PL.Supply(user.Value()) != {}
      modifies user, user.bitmap
      ensures Valid() && Value() == old(Value()).(user := PL.Take(old(user.Value())))
      ensures f == PL.Picked(old(user.Value())) && f < |mem| && f != 0
    {
      hide PL.Take, PL.Supply, PL.Free, PL.Picked;
      PL.SupplyCounts(user.Value());
      hide PL.Shape, PL.Ledger, PL.IsFree;
      f := AllocUser();
    }

    /** `os_pfn_free(OS_PT_REG, f)`. */
    method FreeTable(f: nat)
      requires Valid() && Taken(pt.Value(), f)
      modifies pt, pt.bitmap
      ensures Valid() && Value() == old(Value()).(pt := PL.Give(old(pt.Value()), f))
    {
      PL.GiveEffect(pt.Value(), f);
      pt.PfnFree(f);
    }

    /** `os_pfn_free(USER_REG, f)`. */
    method FreeUser(f: nat)
      requires Valid() && Taken(user.Value(), f)
      modifies user, user.bitmap
      ensures Valid() && Value() == old(Value()).(user := PL.Give(old(user.Value()), f))
    {
      PL.GiveEffect(user.Value(), f);
      user.PfnFree(f);
    }
  }
}
