/** Four-level page-table trees in physical memory (Intel SDM volume 3A,
    section 4.5), and the map from virtual pages to entries that a tree stands
    for. */
module PageTable {

  /** Physical memory: frames of 512 u64 entries. */
  type Mem = seq<seq<nat>>

  const ENTRIES: nat := 512
  const MAX_FRAMES: nat := 0x10_0000

  predicate MemOk(mem: Mem) {
    |mem| <= MAX_FRAMES && forall f: nat | f < |mem| :: |mem[f]| == ENTRIES
  }

  function Store(mem: Mem, f: nat, i: nat, v: nat): (r: Mem)
    requires MemOk(mem) && f < |mem| && i < ENTRIES
    ensures MemOk(r) && |r| == |mem|
    ensures r[f][i] == v
    ensures forall j: nat | j < ENTRIES && j != i :: r[f][j] == mem[f][j]
    ensures forall g: nat | g < |mem| && g != f :: r[g] == mem[g]
  {
    var frame: seq<nat> := mem[f][i := v];
    mem[f := frame]
  }

  lemma StoreTwice(mem: Mem, f: nat, i: nat, u: nat, v: nat)
    requires MemOk(mem) && f < |mem| && i < ENTRIES
    ensures Store(Store(mem, f, i, u), f, i, v) == Store(mem, f, i, v)
  {
    assert mem[f][i := u][i := v] == mem[f][i := v];
  }

  /** A frame after `bzero`. */
  function ZeroFrame(): (r: seq<nat>)
    ensures |r| == ENTRIES && forall i: nat | i < ENTRIES :: r[i] == 0
  {
    seq(ENTRIES, _ => 0)
  }

  // ---- Entries ----------------------------------------------------------

  /** An entry `(pfn << 12) | flags`. */
  datatype Pte = Pte(pfn: nat, flags: nat)

  predicate PteOk(p: Pte) {
    p.flags < 0x1000 && p.flags % 2 == 1 && p.pfn < 0x10_0000_0000_0000
  }

  predicate UserFlag(p: Pte) {
    (p.flags / 4) % 2 == 1
  }

  predicate WriteFlag(p: Pte) {
    (p.flags / 2) % 2 == 1
  }

  function Raw(p: Pte): nat {
    p.pfn * 0x1000 + p.flags
  }

  /** `e & 0x1`. */
  predicate Present(e: nat) {
    e % 2 == 1
  }

  /** `e & 0x4`. */
  predicate UserBit(e: nat) {
    (e / 4) % 2 == 1
  }

  /** `e & 0x2`. */
  predicate WriteBit(e: nat) {
    (e / 2) % 2 == 1
  }

  /** `(e & 0x80) == 1`, the code's test for a huge page. */
  predicate HugeTest(e: nat) {
    ((e / 0x80) % 2) * 0x80 == 1
  }

  /** The masked value is 0 or 0x80, so the test never fires. */
  lemma HugeTestNeverFires(e: nat)
    ensures !HugeTest(e)
  {
  }

  /** `(e >> 12) & 0xFFFFFFFF`. */
  function PfnField(e: nat): nat {
    (e / 0x1000) % 0x1_0000_0000
  }

  /** The frame of `e & FLAG_MASK`. */
  function MaskedFrame(e: nat): nat {
    (e / 0x1000) % 0x4_0000_0000
  }

  /** `e | 0x2`. */
  function WithWrite(e: nat): nat {
    if (e / 2) % 2 == 1 then e else e + 2
  }

  lemma RawSplit(p: Pte)
    requires p.flags < 0x1000
    ensures Raw(p) / 0x1000 == p.pfn && Raw(p) % 0x1000 == p.flags
  {
  }

  lemma RawUserBit(p: Pte)
    ensures UserBit(Raw(p)) <==> UserFlag(p)
  {
    assert Raw(p) / 4 == p.pfn * 0x400 + p.flags / 4;
  }

  lemma RawWriteBit(p: Pte)
    ensures WriteBit(Raw(p)) <==> WriteFlag(p)
  {
    assert Raw(p) / 2 == p.pfn * 0x800 + p.flags / 2;
  }

  /** Reading back the fields of an entry; an entry fits 64 bits. */
  lemma RawFields(p: Pte)
    requires PteOk(p)
    ensures Raw(p) < 0x1_0000_0000_0000_0000
    ensures Raw(p) / 0x1000 == p.pfn && Raw(p) % 0x1000 == p.flags
    ensures Present(Raw(p)) && Raw(p) != 0
    ensures UserBit(Raw(p)) <==> UserFlag(p)
    ensures p.pfn < MAX_FRAMES ==> PfnField(Raw(p)) == p.pfn == MaskedFrame(Raw(p))
  {
    RawSplit(p);
    RawUserBit(p);
    RawPresent(p);
    hide Raw, UserBit, UserFlag, Present;
  }

  lemma RawPresent(p: Pte)
    requires PteOk(p)
    ensures Raw(p) < 0x1_0000_0000_0000_0000
    ensures Present(Raw(p)) && Raw(p) != 0
  {
    hide Present;
    RawOdd(p);
  }

  lemma RawOdd(p: Pte)
    requires p.flags % 2 == 1
    ensures Present(Raw(p))
  {
    assert Raw(p) == 2 * (p.pfn * 0x800) + p.flags;
  }

  lemma ZeroNotPresent()
    ensures !Present(0)
  {
  }

  lemma RawWrite(pfn: nat)
    ensures WithWrite(Raw(Pte(pfn, 5))) == Raw(Pte(pfn, 7))
  {
    assert Raw(Pte(pfn, 5)) / 2 == pfn * 0x800 + 2;
  }

  // ---- Virtual addresses ------------------------------------------------

  function PgdIndex(va: nat): (r: nat) ensures r < ENTRIES { (va / 0x80_0000_0000) % 512 }
  function PudIndex(va: nat): (r: nat) ensures r < ENTRIES { (va / 0x4000_0000) % 512 }
  function PmdIndex(va: nat): (r: nat) ensures r < ENTRIES { (va / 0x20_0000) % 512 }
  function PteIndex(va: nat): (r: nat) ensures r < ENTRIES { (va / 0x1000) % 512 }

  /** A place in a tree: a table of one of the four levels, or a mapped page. On
      the kernel side a Pt node stands for a 2MB entry instead of a table. */
  datatype Node = Pgd | Pud(a: nat) | Pmd(a: nat, b: nat) | Pt(a: nat, b: nat, c: nat)
                | Leaf(a: nat, b: nat, c: nat, d: nat)

  function Level(n: Node): nat {
    match n
    case Pgd => 4
    case Pud(_) => 3
    case Pmd(_, _) => 2
    case Pt(_, _, _) => 1
    case Leaf(_, _, _, _) => 0
  }

  function Child(n: Node, i: nat): Node
    requires !n.Leaf?
  {
    match n
    case Pgd => Pud(i)
    case Pud(a) => Pmd(a, i)
    case Pmd(a, b) => Pt(a, b, i)
    case Pt(a, b, c) => Leaf(a, b, c, i)
  }

  function Parent(n: Node): Node
    requires !n.Pgd?
  {
    match n
    case Pud(a) => Pgd
    case Pmd(a, b) => Pud(a)
    case Pt(a, b, c) => Pmd(a, b)
    case Leaf(a, b, c, d) => Pt(a, b, c)
  }

  function Slot(n: Node): nat
    requires !n.Pgd?
  {
    match n
    case Pud(a) => a
    case Pmd(a, b) => b
    case Pt(a, b, c) => c
    case Leaf(a, b, c, d) => d
  }

  lemma ChildOfParent(n: Node)
    requires !n.Pgd?
    ensures !Parent(n).Leaf? && Child(Parent(n), Slot(n)) == n
  {
  }

  function LeafOf(va: nat): Node {
    Leaf(PgdIndex(va), PudIndex(va), PmdIndex(va), PteIndex(va))
  }

  /** PGD 0 with PUD index below 4: the first 4GB, where the kernel's 2MB
      mappings live. */
  predicate KernelSide(n: Node) {
    !n.Pgd? && !n.Pud? && n.a == 0 && n.b < 4
  }

  predicate Huge(n: Node) {
    n.Pt? && KernelSide(n)
  }

  // ---- Trees ------------------------------------------------------------

  /** A tree: the frame of its PGD, the entry that leads to every other node,
      and, for each frame it uses as a table, the node that frame serves. */
  datatype Space = Space(root: nat, ents: map<Node, Pte>, owner: map<nat, Node>)

  predicate IsTable(s: Space, n: Node) {
    n.Pgd? || (n in s.ents && !n.Leaf? && !Huge(n))
  }

  function FrameOf(s: Space, n: Node): nat
    requires n.Pgd? || n in s.ents
  {
    if n.Pgd? then s.root else s.ents[n].pfn
  }

  predicate NodeOk(s: Space, n: Node)
    requires n in s.ents
  {
    && !n.Pgd?
    && Slot(n) < ENTRIES
    && IsTable(s, Parent(n))
    && (n.Leaf? ==> !KernelSide(n))
    && PteOk(s.ents[n])
    && (IsTable(s, n) ==> s.ents[n].flags < 8)
    && (!Huge(n) ==> s.ents[n].pfn < MAX_FRAMES)
  }

  predicate TableOwned(s: Space, n: Node)
    requires IsTable(s, n)
  {
    FrameOf(s, n) in s.owner && s.owner[FrameOf(s, n)] == n
  }

  predicate OwnerOk(s: Space, f: nat)
    requires f in s.owner
  {
    IsTable(s, s.owner[f]) && FrameOf(s, s.owner[f]) == f
  }

  /** The shape of a tree: parents exist, and every table has a frame of its own. */
  ghost predicate Shaped(s: Space) {
    && (forall n | n in s.ents :: NodeOk(s, n))
    && (forall n | IsTable(s, n) :: TableOwned(s, n))
    && (forall f | f in s.owner :: OwnerOk(s, f))
  }

  function SlotValue(s: Space, n: Node): nat {
    if n in s.ents then Raw(s.ents[n]) else 0
  }

  predicate SlotOk(mem: Mem, s: Space, n: Node, i: nat)
    requires MemOk(mem) && IsTable(s, n) && i < ENTRIES
  {
    !n.Leaf? && FrameOf(s, n) < |mem| && mem[FrameOf(s, n)][i] == SlotValue(s, Child(n, i))
  }

  /** Memory holds the tree: each entry of each table is exactly what the tree says. */
  ghost predicate Wf(mem: Mem, s: Space) {
    && MemOk(mem)
    && Shaped(s)
    && forall n, i: nat | IsTable(s, n) && i < ENTRIES :: SlotOk(mem, s, n, i)
  }

  function Leaves(s: Space): map<Node, Pte> {
    map n | n in s.ents && n.Leaf? :: s.ents[n]
  }

  function Huges(s: Space): map<Node, Pte> {
    map n | n in s.ents && Huge(n) :: s.ents[n]
  }

  predicate UserNodeOk(s: Space, n: Node)
    requires n in s.ents
  {
    if Huge(n) then !UserFlag(s.ents[n]) else KernelSide(n) || UserFlag(s.ents[n])
  }

  /** Every entry outside the kernel side carries the user bit and no 2MB entry does. */
  ghost predicate UserTree(s: Space) {
    forall n | n in s.ents :: UserNodeOk(s, n)
  }

  /** A mapped page hangs under a table of every level. */
  lemma PathOfLeaf(s: Space, l: Node)
    requires Shaped(s) && l.Leaf? && l in s.ents
    ensures IsTable(s, Pud(l.a)) && IsTable(s, Pmd(l.a, l.b)) && IsTable(s, Pt(l.a, l.b, l.c)) && !KernelSide(l)
  {
    assert NodeOk(s, l);
    assert NodeOk(s, Pt(l.a, l.b, l.c));
    assert NodeOk(s, Pmd(l.a, l.b));
  }

  // ---- Edits ------------------------------------------------------------

  function WithTable(s: Space, n: Node, p: Pte): Space {
    s.(ents := s.ents[n := p], owner := s.owner[p.pfn := n])
  }

  function WithEntry(s: Space, n: Node, p: Pte): Space {
    s.(ents := s.ents[n := p])
  }

  function WithoutEntry(s: Space, n: Node): Space {
    s.(ents := s.ents - {n})
  }

  lemma TableShaped(s: Space, n: Node, p: Pte)
    requires Shaped(s) && !n.Pgd? && !n.Leaf? && !Huge(n) && n !in s.ents
    requires IsTable(s, Parent(n)) && Slot(n) < ENTRIES
    requires p.pfn !in s.owner && p.pfn < MAX_FRAMES && p.flags < 8 && p.flags % 2 == 1
    ensures Shaped(WithTable(s, n, p))
  {
    var t := WithTable(s, n, p);
    forall m | m in t.ents
      ensures NodeOk(t, m)
    {
      assert m != n ==> NodeOk(s, m);
    }
    forall m | IsTable(t, m)
      ensures TableOwned(t, m)
    {
      assert m != n ==> IsTable(s, m) && TableOwned(s, m);
    }
    forall f | f in t.owner
      ensures OwnerOk(t, f)
    {
      assert f != p.pfn ==> OwnerOk(s, f);
    }
  }

  lemma FreshHasNoChildren(s: Space, n: Node, i: nat)
    requires Shaped(s) && !n.Leaf? && !n.Pgd? && n !in s.ents
    ensures Child(n, i) !in s.ents
  {
    assert Child(n, i) in s.ents ==> NodeOk(s, Child(n, i));
  }

  /** Storing one slot's value carries memory from one tree to a tree with the
      same tables that differs in that slot only. */
  lemma StoreSlot(mem: Mem, s: Space, t: Space, n: Node)
    requires Wf(mem, s) && Shaped(t) && !n.Pgd? && IsTable(s, Parent(n)) && Slot(n) < ENTRIES
    requires s.root == t.root
    requires forall m | IsTable(t, m) :: IsTable(s, m) && FrameOf(s, m) == FrameOf(t, m)
    requires forall m | m != n :: SlotValue(s, m) == SlotValue(t, m)
    ensures FrameOf(s, Parent(n)) < |mem|
    ensures Wf(Store(mem, FrameOf(s, Parent(n)), Slot(n), SlotValue(t, n)), t)
  {
    assert SlotOk(mem, s, Parent(n), Slot(n));
    var mem' := Store(mem, FrameOf(s, Parent(n)), Slot(n), SlotValue(t, n));
    hide Store, SlotValue, NodeOk, OwnerOk;
    ChildOfParent(n);
    forall m, i: nat | IsTable(t, m) && i < ENTRIES
      ensures SlotOk(mem', t, m, i)
    {
      assert SlotOk(mem, s, m, i);
      assert TableOwned(s, m) && TableOwned(s, Parent(n));
    }
  }

  /** Hanging a fresh zeroed table under a table's empty slot. */
  lemma AddTable(mem: Mem, s: Space, n: Node, p: Pte)
    requires Wf(mem, s) && !n.Pgd? && !n.Leaf? && !Huge(n) && n !in s.ents
    requires IsTable(s, Parent(n)) && Slot(n) < ENTRIES
    requires p.pfn !in s.owner && p.pfn < |mem| && p.flags < 8 && p.flags % 2 == 1
    requires mem[p.pfn] == ZeroFrame()
    ensures FrameOf(s, Parent(n)) < |mem|
    ensures Wf(Store(mem, FrameOf(s, Parent(n)), Slot(n), Raw(p)), WithTable(s, n, p))
  {
    assert SlotOk(mem, s, Parent(n), Slot(n));
    TableShaped(s, n, p);
    var t := WithTable(s, n, p);
    var mem' := Store(mem, FrameOf(s, Parent(n)), Slot(n), Raw(p));
    ChildOfParent(n);
    assert TableOwned(s, Parent(n));
    forall m, i: nat | IsTable(t, m) && i < ENTRIES
      ensures SlotOk(mem', t, m, i)
    {
      hide Store, Raw, NodeOk, OwnerOk, Shaped;
      if m == n {
        FreshHasNoChildren(s, n, i);
      } else {
        assert SlotOk(mem, s, m, i);
        assert TableOwned(s, m);
      }
    }
  }

  lemma TableViews(s: Space, n: Node, p: Pte)
    requires !n.Leaf? && !Huge(n)
    ensures Leaves(WithTable(s, n, p)) == Leaves(s) && Huges(WithTable(s, n, p)) == Huges(s)
  {
  }

  lemma EntryShaped(s: Space, n: Node, p: Pte)
    requires Shaped(s) && (n.Leaf? || Huge(n)) && (n.Leaf? ==> !KernelSide(n))
    requires IsTable(s, Parent(n)) && Slot(n) < ENTRIES
    requires PteOk(p) && (n.Leaf? ==> p.pfn < MAX_FRAMES)
    ensures Shaped(WithEntry(s, n, p))
  {
    var t := WithEntry(s, n, p);
    forall m | m in t.ents
      ensures NodeOk(t, m)
    {
      assert m != n ==> NodeOk(s, m);
    }
    forall m | IsTable(t, m)
      ensures TableOwned(t, m)
    {
      assert IsTable(s, m) && TableOwned(s, m);
    }
    forall f | f in t.owner
      ensures OwnerOk(t, f)
    {
      assert OwnerOk(s, f);
    }
  }

  /** Writing a page entry or a 2MB entry. */
  lemma PutEntry(mem: Mem, s: Space, n: Node, p: Pte)
    requires Wf(mem, s) && (n.Leaf? || Huge(n)) && (n.Leaf? ==> !KernelSide(n))
    requires IsTable(s, Parent(n)) && Slot(n) < ENTRIES
    requires PteOk(p) && (n.Leaf? ==> p.pfn < MAX_FRAMES)
    ensures FrameOf(s, Parent(n)) < |mem|
    ensures Wf(Store(mem, FrameOf(s, Parent(n)), Slot(n), Raw(p)), WithEntry(s, n, p))
  {
    EntryShaped(s, n, p);
    StoreSlot(mem, s, WithEntry(s, n, p), n);
  }

  /** It changes that entry of the map only. */
  lemma EntryViews(s: Space, n: Node, p: Pte)
    ensures n.Leaf? ==> Leaves(WithEntry(s, n, p)) == Leaves(s)[n := p] && Huges(WithEntry(s, n, p)) == Huges(s)
    ensures Huge(n) ==> Leaves(WithEntry(s, n, p)) == Leaves(s) && Huges(WithEntry(s, n, p)) == Huges(s)[n := p]
  {
  }

  lemma WithoutShaped(s: Space, n: Node)
    requires Shaped(s) && n in s.ents && (n.Leaf? || Huge(n))
    ensures Shaped(WithoutEntry(s, n))
  {
    var t := WithoutEntry(s, n);
    forall m | m in t.ents
      ensures NodeOk(t, m)
    {
      assert NodeOk(s, m);
    }
    forall m | IsTable(t, m)
      ensures TableOwned(t, m)
    {
      assert IsTable(s, m) && TableOwned(s, m);
    }
    forall f | f in t.owner
      ensures OwnerOk(t, f)
    {
      assert OwnerOk(s, f);
    }
  }

  /** Clearing a page entry or a 2MB entry. */
  lemma DropEntry(mem: Mem, s: Space, n: Node)
    requires Wf(mem, s) && n in s.ents && (n.Leaf? || Huge(n))
    ensures !n.Pgd? && IsTable(s, Parent(n)) && FrameOf(s, Parent(n)) < |mem| && Slot(n) < ENTRIES
    ensures Wf(Store(mem, FrameOf(s, Parent(n)), Slot(n), 0), WithoutEntry(s, n))
  {
    assert NodeOk(s, n);
    WithoutShaped(s, n);
    StoreSlot(mem, s, WithoutEntry(s, n), n);
  }

  /** It removes that entry from the map and nothing else. */
  lemma WithoutViews(s: Space, n: Node)
    ensures n.Leaf? ==> Leaves(WithoutEntry(s, n)) == Leaves(s) - {n} && Huges(WithoutEntry(s, n)) == Huges(s)
    ensures Huge(n) ==> Leaves(WithoutEntry(s, n)) == Leaves(s) && Huges(WithoutEntry(s, n)) == Huges(s) - {n}
  {
  }

  /** A tree does not depend on frames it does not own. */
  lemma WfFraming(mem: Mem, mem': Mem, s: Space)
    requires Wf(mem, s) && MemOk(mem') && |mem| == |mem'|
    requires forall f | f in s.owner && f < |mem| :: mem'[f] == mem[f]
    ensures Wf(mem', s)
  {
    forall n, i: nat | IsTable(s, n) && i < ENTRIES
      ensures SlotOk(mem', s, n, i)
    {
      assert SlotOk(mem, s, n, i) && TableOwned(s, n);
    }
  }
}
