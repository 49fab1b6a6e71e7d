/** An eight-byte store through a page-table tree, at any address and with any rights:
    how `invoke_sync_signal` puts the return address on the user stack. */
module Deposit {
  import opened Integers
  import opened PageTable
  import opened Physical
  import opened Segments
  import opened Walk

  /** The two halves of the 48-bit address space, sign-extended. */
  predicate Canonical(va: nat) {
    va < 0x8000_0000_0000 || 0xFFFF_8000_0000_0000 <= va < U64
  }

  /** Bits 47 to 63 are all alike. */
  lemma CanonicalBits(va: nat)
    requires va < U64
    ensures Canonical(va) <==> va / 0x8000_0000_0000 == 0 || va / 0x8000_0000_0000 == 0x1_FFFF
  {
  }

  /** A word of memory and what is stored there. */
  datatype Write = Write(frame: nat, index: nat, word: nat)

  datatype Outcome = Refused | Writes(ws: seq<Write>)

  function Locate(mem: Mem, root: nat, va: nat, a: Access): Translation {
    if Canonical(va) then Translate(mem, root, LeafOf(va), a) else Fault
  }

  function WordIndex(va: nat): (r: nat)
    ensures r < ENTRIES
  {
    va % 0x1000 / 8
  }

  function ReadWord(mem: Mem, f: nat, k: nat): nat {
    if f < |mem| && k < |mem[f]| then mem[f][k] else 0
  }

  /** 256 to the power of n. */
  function Bytes(n: nat): (r: nat)
    ensures r >= 1
  {
    if n == 0 then 1 else 256 * Bytes(n - 1)
  }

  /** A number n bytes further up. */
  function Shifted(x: nat, n: nat): nat {
    x * Bytes(n)
  }

  /** A number without its n lowest bytes. */
  function Dropped(x: nat, n: nat): nat {
    NotNegative(x, Bytes(n));
    x / Bytes(n)
  }

  /** A word whose bytes from the o-th on are replaced by the low bytes of a value. */
  function HighReplaced(word: nat, value: nat, o: nat): nat
    requires o <= 8
  {
    word % Bytes(o) + Shifted(value % Bytes(8 - o), o)
  }

  /** A word whose first o bytes are replaced by the high bytes of a value. */
  function LowReplaced(word: nat, value: nat, o: nat): nat
    requires o <= 8
  {
    RestBelow(word, Bytes(o));
    word - word % Bytes(o) + Dropped(value, 8 - o)
  }

  lemma Whole(n: nat)
    requires n <= 8
    ensures Bytes(n) * Bytes(8 - n) == U64
  {
    assert Bytes(1) == 0x100 && Bytes(2) == 0x1_0000 && Bytes(3) == 0x100_0000 && Bytes(4) == 0x1_0000_0000;
    assert Bytes(5) == 0x100_0000_0000 && Bytes(6) == 0x1_0000_0000_0000 && Bytes(7) == 0x100_0000_0000_0000;
  }

  lemma Below(v: nat, b: nat, c: nat)
    requires b >= 1 && c >= 1 && b * c == U64 && v < U64
    ensures v / c < b
  {
    Quotient(v, c);
    Multiple(v / c - b, c);
    assert v / c * c - b * c == (v / c - b) * c;
  }

  lemma HighBytes(word: nat, value: nat, o: nat)
    requires o <= 8
    ensures HighReplaced(word, value, o) / Bytes(o) == value % Bytes(8 - o)
    ensures HighReplaced(word, value, o) % Bytes(o) == word % Bytes(o)
  {
    hide Bytes;
    QuotientIs(HighReplaced(word, value, o), Bytes(o), value % Bytes(8 - o), word % Bytes(o));
  }

  lemma LowBytes(word: nat, value: nat, o: nat)
    requires o <= 8 && value < U64
    ensures LowReplaced(word, value, o) / Bytes(o) == word / Bytes(o)
    ensures LowReplaced(word, value, o) % Bytes(o) == value / Bytes(8 - o)
  {
    hide Bytes;
    Whole(o);
    Below(value, Bytes(o), Bytes(8 - o));
    Quotient(word, Bytes(o));
    QuotientIs(LowReplaced(word, value, o), Bytes(o), word / Bytes(o), value / Bytes(8 - o));
  }

  /** The two words of an unaligned store together hold the value, and the bytes around
      it are the old ones. */
  lemma SplitValue(first: nat, second: nat, value: nat, o: nat)
    requires o <= 8 && value < U64
    ensures HighReplaced(first, value, o) / Bytes(o) + LowReplaced(second, value, o) % Bytes(o) * Bytes(8 - o) == value
    ensures HighReplaced(first, value, o) % Bytes(o) == first % Bytes(o)
    ensures LowReplaced(second, value, o) / Bytes(o) == second / Bytes(o)
  {
    hide Bytes, HighReplaced, LowReplaced;
    HighBytes(first, value, o);
    LowBytes(second, value, o);
    Quotient(value, Bytes(8 - o));
  }

  /** What a store of eight bytes does: one word when the address is a multiple of 8,
      else the end of one word and the beginning of the next; all or nothing. */
  function StoreAt(mem: Mem, root: nat, va: nat, value: nat, a: Access): Outcome {
    var first, o := va / 8 * 8, va % 8;
    var p := Locate(mem, root, first, a);
    if p.Fault? then Refused
    else if o == 0 then Writes([Write(p.pfn, WordIndex(first), value)])
    else
      var next := (first + 8) % U64;
      var q := Locate(mem, root, next, a);
      if q.Fault? then Refused
      else
        Writes([Write(p.pfn, WordIndex(first), HighReplaced(ReadWord(mem, p.pfn, WordIndex(first)), value, o)),
                Write(q.pfn, WordIndex(next), LowReplaced(ReadWord(mem, q.pfn, WordIndex(next)), value, o))])
  }

  /** Memory after one write; a frame beyond memory is a device's. */
  function WriteOne(mem: Mem, w: Write): (r: Mem)
    requires MemOk(mem)
    ensures MemOk(r) && |r| == |mem|
  {
    if w.frame < |mem| && w.index < ENTRIES then Store(mem, w.frame, w.index, w.word) else mem
  }

  function Apply(mem: Mem, ws: seq<Write>): (r: Mem)
    requires MemOk(mem)
    ensures MemOk(r) && |r| == |mem|
  {
    if ws == [] then mem else WriteOne(Apply(mem, ws[..|ws| - 1]), ws[|ws| - 1])
  }

  // ---- Which frames change ----------------------------------------------

  /** The writes change nothing in these frames: each goes elsewhere or finds its word
      there already. */
  predicate Spares(mem: Mem, ws: seq<Write>, frames: set<nat>) {
    forall i: nat | i < |ws| && ws[i].frame in frames && ws[i].frame < |mem| ::
      ReadWord(mem, ws[i].frame, ws[i].index) == ws[i].word
  }

  /** No two writes go to the same word, and all indices are those of words. */
  predicate Apart(ws: seq<Write>) {
    && (forall i: nat | i < |ws| :: ws[i].index < ENTRIES)
    && forall i: nat, j: nat | i < j < |ws| :: ws[i].index != ws[j].index
  }

  lemma StoreApart(mem: Mem, root: nat, va: nat, value: nat, a: Access)
    requires StoreAt(mem, root, va, value, a).Writes?
    ensures Apart(StoreAt(mem, root, va, value, a).ws)
  {
    hide Translate, HighReplaced, LowReplaced, ReadWord, WordIndex, LeafOf;
    NextIndex(va / 8);
  }

  /** The next word of the address space has the next index, going round at the end. */
  lemma NextIndex(w: nat)
    requires 8 * w < U64
    ensures WordIndex((8 * w + 8) % U64) == (WordIndex(8 * w) + 1) % 512
  {
    hide WordIndex;
    WordOf(w);
    WordOf(w + 1);
    WordOf(0);
    NextRest(w);
    if 8 * w + 8 < U64 {
      SmallRest(8 * w + 8);
    } else {
      LastWord(w);
    }
  }

  lemma NextRest(w: nat)
    ensures (w + 1) % 512 == (w % 512 + 1) % 512
  {
  }

  lemma LastWord(w: nat)
    requires 8 * w < U64 <= 8 * w + 8
    ensures (8 * w + 8) % U64 == 0 && w % 512 == 511
  {
    assert 8 * w + 8 == U64 && w == 0x1FFF_FFFF_FFFF_FFFF;
  }

  lemma SmallRest(x: nat)
    requires x < U64
    ensures x % U64 == x
  {
  }

  lemma WordOf(w: nat)
    ensures WordIndex(8 * w) == w % 512
  {
    assert 8 * w == 0x1000 * (w / 512) + 8 * (w % 512);
  }

  /** A word after the writes: the one written there, else the old one. */
  lemma {:induction false} Applied(mem: Mem, ws: seq<Write>, f: nat, k: nat)
    requires MemOk(mem) && Apart(ws) && f < |mem| && k < ENTRIES
    ensures forall i: nat | i < |ws| && ws[i].frame == f && ws[i].index == k :: Apply(mem, ws)[f][k] == ws[i].word
    ensures (forall i: nat | i < |ws| :: ws[i].frame != f || ws[i].index != k) ==> Apply(mem, ws)[f][k] == mem[f][k]
  {
    if ws != [] {
      Applied(mem, ws[..|ws| - 1], f, k);
    }
  }

  /** The exact condition under which frames keep their contents. */
  lemma SparedFrames(mem: Mem, ws: seq<Write>, frames: set<nat>)
    requires MemOk(mem) && Apart(ws)
    ensures Spares(mem, ws, frames) <==> forall f | f in frames && f < |mem| :: Apply(mem, ws)[f] == mem[f]
  {
    hide Apply;
    if Spares(mem, ws, frames) {
      forall f | f in frames && f < |mem|
        ensures Apply(mem, ws)[f] == mem[f]
      {
        forall k: nat | k < ENTRIES
          ensures Apply(mem, ws)[f][k] == mem[f][k]
        {
          Applied(mem, ws, f, k);
        }
      }
    }
    forall i: nat | i < |ws| && ws[i].frame in frames && ws[i].frame < |mem|
      ensures Apply(mem, ws)[ws[i].frame][ws[i].index] == ws[i].word
    {
      Applied(mem, ws, ws[i].frame, ws[i].index);
    }
  }

  /** An address is on the page of its leaf. */
  lemma SamePage(va: nat)
    ensures LeafOf(va / 0x1000 * 0x1000) == LeafOf(va)
  {
    Levels(va);
    Levels(va / 0x1000 * 0x1000);
    PageNumber(va / 0x1000);
  }

  /** An aligned store to a word of a page. */
  lemma AlignedStore(mem: Mem, root: nat, page: nat, k: nat, value: nat, a: Access)
    requires k < ENTRIES && page < 0x8_0000_0000
    ensures var t := Translate(mem, root, LeafOf(page * 0x1000), a);
      StoreAt(mem, root, page * 0x1000 + 8 * k, value, a) ==
      if t.Fault? then Refused else Writes([Write(t.pfn, k, value)])
  {
    hide Translate, LeafOf, WordIndex, HighReplaced, LowReplaced, ReadWord;
    AlignedWord(page, k);
    AlignedPage(page, k);
    SamePage(page * 0x1000 + 8 * k);
  }

  lemma AlignedWord(page: nat, k: nat)
    ensures var va := page * 0x1000 + 8 * k; va / 8 * 8 == va && va % 8 == 0
  {
    assert page * 0x1000 + 8 * k == 8 * (page * 0x200 + k);
  }

  lemma AlignedPage(page: nat, k: nat)
    requires k < ENTRIES
    ensures var va := page * 0x1000 + 8 * k; va / 0x1000 == page && WordIndex(va) == k
  {
    QuotientIs(page * 0x1000 + 8 * k, 0x1000, page, 8 * k);
  }

  // ---- Reading back -----------------------------------------------------

  datatype Loaded = Unmapped | Device | Word(value: nat)

  /** The bytes of one word from the o-th on, followed by the first o bytes of the next. */
  function Glued(first: nat, second: nat, o: nat): nat
    requires o <= 8
  {
    Dropped(first, o) + Shifted(second % Bytes(o), 8 - o)
  }

  /** The eight bytes that memory holds at an address, translated as `map` says. */
  function LoadAt(map': Mem, mem: Mem, root: nat, va: nat, a: Access): Loaded {
    var first, o := va / 8 * 8, va % 8;
    var p := Locate(map', root, first, a);
    if p.Fault? then Unmapped
    else if p.pfn >= |mem| then Device
    else if o == 0 then Word(ReadWord(mem, p.pfn, WordIndex(first)))
    else
      var next := (first + 8) % U64;
      var q := Locate(map', root, next, a);
      if q.Fault? then Unmapped
      else if q.pfn >= |mem| then Device
      else
        Word(Glued(ReadWord(mem, p.pfn, WordIndex(first)), ReadWord(mem, q.pfn, WordIndex(next)), o))
  }

  /** What has been stored at an address is read there. */
  lemma ReadBack(mem: Mem, root: nat, va: nat, value: nat, a: Access)
    requires MemOk(mem) && value < U64 && StoreAt(mem, root, va, value, a).Writes?
    ensures var ws := StoreAt(mem, root, va, value, a).ws;
      var got := LoadAt(mem, Apply(mem, ws), root, va, a);
      && got in {Device, Word(value)}
      && ((forall i: nat | i < |ws| :: ws[i].frame < |mem|) ==> got == Word(value))
  {
    hide StoreAt, LoadAt, Apply;
    StoreApart(mem, root, va, value, a);
    WrittenThere(mem, StoreAt(mem, root, va, value, a).ws);
    ReadWords(mem, Apply(mem, StoreAt(mem, root, va, value, a).ws), root, va, value, a);
  }

  /** Reading the words that a store names, when they are there. */
  lemma ReadWords(mem: Mem, mem': Mem, root: nat, va: nat, value: nat, a: Access)
    requires value < U64 && |mem'| == |mem| && StoreAt(mem, root, va, value, a).Writes?
    requires forall i: nat | i < |StoreAt(mem, root, va, value, a).ws| ::
      var w := StoreAt(mem, root, va, value, a).ws[i];
      w.frame < |mem| ==> ReadWord(mem', w.frame, w.index) == w.word
    ensures LoadAt(mem, mem', root, va, a) in {Device, Word(value)}
    ensures (forall i: nat | i < |StoreAt(mem, root, va, value, a).ws| ::
      StoreAt(mem, root, va, value, a).ws[i].frame < |mem|) ==> LoadAt(mem, mem', root, va, a) == Word(value)
  {
    hide Locate, HighReplaced, LowReplaced, WordIndex, Glued, ReadWord;
    var ws := StoreAt(mem, root, va, value, a).ws;
    var p, q := Locate(mem, root, va / 8 * 8, a), Locate(mem, root, (va / 8 * 8 + 8) % U64, a);
    if va % 8 == 0 {
      assert ws[0] == Write(p.pfn, WordIndex(va / 8 * 8), value);
    } else {
      GluedValue(ReadWord(mem, p.pfn, WordIndex(va / 8 * 8)),
        ReadWord(mem, q.pfn, WordIndex((va / 8 * 8 + 8) % U64)), value, va % 8);
      assert ws[0].frame == p.pfn && ws[1].frame == q.pfn;
    }
  }

  lemma WrittenThere(mem: Mem, ws: seq<Write>)
    requires MemOk(mem) && Apart(ws)
    ensures forall i: nat | i < |ws| && ws[i].frame < |mem| ::
      ReadWord(Apply(mem, ws), ws[i].frame, ws[i].index) == ws[i].word
  {
    forall i: nat | i < |ws| && ws[i].frame < |mem|
      ensures ReadWord(Apply(mem, ws), ws[i].frame, ws[i].index) == ws[i].word
    {
      Applied(mem, ws, ws[i].frame, ws[i].index);
    }
  }

  lemma GluedValue(first: nat, second: nat, value: nat, o: nat)
    requires o <= 8 && value < U64
    ensures Glued(HighReplaced(first, value, o), LowReplaced(second, value, o), o) == value
  {
    hide Bytes, HighReplaced, LowReplaced;
    SplitValue(first, second, value, o);
  }

  /** Where the process may write it may read, in the same frame. */
  lemma WriteThenRead(mem: Mem, root: nat, l: Node)
    requires l.Leaf? && Translate(mem, root, l, UserWrite).Frame?
    ensures Translate(mem, root, l, UserRead) == Translate(mem, root, l, UserWrite)
  {
    hide ReadEntry, Base, PageSize, Present, UserBit, WriteBit;
  }

  // ---- Rights -----------------------------------------------------------

  /** What a user access may reach the kernel reaches too, in the same frame. */
  lemma KernelReachesMore(mem: Mem, root: nat, l: Node, a: Access)
    requires l.Leaf? && Translate(mem, root, l, a).Frame?
    ensures Translate(mem, root, l, Kernel) == Translate(mem, root, l, a)
  {
    hide ReadEntry, Base, PageSize, Present, UserBit, WriteBit;
  }

  /** A store that the process could make itself is the same when the kernel makes it. */
  lemma OwnStore(mem: Mem, root: nat, va: nat, value: nat)
    requires StoreAt(mem, root, va, value, UserWrite).Writes?
    ensures StoreAt(mem, root, va, value, Kernel) == StoreAt(mem, root, va, value, UserWrite)
  {
    hide Translate, ReadWord, HighReplaced, LowReplaced, WordIndex, PgdIndex, PudIndex, PmdIndex, PteIndex;
    var first := va / 8 * 8;
    var next := (first + 8) % U64;
    KernelReachesMore(mem, root, LeafOf(first), UserWrite);
    if va % 8 != 0 {
      KernelReachesMore(mem, root, LeafOf(next), UserWrite);
    }
  }

  /** Its frames are those that user writes reach. */
  lemma OwnTargets(mem: Mem, root: nat, va: nat, value: nat, i: nat)
    requires StoreAt(mem, root, va, value, UserWrite).Writes? && i < |StoreAt(mem, root, va, value, UserWrite).ws|
    ensures exists l: Node :: InRange(l) && Translate(mem, root, l, UserWrite)
                           == Frame(StoreAt(mem, root, va, value, UserWrite).ws[i].frame)
  {
    hide Translate, ReadWord, HighReplaced, LowReplaced, WordIndex, Canonical;
    var first := va / 8 * 8;
    assert InRange(LeafOf(first)) && InRange(LeafOf((first + 8) % U64));
  }

  // ---- The code ---------------------------------------------------------

  lemma PhysMem(v: Phys)
    requires PhysOk(v)
    ensures MemOk(v.mem)
  {
  }

  /** The store instruction of the kernel under a tree. */
  method KernelStore(m: Machine, root: nat, va: nat, value: nat) returns (refused: bool)
    requires m.Valid()
    modifies m`mem
    ensures m.Valid()
    ensures refused <==> StoreAt(old(m.mem), root, va, value, Kernel).Refused?
    ensures refused ==> m.Value() == old(m.Value())
    ensures !refused ==> m.Value() == old(m.Value()).(mem :=
      Apply(old(m.mem), StoreAt(old(m.mem), root, va, value, Kernel).ws))
  {
    hide PhysOk, StoreAt;
    PhysMem(m.Value());
    var s := StoreAt(m.mem, root, va, value, Kernel);
    refused := s.Refused?;
    if !refused {
      var i := 0;
      while i < |s.ws|
        invariant i <= |s.ws| && MemOk(old(m.mem)) && m.Valid()
        invariant m.Value() == old(m.Value()).(mem := Apply(old(m.mem), s.ws[..i]))
      {
        var w := s.ws[i];
        assert s.ws[..i + 1][..i] == s.ws[..i];
        if w.frame < |m.mem| && w.index < ENTRIES {
          m.StoreWord(w.frame, w.index, w.word);
        }
        i := i + 1;
      }
      assert s.ws[..|s.ws|] == s.ws;
    }
  }
}
