/** The bitmap frame allocator: one `page_list` per memory region. */
module PageList {
  import opened Bitmap
  import opened Integers

  /** A byte address in a region fits 32 bits. */
  const MAX_PAGES: nat := 0x10_0000

  /** The value of one `struct page_list`, with the bitmap read as a sequence of
      bits. Frame numbers are absolute: bit i stands for frame start + i. */
  datatype State = State(start: nat, size: nat, bits: seq<bool>, last: nat, freePages: nat)

  predicate Shape(s: State) {
    && 64 <= s.size == |s.bits| < MAX_PAGES
    && s.last <= Window(s)
    && s.freePages < U32
  }

  /** Number of words the scan looks at: `size >> 8`, although the bitmap has
      `size >> 5` words. */
  function Window(s: State): nat {
    s.size / 256
  }

  /** An eighth of the region's words, rounded down. */
  lemma WindowIs(s: State)
    ensures 256 * Window(s) <= s.size < 256 * Window(s) + 256
  {
  }

  predicate FullWordAt(s: State, w: nat)
    requires Shape(s) && 32 * w + 32 <= s.size
  {
    AllSet(s.bits, 32 * w, 32 * w + 32)
  }

  predicate IsFree(s: State, pfn: nat) {
    s.start <= pfn < s.start + |s.bits| && !s.bits[pfn - s.start]
  }

  /** The frames whose bit is clear. */
  function Free(s: State): set<nat> {
    set pfn: nat | s.start <= pfn < s.start + |s.bits| && IsFree(s, pfn)
  }

  lemma FreeMembership(s: State, pfn: nat)
    ensures IsFree(s, pfn) <==> pfn in Free(s)
  {
  }

  /** The clear frames the scan can still reach without wrapping around. */
  function Ahead(s: State): set<nat> {
    set pfn: nat | s.start + 32 * s.last <= pfn < s.start + 32 * Window(s) && IsFree(s, pfn)
  }

  /** The free count agrees with the bitmap. */
  predicate Ledger(s: State) {
    s.freePages == |Free(s)|
  }

  // ---- Counting ---------------------------------------------------------

  predicate Within(lo: nat, hi: nat, i: nat) {
    lo <= i < hi
  }

  function Interval(lo: nat, hi: nat): set<nat> {
    set i: nat | lo <= i < hi && Within(lo, hi, i)
  }

  lemma {:induction false} IntervalSize(lo: nat, hi: nat)
    requires lo <= hi
    ensures |Interval(lo, hi)| == hi - lo
    decreases hi - lo
  {
    if lo < hi {
      IntervalSize(lo, hi - 1);
      forall i: nat
        ensures i in Interval(lo, hi) <==> i in Interval(lo, hi - 1) + {hi - 1}
      {
        assert Within(lo, hi, i) || !Within(lo, hi, i);
      }
      assert Interval(lo, hi) == Interval(lo, hi - 1) + {hi - 1};
    } else {
      assert Interval(lo, hi) == {};
    }
  }

  lemma SubsetSize<T>(a: set<T>, b: set<T>)
    requires a <= b
    ensures |a| <= |b|
  {
    assert b == a + (b - a);
    assert |b| == |a| + |b - a|;
  }

  lemma FreeFits(s: State)
    requires Shape(s)
    ensures |Free(s)| <= s.size
  {
    forall p | p in Free(s)
      ensures p in Interval(s.start, s.start + s.size)
    {
      assert Within(s.start, s.start + s.size, p);
    }
    IntervalSize(s.start, s.start + s.size);
    SubsetSize(Free(s), Interval(s.start, s.start + s.size));
  }

  // ---- Boot -------------------------------------------------------------

  /** `pages_to_reserve`: the pages taken by the bitmap itself. */
  function Reserve(size: nat): nat {
    var bytes := size / 8;
    if bytes / 4096 * 4096 == bytes then bytes / 4096 else bytes / 4096 + 1
  }

  /** The reserved pages hold one bit per page of the region exactly when the
      byte count was not truncated down to a page boundary; for a size that is a
      multiple of 8 they always do, and one page fewer would not. */
  lemma ReserveCoversBitmap(size: nat)
    ensures 8 * 4096 * Reserve(size) >= size <==> size % 8 == 0 || (size / 8) % 4096 != 0
    ensures size % 8 == 0 && size > 0 ==> 8 * 4096 * (Reserve(size) - 1) < size
    ensures Reserve(size) <= size
  {
    var bytes := size / 8;
    assert bytes == bytes / 4096 * 4096 + bytes % 4096;
    assert size == 8 * bytes + size % 8;
  }

  // ---- Allocation -------------------------------------------------------

  /** The lowest clear bit in [lo, hi), or hi. */
  function FirstClear(bits: seq<bool>, lo: nat, hi: nat): (r: nat)
    requires lo <= hi <= |bits|
    ensures lo <= r <= hi
    ensures r < hi ==> !bits[r]
    ensures forall i: nat | lo <= i < r :: bits[i]
    decreases hi - lo
  {
    if lo == hi || !bits[lo] then lo else FirstClear(bits, lo + 1, hi)
  }

  /** The bit taken by `get_free_page`: the lowest clear one of the window, else
      the lowest clear one of word 0, else bit 32. */
  function Pick(s: State): (r: nat)
    requires Shape(s)
    ensures r < s.size
  {
    var r := FirstClear(s.bits, 32 * s.last, 32 * Window(s));
    if r < 32 * Window(s) then r else FirstClear(s.bits, 0, 32)
  }

  function Picked(s: State): nat
    requires Shape(s)
  {
    s.start + Pick(s)
  }

  function Take(s: State): (r: State)
    requires Shape(s)
    ensures Shape(r)
  {
    s.(bits := s.bits[Pick(s) := true],
       last := if FirstClear(s.bits, 32 * s.last, 32 * Window(s)) < 32 * Window(s) then Pick(s) / 32 else 0,
       freePages := (s.freePages + U32 - 1) % U32)
  }

  lemma AheadNonempty(s: State)
    requires Shape(s)
    ensures Ahead(s) != {} <==> FirstClear(s.bits, 32 * s.last, 32 * Window(s)) < 32 * Window(s)
  {
    var r := FirstClear(s.bits, 32 * s.last, 32 * Window(s));
    if r < 32 * Window(s) {
      assert IsFree(s, s.start + r);
      assert s.start + r in Ahead(s);
    }
  }

  /** Characterisation: which frame is taken, and exactly when it was free. The
      third case is the one where the scan has wrapped onto a full word 0: it
      yields bit 32 whether or not that bit is taken. */
  lemma TakeCharacterised(s: State)
    requires Shape(s)
    ensures Ahead(s) != {} ==> Picked(s) in Ahead(s) && forall q | q in Ahead(s) :: Picked(s) <= q
    ensures Ahead(s) == {} && !FullWordAt(s, 0) ==>
      IsFree(s, Picked(s)) && Pick(s) < 32 && forall q: nat | IsFree(s, q) :: Picked(s) <= q
    ensures Ahead(s) == {} && FullWordAt(s, 0) ==> Pick(s) == 32
    ensures IsFree(s, Picked(s)) <==> Ahead(s) != {} || !FullWordAt(s, 0) || !s.bits[32]
  {
    AheadNonempty(s);
    var r := FirstClear(s.bits, 0, 32);
    if Ahead(s) == {} && !FullWordAt(s, 0) {
      assert r < 32;
    }
  }

  /** The frame handed out is in the region and not its first one, which is taken. */
  lemma PickedPlace(s: State)
    requires Shape(s) && s.bits[0]
    ensures s.start < Picked(s) < s.start + s.size
  {
  }

  /** While any frame is counted free the ledger survives an allocation if and only if
      the frame handed out was free. */
  lemma TakeKeepsLedger(s: State)
    requires Shape(s) && Ledger(s) && s.freePages != 0
    ensures Ledger(Take(s)) <==> IsFree(s, Picked(s))
  {
    hide Window, FirstClear;
    if IsFree(s, Picked(s)) {
      TakeCounts(s);
    } else {
      assert Take(s).bits == s.bits;
      SameBitsFree(s, Take(s));
    }
  }

  lemma SameBitsFree(s: State, t: State)
    requires s.bits == t.bits && s.start == t.start
    ensures Free(t) == Free(s)
  {
  }

  /** A successful allocation removes one frame from the free set and, inside the
      window, from the reachable set; the ledger is kept. */
  lemma AheadEffect(s: State)
    requires Shape(s) && Ahead(s) != {}
    ensures Picked(s) in Ahead(s) && Picked(s) in Free(s)
    ensures Ahead(Take(s)) == Ahead(s) - {Picked(s)}
    ensures Free(Take(s)) == Free(s) - {Picked(s)}
    ensures Ledger(s) ==> s.freePages > 0 && Ledger(Take(s))
  {
    hide Free, Ledger;
    TakeCharacterised(s);
    TakeCounts(s);
    LedgerSome(s);
    TakeAhead(s);
  }

  lemma LedgerSome(s: State)
    requires Shape(s) && Picked(s) in Free(s)
    ensures Ledger(s) ==> s.freePages > 0
  {
    hide Free, Picked;
  }

  /** What the scan can reach afterwards: all that was left of the window. */
  lemma TakeAhead(s: State)
    requires Shape(s) && Ahead(s) != {} && Picked(s) in Ahead(s)
    requires forall q | q in Ahead(s) :: Picked(s) <= q
    ensures Ahead(Take(s)) == Ahead(s) - {Picked(s)}
  {
    AheadNonempty(s);
    var t := Take(s);
    assert 32 * t.last <= Pick(s) < 32 * t.last + 32;
    hide FirstClear;
    assert Ahead(t) == Ahead(s) - {Picked(s)};
  }

  // ---- The supply -------------------------------------------------------

  /** The scan, when it has gone round, still has a free frame to come to. */
  predicate CanWrap(s: State) {
    |s.bits| > 32 && (!AllSet(s.bits, 0, 32) || !s.bits[32])
  }

  function Span(s: State): nat {
    if Window(s) < 2 then 33 else 32 * Window(s)
  }

  function Spanned(s: State): set<nat> {
    set pfn: nat | s.start <= pfn < s.start + Span(s) && IsFree(s, pfn)
  }

  /** The frames that successive allocations hand out before one hands out a frame that
      is taken: all clear ones of the window while the scan can go round, else those that
      are still ahead. */
  function Supply(s: State): set<nat> {
    if CanWrap(s) then Spanned(s) else Ahead(s)
  }

  lemma SupplyIsFree(s: State)
    ensures Supply(s) <= Free(s)
  {
  }

  lemma AheadInSupply(s: State)
    ensures Ahead(s) <= Supply(s)
  {
  }

  /** The supply is exact: it lasts if and only if the next frame is free. */
  lemma SupplyServes(s: State)
    requires Shape(s)
    ensures Supply(s) != {} <==> IsFree(s, Picked(s))
    ensures Supply(s) != {} ==> Picked(s) in Supply(s)
  {
    TakeCharacterised(s);
    hide FirstClear;
    if CanWrap(s) {
      InSpan(s);
    }
  }

  /** A clear bit of word 0, or bit 32, is within the span. */
  lemma InSpan(s: State)
    requires Shape(s) && CanWrap(s)
    ensures Picked(s) in Spanned(s)
  {
    TakeCharacterised(s);
    PickInSpan(s);
    hide FirstClear, Ahead;
  }

  lemma PickInSpan(s: State)
    requires Shape(s)
    ensures Pick(s) < Span(s)
  {
  }

  /** An allocation takes its frame from the supply and leaves the rest of it. */
  lemma TakeSupply(s: State)
    requires Shape(s) && Supply(s) != {}
    ensures Supply(Take(s)) == Supply(s) - {Picked(s)}
  {
    SupplyServes(s);
    var t := Take(s);
    if CanWrap(s) {
      TakeSpanned(s);
      if !CanWrap(t) {
        LastOfWord(s);
        AheadIsSpan(t);
      }
    } else {
      TakeCharacterised(s);
      StillFull(s);
      TakeAhead(s);
    }
  }

  lemma TakeSpanned(s: State)
    requires Shape(s)
    ensures Spanned(Take(s)) == Spanned(s) - {Picked(s)}
  {
    hide FirstClear;
    forall q: nat
      ensures IsFree(Take(s), q) <==> IsFree(s, q) && q != Picked(s)
    {
    }
  }

  lemma StillFull(s: State)
    requires Shape(s) && !CanWrap(s)
    ensures !CanWrap(Take(s))
  {
    hide FirstClear;
  }

  /** The scan can no longer go round after it has taken the last clear bit of word 0, or
      bit 32: then it stands there, with all the window ahead. */
  lemma LastOfWord(s: State)
    requires Shape(s) && CanWrap(s) && !CanWrap(Take(s))
    ensures Take(s).last <= 1
  {
    HighPick(s);
    LowPick(s);
  }

  lemma HighPick(s: State)
    requires Shape(s)
    ensures Pick(s) > 32 ==> (CanWrap(Take(s)) <==> CanWrap(s))
  {
    if Pick(s) > 32 {
      LowBits(s, Take(s));
    }
  }

  lemma LowBits(s: State, t: State)
    requires |s.bits| == |t.bits| > 32 && forall i: nat | i <= 32 :: t.bits[i] == s.bits[i]
    ensures CanWrap(t) <==> CanWrap(s)
  {
    assert AllSet(t.bits, 0, 32) <==> AllSet(s.bits, 0, 32);
  }

  lemma LowPick(s: State)
    requires Shape(s)
    ensures Pick(s) <= 32 ==> Take(s).last <= 1
  {
  }

  lemma AheadIsSpan(t: State)
    requires Shape(t) && !CanWrap(t) && t.last <= 1
    ensures Ahead(t) == Spanned(t)
  {
    forall q: nat
      ensures q in Ahead(t) <==> q in Spanned(t)
    {
    }
  }

  /** A successful allocation removes one frame from the free set and from the supply;
      the ledger is kept. */
  lemma TakeEffect(s: State)
    requires Shape(s) && Supply(s) != {}
    ensures Picked(s) in Supply(s) && Picked(s) in Free(s)
    ensures Supply(Take(s)) == Supply(s) - {Picked(s)}
    ensures Free(Take(s)) == Free(s) - {Picked(s)}
    ensures Ledger(s) ==> s.freePages > 0 && Ledger(Take(s))
  {
    hide Free, Ledger, Supply;
    SupplyServes(s);
    TakeCounts(s);
    LedgerSome(s);
    TakeSupply(s);
  }

  /** The n allocations that follow hand out free frames, every one of them. */
  predicate Served(s: State, n: nat)
    requires Shape(s)
    decreases n
  {
    n == 0 || (IsFree(s, Picked(s)) && Served(Take(s), n - 1))
  }

  /** The size of the supply is exactly how long allocations hand out free frames. */
  lemma {:induction false} SupplyLasts(s: State, n: nat)
    requires Shape(s)
    ensures Served(s, n) <==> n <= |Supply(s)|
    decreases n
  {
    hide Supply, Take, Picked, IsFree;
    if n > 0 {
      SupplyServes(s);
      if Supply(s) != {} {
        TakeSupply(s);
        SupplyLasts(Take(s), n - 1);
      }
    }
  }

  /** While something is in supply, the next frame is free and some frame is counted. */
  lemma SupplyCounts(s: State)
    requires Shape(s) && Ledger(s) && Supply(s) != {}
    ensures IsFree(s, Picked(s)) && s.freePages != 0
  {
    TakeEffect(s);
    FreeMembership(s, Picked(s));
  }

  // ---- Release ----------------------------------------------------------

  /** `os_page_free`'s range test: frame `start` itself is refused. */
  predicate Releasable(s: State, pfn: nat) {
    s.start < pfn < s.start + s.size
  }

  function Give(s: State, pfn: nat): (r: State)
    ensures Shape(s) ==> Shape(r)
  {
    if Releasable(s, pfn) && pfn - s.start < |s.bits| then
      s.(bits := s.bits[pfn - s.start := false], freePages := (s.freePages + 1) % U32)
    else s
  }

  lemma GiveSets(s: State, pfn: nat)
    requires Shape(s) && Releasable(s, pfn)
    ensures Free(Give(s, pfn)) == Free(s) + {pfn}
    ensures Ahead(s) <= Ahead(Give(s, pfn)) <= Ahead(s) + {pfn}
  {
  }

  /** A release in range puts the frame back; the count keeps agreeing with the
      bitmap if and only if the frame was held, since a repeated release is
      counted again. */
  lemma GiveEffect(s: State, pfn: nat)
    requires Shape(s) && Releasable(s, pfn)
    ensures Free(Give(s, pfn)) == Free(s) + {pfn}
    ensures Ahead(s) <= Ahead(Give(s, pfn)) <= Ahead(s) + {pfn}
    ensures Ledger(s) ==> (Ledger(Give(s, pfn)) <==> pfn !in Free(s))
  {
    hide Free, Ahead;
    GiveSets(s, pfn);
    FreeFits(s);
    assert pfn !in Free(s) ==> |Free(s) + {pfn}| == |Free(s)| + 1;
    assert pfn in Free(s) ==> Free(s) + {pfn} == Free(s);
  }

  /** Taking a frame and releasing it restores every bit and the count. */
  lemma TakeGiveRoundTrip(s: State)
    requires Shape(s) && IsFree(s, Picked(s)) && s.freePages > 0
    requires Releasable(s, Picked(s))
    ensures Give(Take(s), Picked(s)) == s.(last := Take(s).last)
  {
    TakeCharacterised(s);
    var t := Give(Take(s), Picked(s));
    assert t.bits == s.bits;
  }

  /** The free set determines the bits. */
  lemma FreeDeterminesBits(s: State, t: State)
    requires Shape(s) && Shape(t) && s.start == t.start && s.size == t.size
    requires Free(s) == Free(t)
    ensures s.bits == t.bits
  {
    forall i: nat | i < |s.bits|
      ensures s.bits[i] == t.bits[i]
    {
      assert IsFree(s, s.start + i) <==> s.start + i in Free(s);
      assert IsFree(t, s.start + i) <==> s.start + i in Free(t);
    }
  }

  // ---- Contiguity -------------------------------------------------------

  /** The n frames from `pfn` on are clear and inside the scan window. */
  predicate ClearRun(s: State, pfn: nat, n: nat) {
    forall q: nat | pfn <= q < pfn + n :: q in Ahead(s)
  }

  function TakeN(s: State, n: nat): (r: State)
    requires Shape(s)
    ensures Shape(r)
  {
    if n == 0 then s else Take(TakeN(s, n - 1))
  }

  lemma PickedFrom(s: State, pfn: nat)
    requires Shape(s) && pfn in Ahead(s) && forall q | q in Ahead(s) :: pfn <= q
    ensures Picked(s) == pfn
  {
    TakeCharacterised(s);
  }

  /** If the n bits from the next one on are clear, n allocations in a row take
      exactly those n frames, in order. */
  lemma {:induction false} ConsecutiveTakes(s: State, n: nat, k: nat)
    requires Shape(s) && k < n
    requires ClearRun(s, Picked(s), n)
    ensures Picked(TakeN(s, k)) == Picked(s) + k
    ensures forall q: nat :: q in Ahead(TakeN(s, k)) <==> q in Ahead(s) && Picked(s) + k <= q
  {
    hide Ahead, Take, Picked;
    assert Picked(s) + k in Ahead(s);
    TakeCharacterised(s);
    if k > 0 {
      ConsecutiveTakes(s, n, k - 1);
      var p := TakeN(s, k - 1);
      assert Picked(s) + (k - 1) in Ahead(s);
      assert Picked(p) in Ahead(p);
      AheadEffect(p);
      PickedFrom(TakeN(s, k), Picked(s) + k);
    }
  }

  /** Those n allocations take exactly those n frames out of the free set, one by one. */
  lemma {:induction false} TakenFree(s: State, n: nat, k: nat)
    requires Shape(s) && ClearRun(s, Picked(s), n) && k <= n && Ledger(s)
    ensures forall q: nat :: IsFree(TakeN(s, k), q) <==> IsFree(s, q) && !Within(Picked(s), Picked(s) + k, q)
    ensures Ledger(TakeN(s, k)) && TakeN(s, k).freePages + k == s.freePages
    ensures TakeN(s, k).start == s.start && TakeN(s, k).size == s.size
  {
    hide Picked, Take, ClearRun, Shape, Free, Ahead, IsFree, Ledger;
    if k > 0 {
      TakenFree(s, n, k - 1);
      ConsecutiveTakes(s, n, k - 1);
      RunMember(s, n, k - 1);
      OneTaken(TakeN(s, k - 1));
    }
  }

  lemma RunMember(s: State, n: nat, k: nat)
    requires Shape(s) && ClearRun(s, Picked(s), n) && k < n
    ensures Picked(s) + k in Ahead(s)
  {
  }

  lemma OneTaken(s: State)
    requires Shape(s) && Picked(s) in Ahead(s) && Ledger(s)
    ensures forall q: nat :: IsFree(Take(s), q) <==> IsFree(s, q) && q != Picked(s)
    ensures Ledger(Take(s)) && Take(s).freePages + 1 == s.freePages
    ensures Take(s).start == s.start && Take(s).size == s.size
  {
    AheadEffect(s);
    assert Free(Take(s)) == Free(s) - {Picked(s)};
    forall q: nat
      ensures IsFree(Take(s), q) <==> IsFree(s, q) && q != Picked(s)
    {
      FreeMembership(s, q);
      FreeMembership(Take(s), q);
    }
    hide Shape, Ahead;
    assert |Free(Take(s))| == |Free(s)| - 1;
  }

  /** The failure of the third case at an input every boot leads to: after one allocation
      for each frame of the window the next one hands out frame 32 of the region, which is
      held, although seven eighths of the region are still counted as free. */
  lemma WindowExhausted(s: State)
    requires Shape(s) && Booted(s) && Ledger(s) && Window(s) >= 2 && Reserve(s.size) < 32 * Window(s)
    ensures var t := TakeN(s, 32 * Window(s) - Reserve(s.size));
      && Picked(t) == s.start + 32 && !IsFree(t, Picked(t))
      && t.freePages == s.size - 32 * Window(s) && t.freePages >= 7 * (32 * Window(s))
  {
    hide TakeN, Take, Reserve, Ahead, ClearRun, Ledger, Free, Picked, IsFree, Booted, Shape;
    var n := 32 * Window(s) - Reserve(s.size);
    BootReach(s, n);
    TakenFree(s, n, n);
    BootCount(s);
    hide Window;
    NoneLeft(s, TakeN(s, n), n);
    AllTaken(TakeN(s, n));
  }

  lemma BootCount(s: State)
    requires Shape(s) && Booted(s)
    ensures s.freePages == s.size - Reserve(s.size) && s.size >= 8 * (32 * Window(s))
  {
    hide Reserve;
  }

  /** The reserved frames and a run from the first other one on fill the window. */
  lemma NoneLeft(s: State, t: State, n: nat)
    requires Shape(s) && Shape(t) && Booted(s) && t.start == s.start && t.size == s.size
    requires n + Reserve(s.size) == 32 * Window(s) && Picked(s) == s.start + Reserve(s.size)
    requires forall q: nat :: IsFree(t, q) <==> IsFree(s, q) && !Within(Picked(s), Picked(s) + n, q)
    ensures Window(t) == Window(s) && forall i: nat | i < 32 * Window(t) :: t.bits[i]
  {
    hide Reserve, Picked;
    forall i: nat | i < 32 * Window(s)
      ensures t.bits[i]
    {
      assert IsFree(t, s.start + i) <==> IsFree(s, s.start + i) && !Within(Picked(s), Picked(s) + n, s.start + i);
    }
  }

  lemma AllTaken(t: State)
    requires Shape(t) && Window(t) >= 2 && forall i: nat | i < 32 * Window(t) :: t.bits[i]
    ensures Picked(t) == t.start + 32 && !IsFree(t, Picked(t))
  {
    var r := FirstClear(t.bits, 32 * t.last, 32 * Window(t));
    assert r == 32 * Window(t);
    assert FirstClear(t.bits, 0, 32) == 32;
  }

  // ---- Runs -------------------------------------------------------------

  datatype Event = Alloc | Release(pfn: nat)

  /** An allocator with the frames its callers hold, counted with multiplicity. */
  datatype Ward = Ward(s: State, held: multiset<nat>)

  predicate Enabled(w: Ward, e: Event)
    requires Shape(w.s)
  {
    match e
    case Alloc => IsFree(w.s, Picked(w.s))
    case Release(pfn) => pfn in w.held
  }

  function Step(w: Ward, e: Event): (r: Ward)
    requires Shape(w.s) && Enabled(w, e)
    ensures Shape(r.s)
  {
    match e
    case Alloc => Ward(Take(w.s), w.held + multiset{Picked(w.s)})
    case Release(pfn) => Ward(Give(w.s, pfn), w.held - multiset{pfn})
  }

  ghost predicate ReservedHeld(s: State)
    requires Shape(s)
  {
    1 <= Reserve(s.size) <= s.size && forall i: nat | i < Reserve(s.size) :: s.bits[i]
  }

  /** Every held frame is held once, lies above the reserved pages and is not
      free; the reserved pages are not free either; the count is right. */
  ghost predicate WardOk(w: Ward) {
    && Shape(w.s)
    && Ledger(w.s)
    && ReservedHeld(w.s)
    && forall q | q in w.held ::
         && w.held[q] == 1
         && w.s.start + Reserve(w.s.size) <= q < w.s.start + w.s.size
         && !IsFree(w.s, q)
  }

  lemma AllocKeepsWard(w: Ward)
    requires WardOk(w) && Enabled(w, Alloc)
    ensures WardOk(Step(w, Alloc))
  {
    hide Reserve, Free;
    TakeCounts(w.s);
    assert Picked(w.s) !in w.held;
  }

  /** Taking a free frame, wherever the scan finds it. */
  lemma TakeCounts(s: State)
    requires Shape(s) && IsFree(s, Picked(s))
    ensures Free(Take(s)) == Free(s) - {Picked(s)} && Picked(s) in Free(s)
    ensures Ledger(s) ==> Ledger(Take(s))
  {
    hide Window, FirstClear, Reserve;
    FreeFits(s);
    forall q: nat
      ensures IsFree(Take(s), q) <==> IsFree(s, q) && q != Picked(s)
    {
    }
    assert Free(Take(s)) == Free(s) - {Picked(s)};
    assert |Free(Take(s))| == |Free(s)| - 1;
  }

  lemma ReleaseKeepsWard(w: Ward, pfn: nat)
    requires WardOk(w) && Enabled(w, Release(pfn))
    ensures WardOk(Step(w, Release(pfn)))
  {
    hide Reserve;
    hide Window; hide Ahead;
    GiveEffect(w.s, pfn);
    var r := Step(w, Release(pfn));
    assert pfn !in Free(w.s);
    forall q | q in r.held
      ensures r.held[q] == 1 && q in w.held && q != pfn
    {
      assert w.held[q] == 1;
    }
  }

  predicate EnabledRun(w: Ward, run: seq<Event>)
    requires Shape(w.s)
    decreases |run|
  {
    run == [] || (Enabled(w, run[0]) && EnabledRun(Step(w, run[0]), run[1..]))
  }

  function Run(w: Ward, run: seq<Event>): (r: Ward)
    requires Shape(w.s) && EnabledRun(w, run)
    decreases |run|
  {
    if run == [] then w else Run(Step(w, run[0]), run[1..])
  }

  /** Over every run of successful allocations and releases of held frames the
      count equals the number of clear bits, no frame is held twice, no held frame
      is free, and the pages under the bitmap are never handed out. */
  lemma {:induction false} RunKeepsWard(w: Ward, run: seq<Event>)
    requires WardOk(w) && EnabledRun(w, run)
    ensures WardOk(Run(w, run))
    decreases |run|
  {
    if run != [] {
      match run[0] {
        case Alloc => AllocKeepsWard(w);
        case Release(pfn) => ReleaseKeepsWard(w, pfn);
      }
      RunKeepsWard(Step(w, run[0]), run[1..]);
    }
  }

  // ---- The allocator object --------------------------------------------

  class PageList {
    const start: nat
    const size: nat
    const bitmap: array<bv32>
    var lastFreePos: nat
    var freePages: nat

    function Value(): State
      reads this, bitmap
    {
      State(start, size, Bits(bitmap[..]), lastFreePos, freePages)
    }

    /** `init_pagelist` on a bitmap that is all zero. */
    constructor (startPfn: nat, endPfn: nat)
      requires startPfn <= endPfn && (endPfn - startPfn) % 32 == 0
      requires 64 <= endPfn - startPfn < MAX_PAGES
      ensures fresh(bitmap)
      ensures start == startPfn && size == endPfn - startPfn
      ensures WardOk(Ward(Value(), multiset{}))
      ensures Booted(Value())
    {
      start := startPfn;
      size := endPfn - startPfn;
      bitmap := new bv32[(endPfn - startPfn) / 32](_ => 0);
      var reserve := Reserve(endPfn - startPfn);
      lastFreePos := reserve / 32;
      freePages := endPfn - startPfn - reserve;
      new;
      ReserveCoversBitmap(size);
      hide IsSet, SetBit, Bit, SetAt, FirstClear, Reserve;
      WholeWords(size);
      ZeroBits(bitmap[..]);
      var i := 0;
      while i < reserve
        invariant i <= reserve
        invariant lastFreePos == reserve / 32 && freePages == size - reserve
        invariant BootBits(Bits(bitmap[..]), i)
      {
        ghost var bits := Bits(bitmap[..]);
        BitmapSet(i);
        assert Bits(bitmap[..]) == bits[i := true];
        i := i + 1;
      }
      assert BootBits(Value().bits, reserve);
      BootWard(Value());
    }

    /** `pgl_bmap_set`. */
    method BitmapSet(i: nat)
      requires i < 32 * bitmap.Length
      modifies bitmap
      ensures bitmap[..] == SetAt(old(bitmap[..]), i)
      ensures Bits(bitmap[..]) == old(Bits(bitmap[..]))[i := true]
    {
      UpdatedBits(bitmap[..], i);
      var word := i / 32;
      var bit := i - word * 32;
      bitmap[word] := SetBit(bitmap[word], bit);
      assert bitmap[..] == SetAt(old(bitmap[..]), i);
    }

    /** `pgl_bmap_clear`. */
    method BitmapClear(i: nat)
      requires i < 32 * bitmap.Length
      modifies bitmap
      ensures bitmap[..] == ClearAt(old(bitmap[..]), i)
      ensures Bits(bitmap[..]) == old(Bits(bitmap[..]))[i := false]
    {
      UpdatedBits(bitmap[..], i);
      var word := i / 32;
      var bit := i - word * 32;
      bitmap[word] := ClearBit(bitmap[word], bit);
      assert bitmap[..] == ClearAt(old(bitmap[..]), i);
    }

    /** First half of `get_free_page`: advance to a word with a clear bit inside
        the window, else go back to word 0 whatever it holds. */
    method SeekWord()
      requires Shape(Value())
      modifies this`lastFreePos
      ensures lastFreePos <= size / 256
      ensures lastFreePos == Take(old(Value())).last
      ensures FirstClear(old(Value()).bits, 32 * old(lastFreePos), 32 * (size / 256)) < 32 * (size / 256)
        ==> (bitmap[lastFreePos] != FULL_WORD && old(lastFreePos) <= lastFreePos < size / 256
             && AllSet(old(Value()).bits, 32 * old(lastFreePos), 32 * lastFreePos))
    {
      ghost var before, ws := Value(), bitmap[..];
      var sizeInWords := size / 256;
      while bitmap[lastFreePos] == FULL_WORD && lastFreePos < sizeInWords
        invariant before.last <= lastFreePos <= sizeInWords
        invariant AllSet(before.bits, 32 * before.last, 32 * lastFreePos)
        decreases sizeInWords - lastFreePos
      {
        WordBits(ws, lastFreePos);
        lastFreePos := lastFreePos + 1;
      }
      WordBits(ws, lastFreePos);
      StoppedWord(before, lastFreePos);
      if lastFreePos >= sizeInWords {
        lastFreePos := 0;
      }
    }

    /** `get_free_page`. */
    method GetFreePage() returns (pfn: nat)
      requires Shape(Value())
      modifies this, bitmap
      ensures Value() == Take(old(Value()))
      ensures pfn == Picked(old(Value()))
    {
      hide IsSet, SetBit, Bit, SetAt, FirstClear, AllSet, Bits;
      ghost var before := Value();
      SeekWord();
      ghost var ws := bitmap[..];
      WordBits(ws, lastFreePos);
      var bit := FirstZero(bitmap[lastFreePos]);
      WordPrefix(ws, lastFreePos, bit);
      pfn := lastFreePos * 32 + bit;
      PickedBit(before, lastFreePos, bit);
      BitmapSet(pfn);
      pfn := pfn + start;
      freePages := (freePages + U32 - 1) % U32;
    }

    /** `os_pfn_alloc` without the zeroing of page-table frames. */
    method PfnAlloc() returns (pfn: nat)
      requires Shape(Value())
      modifies this, bitmap
      ensures old(freePages) == 0 ==> pfn == 0 && Value() == old(Value())
      ensures old(freePages) != 0 ==> Value() == Take(old(Value())) && pfn == Picked(old(Value()))
    {
      if freePages <= 0 {
        return 0;
      }
      pfn := GetFreePage();
    }

    /** `os_pfn_free`, through `os_page_free`. */
    method PfnFree(pfn: nat)
      requires Shape(Value())
      modifies this, bitmap
      ensures Value() == Give(old(Value()), pfn)
      ensures pfn <= start || pfn >= start + size ==> Value() == old(Value())
      ensures start < pfn < start + size ==>
        Value() == old(Value()).(bits := old(Value()).bits[pfn - start := false],
                                 freePages := (old(freePages) + 1) % U32)
    {
      if pfn * 4096 <= start * 4096 || pfn * 4096 >= start * 4096 + size * 4096 {
        return;
      }
      BitmapClear(pfn - start);
      freePages := (freePages + 1) % U32;
    }
  }

  /** The scan over the bits of one word: 32 when all are set. */
  method FirstZero(w: bv32) returns (bit: nat)
    ensures bit <= 32
    ensures forall k: nat | k < bit :: IsSet(w, k)
    ensures bit < 32 ==> !IsSet(w, bit)
  {
    bit := 0;
    while bit < 32 && IsSet(w, bit)
      invariant bit <= 32
      invariant forall k: nat | k < bit :: IsSet(w, k)
    {
      bit := bit + 1;
    }
  }

  lemma WordPrefix(ws: Words, w: nat, bit: nat)
    requires w < |ws| && bit <= 32
    requires forall k: nat | k < bit :: IsSet(ws[w], k)
    requires bit < 32 ==> !IsSet(ws[w], bit)
    ensures AllSet(Bits(ws), 32 * w, 32 * w + bit)
    ensures bit < 32 ==> !Bits(ws)[32 * w + bit]
  {
    forall i: nat | 32 * w <= i < 32 * w + bit
      ensures Bits(ws)[i]
    {
      WordBit(ws, w, i - 32 * w);
    }
    if bit < 32 {
      WordBit(ws, w, bit);
    }
  }

  lemma WholeWords(n: nat)
    requires n % 32 == 0
    ensures 32 * (n / 32) == n && n % 8 == 0
  {
  }

  predicate BootBits(bits: seq<bool>, n: nat) {
    forall k: nat | k < |bits| :: bits[k] <==> k < n
  }

  /** What `init_pagelist` leaves: exactly the reserved bits set. */
  predicate Booted(s: State) {
    && BootBits(s.bits, Reserve(s.size)) && s.last == Reserve(s.size) / 32
    && s.freePages == s.size - Reserve(s.size)
  }

  /** The first allocations after boot take the frames after the reserved ones, in order. */
  lemma BootReach(s: State, n: nat)
    requires Shape(s) && Booted(s) && Reserve(s.size) + n <= 32 * Window(s) && n > 0
    ensures Picked(s) == s.start + Reserve(s.size) && ClearRun(s, Picked(s), n) && |Supply(s)| >= n
  {
    var lo := s.start + Reserve(s.size);
    hide Reserve;
    forall q: nat | lo <= q < lo + n
      ensures q in Ahead(s)
    {
      assert IsFree(s, q);
    }
    forall q | q in Ahead(s)
      ensures lo <= q
    {
      assert IsFree(s, q);
    }
    PickedFrom(s, lo);
    IntervalSize(lo, lo + n);
    AheadInSupply(s);
    SubsetSize(Interval(lo, lo + n), Supply(s));
  }

  /** The state `init_pagelist` leaves is a good starting point for a run. */
  lemma BootWard(s: State)
    requires 64 <= s.size == |s.bits| < MAX_PAGES && s.size % 8 == 0
    requires s.last == Reserve(s.size) / 32 && s.freePages == s.size - Reserve(s.size)
    requires BootBits(s.bits, Reserve(s.size))
    ensures WardOk(Ward(s, multiset{}))
  {
    ReserveCoversBitmap(s.size);
    var lo, hi := s.start + Reserve(s.size), s.start + s.size;
    forall q: nat
      ensures q in Free(s) <==> q in Interval(lo, hi)
    {
      assert IsFree(s, q) <==> Within(lo, hi, q);
    }
    IntervalSize(lo, hi);
    assert Free(s) == Interval(lo, hi);
  }

  /** The word scan stops at the word of the picked bit, or at the window's end
      when nothing in the window is clear. */
  lemma StoppedWord(s: State, stop: nat)
    requires Shape(s) && s.last <= stop <= Window(s)
    requires AllSet(s.bits, 32 * s.last, 32 * stop)
    requires stop < Window(s) ==> !FullWordAt(s, stop)
    ensures Take(s).last == if stop < Window(s) then stop else 0
    ensures FirstClear(s.bits, 32 * s.last, 32 * Window(s)) < 32 * Window(s) <==> stop < Window(s)
  {
    var r := FirstClear(s.bits, 32 * s.last, 32 * Window(s));
    if stop < Window(s) {
      assert 32 * stop <= r < 32 * stop + 32;
    } else {
      assert r == 32 * Window(s);
    }
  }

  /** The word scan and the bit scan together find the picked bit. */
  lemma PickedBit(s: State, w: nat, bit: nat)
    requires Shape(s) && w == Take(s).last && bit <= 32
    requires FirstClear(s.bits, 32 * s.last, 32 * Window(s)) < 32 * Window(s) ==>
      s.last <= w < Window(s) && AllSet(s.bits, 32 * s.last, 32 * w) && bit < 32
    requires AllSet(s.bits, 32 * w, 32 * w + bit)
    requires bit < 32 ==> !s.bits[32 * w + bit]
    ensures Pick(s) == 32 * w + bit
  {
    var r := FirstClear(s.bits, 32 * s.last, 32 * Window(s));
    if r < 32 * Window(s) {
      assert r == 32 * w + bit;
    } else {
      assert FirstClear(s.bits, 0, 32) == bit;
    }
  }
}
