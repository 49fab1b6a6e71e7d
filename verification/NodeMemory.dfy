/** The pages behind the queue's node pool (memory.c). */
module NodeMemory {
  import PL = PageList

  const NODE_MEM_PAGES: nat := 100
  const NODES_PER_PAGE: nat := 256

  /** k allocations in a row have given consecutive frames. */
  predicate InSequence(s: PL.State, k: nat)
    requires PL.Shape(s)
  {
    forall j: nat | j < k :: PL.Picked(PL.TakeN(s, j)) == PL.Picked(s) + j
  }

  lemma ClearMeansSequence(s: PL.State, k: nat)
    requires PL.Shape(s) && PL.ClearRun(s, PL.Picked(s), k)
    ensures InSequence(s, k)
  {
    hide PL.Shape, PL.ClearRun, PL.Picked, PL.TakeN;
    forall j: nat | j < k
      ensures PL.Picked(PL.TakeN(s, j)) == PL.Picked(s) + j
    {
      PL.ConsecutiveTakes(s, k, j);
    }
  }

  lemma MoreReach(s: PL.State, k: nat)
    requires PL.Shape(s) && PL.ClearRun(s, PL.Picked(s), k + 1)
    ensures PL.Ahead(PL.TakeN(s, k)) != {} && PL.TakeN(s, k + 1) == PL.Take(PL.TakeN(s, k))
  {
    PL.ConsecutiveTakes(s, k + 1, k);
    assert PL.Picked(s) + k in PL.Ahead(s);
  }

  /** The loop of `init_nodealloc_memory`: when the next hundred frames are clear, the
      pool is one block of hundred pages, the sequence check never complains, and all
      pages but the first have been counted. */
  method InitNodeMemory(list: PL.PageList) returns (start: nat, numFree: nat, complained: bool)
    requires PL.Shape(list.Value()) && PL.Ledger(list.Value())
    requires PL.ClearRun(list.Value(), PL.Picked(list.Value()), NODE_MEM_PAGES)
    modifies list, list.bitmap
    ensures list.Value() == PL.TakeN(old(list.Value()), NODE_MEM_PAGES)
    ensures start == PL.Picked(old(list.Value())) && !complained
    ensures numFree == (NODE_MEM_PAGES - 1) * NODES_PER_PAGE
  {
    hide PL.Shape, PL.ClearRun, PL.Picked, PL.Take, PL.Ahead, PL.Ledger, PL.Free;
    ghost var s := list.Value();
    ClearMeansSequence(s, NODE_MEM_PAGES);
    FirstReach(s);
    PL.AheadEffect(s);
    start := list.PfnAlloc();
    var prev := start;
    numFree := 0;
    complained := false;
    for i := 1 to NODE_MEM_PAGES
      invariant list.Value() == PL.TakeN(s, i) && PL.Shape(list.Value()) && PL.Ledger(list.Value())
      invariant prev == PL.Picked(s) + (i - 1) && !complained && numFree == (i - 1) * NODES_PER_PAGE
    {
      ShorterRun(s, i);
      MoreReach(s, i);
      PL.AheadEffect(list.Value());
      assert PL.Picked(PL.TakeN(s, i)) == PL.Picked(s) + i;
      var current := list.PfnAlloc();
      if current != prev + 1 {
        complained := true;
      }
      prev := current;
      numFree := numFree + NODES_PER_PAGE;
    }
  }

  lemma FirstReach(s: PL.State)
    requires PL.Shape(s) && PL.ClearRun(s, PL.Picked(s), NODE_MEM_PAGES)
    ensures PL.Ahead(s) != {} && PL.TakeN(s, 1) == PL.Take(s)
  {
    assert PL.Picked(s) in PL.Ahead(s);
    assert PL.TakeN(s, 0) == s;
  }

  lemma ShorterRun(s: PL.State, i: nat)
    requires PL.Shape(s) && i < NODE_MEM_PAGES && PL.ClearRun(s, PL.Picked(s), NODE_MEM_PAGES)
    ensures PL.ClearRun(s, PL.Picked(s), i + 1)
  {
  }
}
