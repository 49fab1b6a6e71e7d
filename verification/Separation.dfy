/** The invariant of the whole kernel in the processor's terms: what user and kernel
    accesses reach, read off physical memory alone. */
module Separation {
  import opened PageTable
  import opened Physical
  import opened Install
  import opened KernelMap
  import opened Segments
  import opened Context
  import opened Isolation
  import opened Kernel
  import opened KernelSteps
  import opened Walk
  import opened Syscalls
  import PL = PageList

  lemma HeldTree(v: Phys, s: Space)
    requires Holds(v, s)
    ensures Wf(v.mem, s)
  {
  }

  /** Under a live process's root, a user access to a page reaches exactly the frame
      its page map names, a user frame that is not marked free, and nothing below 4GB. */
  lemma UserReach(v: Phys, ctxs: seq<ExecContext>, spaces: map<nat, Space>, c: Config, i: nat, l: Node)
    requires KernelOk(v, ctxs, spaces, c) && i in spaces && i < |ctxs| && InRange(l)
    ensures var t := Translate(v.mem, ctxs[i].pgd, l, UserRead);
      && (t.Frame? <==> l in spaces[i].ents)
      && (t.Frame? ==> spaces[i].ents[l].pfn == t.pfn && PagePlace(ctxs[i].segs, l) && VaOf(l) >= CODE_START)
      && (t.Frame? ==> v.user.start < t.pfn < v.user.start + v.user.size && t.pfn !in PL.Free(v.user))
  {
    KernelSlot(v, ctxs, spaces, c, i);
    KernelAbsOk(v, ctxs, spaces, c);
    AbsKeys(v, ctxs, spaces);
    hide KernelOk, PagePlace, InRange, Abs, SysOk, Live, Leaves, Translate, PL.Free, VaOf;
    var s := spaces[i];
    LiveHolds(v, ctxs[i], s, c);
    LiveUser(v, ctxs[i], s, c);
    HeldTree(v, s);
    UserTranslationIsTheMap(v.mem, s, l);
    LeavesAre(s);
    if l in s.ents {
      PageHolds(Abs(v, ctxs, spaces), i, l);
      PlaceHigh(ctxs[i].segs, l);
    }
  }

  lemma PlaceHigh(g: Segs, l: Node)
    requires PagePlace(g, l)
    ensures VaOf(l) >= CODE_START
  {
  }

  /** What the kernel can address under every live process's root, whatever the processes
      have done: a frame of the first 128MB is where its address says, any other frame of
      memory is out of reach. */
  lemma KernelReach(v: Phys, ctxs: seq<ExecContext>, spaces: map<nat, Space>, c: Config, i: nat, f: nat)
    requires KernelOk(v, ctxs, spaces, c) && i in spaces && i < |ctxs| && f < END_PFN
    ensures Translate(v.mem, ctxs[i].pgd, LeafOf(f * PAGE_SIZE), Kernel) ==
      if f < KERNEL_FRAMES then Frame(f) else Translation.Fault
  {
    KernelSlot(v, ctxs, spaces, c, i);
    KernelTable(v, ctxs, spaces, c);
    hide KernelOk, ConfigOk, Abs, Live, Leaves, Translate, PgdIndex, PudIndex, PmdIndex, PteIndex;
    hide IdentityHuges, KernelEntries;
    LiveHolds(v, ctxs[i], spaces[i], c);
    HeldTree(v, spaces[i]);
    KernelRange(v.mem, spaces[i], c, f);
  }

  /** A frame that one live process has mapped writable is reached by no other user
      access in the system. */
  lemma WritableFrameIsAlone(v: Phys, ctxs: seq<ExecContext>, spaces: map<nat, Space>, c: Config, i: nat, l: Node,
                             j: nat, k: Node)
    requires KernelOk(v, ctxs, spaces, c) && i in spaces && j in spaces && i < |ctxs| && j < |ctxs|
    requires InRange(l) && InRange(k) && l in spaces[i].ents && WriteFlag(spaces[i].ents[l])
    requires Translate(v.mem, ctxs[j].pgd, k, UserRead) == Translate(v.mem, ctxs[i].pgd, l, UserRead)
    ensures i == j && l == k
  {
    UserReach(v, ctxs, spaces, c, i, l);
    UserReach(v, ctxs, spaces, c, j, k);
    KernelAbsOk(v, ctxs, spaces, c);
    AbsKeys(v, ctxs, spaces);
    KernelSlot(v, ctxs, spaces, c, i);
    KernelSlot(v, ctxs, spaces, c, j);
    hide KernelOk, PagePlace, InRange, Abs, SysOk, Live, Leaves, Translate, PL.Free, VaOf, WriteFlag;
    LeavesAre(spaces[i]);
    LeavesAre(spaces[j]);
    if i != j || l != k {
      WritableApart(Abs(v, ctxs, spaces), i, j, l, k);
      assert false;
    }
  }
}
