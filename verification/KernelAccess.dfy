/** Memory accesses that the kernel makes by physical address while a process's tree is
    loaded: they go through the 2MB entries of that tree like any other access. */
module KernelAccess {
  import opened PageTable
  import opened Physical
  import opened KernelMap
  import opened Walk

  /** `memcpy` of one page between frames under a tree. It faults, before it has written
      anything, if and only if one of the two frames lies beyond the first 128MB. */
  method CopyUnder(m: Machine, c: Config, root: nat, dst: nat, src: nat, ghost s: Space) returns (faulted: bool)
    requires m.Valid() && Wf(m.mem, s) && s.root == root && ConfigOk(c) && KernelEntries(s, c)
    requires dst < END_PFN && src < END_PFN && dst < |m.mem| && src < |m.mem| && dst != src
    modifies m`mem
    ensures m.Valid()
    ensures faulted <==> !(dst < KERNEL_FRAMES && src < KERNEL_FRAMES)
    ensures faulted ==> m.Value() == old(m.Value())
    ensures !faulted ==> m.Value() == old(m.Value()).(mem := old(m.mem)[dst := old(m.mem)[src]])
  {
    hide PhysOk, Translate, Wf, ConfigOk, KernelEntries, PgdIndex, PudIndex, PmdIndex, PteIndex;
    KernelRange(m.mem, s, c, src);
    KernelRange(m.mem, s, c, dst);
    var from := Translate(m.mem, root, LeafOf(src * 0x1000), Kernel);
    var to := Translate(m.mem, root, LeafOf(dst * 0x1000), Kernel);
    faulted := from.Fault? || to.Fault?;
    if !faulted {
      m.CopyFrame(to.pfn, from.pfn);
    }
  }

  /** The page-table frames are within the kernel's reach under every process's tree, so
      building, walking and tearing down trees never faults. */
  lemma TablesInReach(v: Phys, s: Space, c: Config, f: nat)
    requires PhysOk(v) && Wf(v.mem, s) && ConfigOk(c) && KernelEntries(s, c)
    requires v.pt.start <= f < v.pt.start + v.pt.size
    ensures Translate(v.mem, s.root, LeafOf(f * 0x1000), Kernel) == Frame(f)
  {
    TablesLow(v, f);
    KernelRange(v.mem, s, c, f);
  }

  lemma TablesLow(v: Phys, f: nat)
    requires PhysOk(v) && v.pt.start <= f < v.pt.start + v.pt.size
    ensures f < KERNEL_FRAMES < END_PFN
  {
  }
}
