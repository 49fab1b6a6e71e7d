/** From power-on memory to the first process: the set-up calls of main.c and the shell's
    `init` command. The invariants of the memory side and of the scheduler come true. */
module Boot {
  import opened PageTable
  import opened Physical
  import opened KernelMap
  import opened Segments
  import opened Context
  import opened Fork
  import opened Teardown
  import opened Kernel
  import opened Lifecycle
  import opened Syscalls
  import opened FirstProcess
  import S = Scheduler
  import R = SchedulerRuns
  import opened CopyWhole
  import opened SystemFrames
  import opened WholeKernel
  import Coexist
  import KernelRun
  import PL = PageList

  const SWAPPER_PGD: nat := 0x70

  function ZeroRegs(): Regs {
    Regs([0, 0, 0, 0, 0, 0, 0, 0, 0, 0, 0, 0, 0, 0, 0], 0, 0, 0, 0, 0)
  }

  /** A slot of the zeroed process table. */
  function ZeroContext(): ExecContext {
    var seg := Segment(0, 0, 0, 0);
    ExecContext(0, 0, Unused, 0, 0, Segs(seg, seg, seg, seg), ZeroRegs(), [0, 0, 0], 0, 0, 0)
  }

  function SwapperContext(task: nat, stack: nat, cs: nat, rflags: nat, ss: nat): ExecContext {
    ZeroContext().(state := Ready, pgd := SWAPPER_PGD, osStackPfn := stack,
                   regs := Regs(ZeroRegs().general, task, cs, rflags, stack * PAGE_SIZE + PAGE_SIZE, ss))
  }

  /** k page-table frames have been taken since v; nothing else has changed. */
  ghost predicate TakenSince(v: Phys, w: Phys, k: nat) {
    && PhysOk(v) && PhysOk(w) && w.pt == PL.TakeN(v.pt, k) && w.user == v.user && LowKept(v, w)
    && |PL.Supply(w.pt)| + k == |PL.Supply(v.pt)|
  }

  lemma TakenOne(v: Phys, w: Phys, k: nat)
    requires TakenSince(v, w, k) && PL.Supply(w.pt) != {}
    ensures PL.Shape(w.pt)
    ensures TakenSince(v, TakeTable(w), k + 1) && Taken(TakeTable(w).pt, PL.Picked(w.pt))
    ensures !Taken(w.pt, PL.Picked(w.pt)) && forall g | Taken(w.pt, g) :: Taken(TakeTable(w).pt, g)
  {
    hide PL.Supply, PL.Take, PL.Picked, PL.Shape, PL.Ledger;
    TakeTableOk(w);
    assert !Taken(w.pt, PL.Picked(w.pt));
    TakeTableFrame(w);
    Install.TakeTableCost(w);
  }

  /** `init_swapper`: the table's frame and the swapper's stack are taken, slot 0 is READY. */
  method InitSwapper(m: Machine, task: nat, cs: nat, rflags: nat, ss: nat, ghost v: Phys, ghost k: nat)
    returns (ctxs: array<ExecContext>, ghost swapperStack: nat, ghost r: set<nat>)
    requires m.Valid() && TakenSince(v, m.Value(), k) && |PL.Supply(v.pt)| >= k + 2
    modifies m.Objs()
    ensures m.Valid() && TakenSince(v, m.Value(), k + 2) && fresh(ctxs)
    ensures ctxs[..] == Table(SwapperContext(task, swapperStack, cs, rflags, ss))
    ensures var x := ctxs[..][0];
      && x.pid == 0 && x.state == Ready && x.pgd == 0x70 && x.osStackPfn == swapperStack && x.ticksToAlarm == 0
      && x.regs.rip == task && x.regs.rsp == (swapperStack + 1) * 4096
      && x.regs.cs == cs && x.regs.rflags == rflags && x.regs.ss == ss
      && |x.regs.general| == 15 && forall k: nat | k < 15 :: x.regs.general[k] == 0
    ensures forall i: nat | 0 < i < MAX_PROCESSES :: ctxs[..][i].state == Unused
    ensures |r| == 2 && swapperStack in r && forall f | f in r :: !Taken(old(m.pt.Value()), f)
    ensures forall f | f in r || Taken(old(m.pt.Value()), f) :: Taken(m.pt.Value(), f)
  {
    hide PhysOk, PL.Supply, PL.TakeN, PL.Picked, PL.PageList.Value, LowKept, Taken, TakenSince;
    NotEmpty(v, m.Value(), k);
    TakenOne(v, m.Value(), k);
    var ctxList := m.FreshTable();
    ctxs := new ExecContext[MAX_PROCESSES](_ => ZeroContext());
    NotEmpty(v, m.Value(), k + 1);
    TakenOne(v, m.Value(), k + 1);
    var stack := m.FreshTable();
    ctxs[0] := ctxs[0].(state := Ready, pgd := SWAPPER_PGD, osStackPfn := stack);
    ctxs[0] := ctxs[0].(regs := Regs(ZeroRegs().general, task, cs, rflags, stack * PAGE_SIZE + PAGE_SIZE, ss));
    swapperStack, r := stack, {ctxList, stack};
    assert ctxs[..] == Table(SwapperContext(task, stack, cs, rflags, ss));
  }

  function Table(swapper: ExecContext): (r: seq<ExecContext>)
    ensures |r| == MAX_PROCESSES && r[0] == swapper && forall i: nat | 0 < i < MAX_PROCESSES :: r[i] == ZeroContext()
  {
    seq(MAX_PROCESSES, i => if i == 0 then swapper else ZeroContext())
  }

  lemma NotEmpty(v: Phys, w: Phys, k: nat)
    requires TakenSince(v, w, k) && |PL.Supply(v.pt)| > k
    ensures PL.Supply(w.pt) != {}
  {
    hide PL.Supply, PL.TakeN, LowKept, PhysOk;
  }

  /** The frames of `setup_gdt_tss` and `setup_idt`: the TSS, the interrupt stack and the IDT. */
  method TakeSystemFrames(m: Machine) returns (ghost r: set<nat>)
    requires m.Valid() && |PL.Supply(m.pt.Value())| >= 3
    modifies m.Objs()
    ensures m.Valid() && TakenSince(old(m.Value()), m.Value(), 3)
    ensures |r| == 3 && forall f | f in r :: Taken(m.pt.Value(), f)
  {
    hide PhysOk, PL.Supply, PL.TakeN, PL.Picked, PL.PageList.Value, LowKept, Taken, TakenSince;
    ghost var v := m.Value();
    TakenNone(v);
    NotEmpty(v, m.Value(), 0);
    TakenOne(v, m.Value(), 0);
    var tss := m.FreshTable();
    NotEmpty(v, m.Value(), 1);
    TakenOne(v, m.Value(), 1);
    var irqStack := m.FreshTable();
    NotEmpty(v, m.Value(), 2);
    TakenOne(v, m.Value(), 2);
    var idt := m.FreshTable();
    r := {tss, irqStack, idt};
  }

  lemma TakenNone(v: Phys)
    requires PhysOk(v)
    ensures TakenSince(v, v, 0)
  {
    hide PL.Supply;
    RegionOrder(v);
  }

  lemma FirstFree(ctxs: seq<ExecContext>, swapper: ExecContext)
    requires ctxs == Table(swapper) && swapper.state == Ready
    ensures FirstUnused(ctxs) == 1
  {
    FirstUnusedIs(ctxs, 1);
  }

  lemma Plenty(m: Machine)
    requires m.Valid() && m.pt.size == USER_START_PFN - PT_START_PFN && m.user.size == END_PFN - USER_START_PFN
    requires PL.Booted(m.pt.Value()) && PL.Booted(m.user.Value())
    ensures |PL.Supply(m.pt.Value())| >= 16 && |PL.Supply(m.user.Value())| >= 16
    ensures PL.Shape(m.user.Value()) && PL.ClearRun(m.user.Value(), PL.Picked(m.user.Value()), CODE_PAGES)
  {
    UserShape(m.Value());
    hide PL.Supply, PL.ClearRun, PL.Picked, PL.Booted;
    PL.BootReach(m.pt.Value(), 16);
    PL.BootReach(m.user.Value(), 16);
    ShortRun(m.user.Value(), PL.Picked(m.user.Value()));
  }

  lemma ShortRun(u: PL.State, p: nat)
    requires PL.ClearRun(u, p, 16)
    ensures PL.ClearRun(u, p, CODE_PAGES)
  {
  }

  lemma EnoughAfter(v: Phys, w: Phys)
    requires TakenSince(v, w, 6) && |PL.Supply(v.pt)| >= 16 && |PL.Supply(v.user)| >= 16
    requires PL.Shape(v.user) && PL.ClearRun(v.user, PL.Picked(v.user), CODE_PAGES)
    ensures EnoughForInit(w)
  {
    hide PL.Supply, PL.TakeN, PL.ClearRun, LowKept;
  }

  lemma Placed(m: Machine, v: Phys, c: Config)
    requires m.Valid() && m.pt.start == PT_START_PFN && m.user.start == USER_START_PFN && ConfigOk(c)
    requires m.pt.size == USER_START_PFN - PT_START_PFN && m.user.size == END_PFN - USER_START_PFN && v == m.Value()
    ensures ApicOutside(v, c) && v.pt.start == PT_START_PFN
  {
  }

  /** The table after `create_context`: the swapper and the new process. */
  lemma Created(ctxs: seq<ExecContext>, swapper: ExecContext, stack: nat)
    requires ctxs == Table(swapper)[1 := CreatedContext(ZeroContext(), 1, stack)]
    requires swapper.state == Ready && swapper.pid == 0 && |swapper.handlers| == MAX_SIGNALS
    requires |swapper.regs.general| == 15 && swapper.ticksToAlarm == 0
    ensures OnlySlot(ctxs, 1) && ctxs[1].pid == 1 && ctxs[0].pid == 0 && ctxs[0].state == Ready
    ensures ctxs[1].osStackPfn == stack && ctxs[0].ticksToAlarm == 0
    ensures forall i: nat | i < MAX_PROCESSES :: |ctxs[i].handlers| == MAX_SIGNALS && |ctxs[i].regs.general| == 15
  {
    forall i: nat | i < MAX_PROCESSES
      ensures |ctxs[i].handlers| == MAX_SIGNALS && |ctxs[i].regs.general| == 15
      ensures i != 1 ==> (ctxs[i].state == Unused <==> i != 0)
    {
      assert i > 1 ==> ctxs[i] == ZeroContext();
    }
  }

  lemma SameText(v: Phys, w: Phys)
    requires TakenSince(v, w, 6) && v.pt.start == PT_START_PFN
    ensures TEXT_FRAME + CODE_PAGES <= |v.mem| && |w.mem| == |v.mem|
    ensures w.mem[TEXT_FRAME..TEXT_FRAME + CODE_PAGES] == v.mem[TEXT_FRAME..TEXT_FRAME + CODE_PAGES]
  {
    hide PL.Supply, PL.TakeN, PhysOk;
  }

  /** Boot and `init`: with any contents of memory and any APIC address above it, the
      kernel's memory invariant and the scheduler's invariant hold when the first
      process starts, and its code is the program from the boot image. */
  method BootInit(ram: Mem, cfg: Config, task: nat, cs: nat, rflags: nat, ss: nat, frame: Regs)
    returns (sys: System, slot: nat, text: nat, ghost r: set<nat>)
    requires MemOk(ram) && END_PFN <= |ram| && ConfigOk(cfg) && |frame.general| == 15
    ensures sys.Valid() && sys.config == cfg && slot == 1 && sys.current == slot && sys.spaces.Keys == {slot}
    ensures R.SchedOk(S.Table(sys.ctxs[..], sys.current, frame))
    ensures |r| == 5 && sys.ctxs[..][0].osStackPfn in r
    ensures Reserved(World(sys.m.Value(), S.Table(sys.ctxs[..], 1, frame), sys.spaces), r)
    ensures sys.osPmd == OsPmdOf(sys.spaces[slot])
    ensures text + CODE_PAGES <= |sys.m.mem|
    ensures sys.m.mem[text..text + CODE_PAGES] == ram[TEXT_FRAME..TEXT_FRAME + CODE_PAGES]
  {
    hide PhysOk, PL.Supply, PL.Picked, PL.PageList.Value, LowKept, KernelOk, ConfigOk, EnoughForInit;
    hide PL.Booted, Taken, Built, InitPages, PL.ClearRun, PL.Shape, TakenSince;
    hide OnlySlot, R.SchedOk, InitSegs, CreatedSegs, ApicOutside, Reserved;
    var m := new Machine(ram);
    ghost var v := m.Value();
    Placed(m, v, cfg);
    Plenty(m);
    r := TakeSystemFrames(m);
    var ctxs;
    ghost var stack, more;
    ctxs, stack, more := InitSwapper(m, task, cs, rflags, ss, v, 3);
    TwoSets(r, more);
    r := r + more;
    ghost var swapper := SwapperContext(task, stack, cs, rflags, ss);
    FirstFree(ctxs[..], swapper);
    sys := new System(m, ctxs, cfg);
    NotEmpty(v, m.Value(), 5);
    TakenOne(v, m.Value(), 5);
    ghost var newStack := PL.Picked(m.pt.Value());
    slot := CreateContext(sys);
    ghost var w, table := m.Value(), sys.ctxs[..];
    EnoughAfter(v, w);
    Created(table, swapper, newStack);
    Placed(m, w, cfg);
    SameText(v, w);
    ghost var data, os;
    text, data, os := ExecInit(sys, slot);
    Coexist.InitScheduled(table, slot, sys.spaces[slot].root, frame);
    BootReserved(w, sys.m.Value(), sys.ctxs[..], sys.spaces, frame, newStack, r);
  }

  /** The init tree and its OS stack are made of other frames. */
  lemma BootReserved(w: Phys, x: Phys, ctxs: seq<ExecContext>, spaces: map<nat, Space>, frame: Regs, stack: nat,
                     r: set<nat>)
    requires spaces.Keys == {1} && Built(w, x, spaces[1]) && |ctxs| > 1 && ctxs[1].osStackPfn == stack
    requires stack !in r && forall f | f in r :: Taken(w.pt, f)
    ensures Reserved(World(x, S.Table(ctxs, 1, frame), spaces), r)
  {
    forall f | f in r
      ensures Taken(x.pt, f) && f !in spaces[1].owner
    {
      PL.FreeMembership(w.pt, f);
      StillTakenOne(w.pt, x.pt, f);
    }
  }

  lemma TwoSets(q: set<nat>, s: set<nat>)
    requires q !! s
    ensures |q + s| == |q| + |s|
  {
  }

  /** The machine with the first process running, ready for any sequence of calls. */
  method Start(ram: Mem, cfg: Config, task: nat, cs: nat, rflags: nat, ss: nat, frame: Regs)
    returns (computer: KernelRun.Computer, ghost r: set<nat>)
    requires MemOk(ram) && END_PFN <= |ram| && ConfigOk(cfg) && |frame.general| == 15
    ensures computer.Valid() && computer.sys.config == cfg && computer.cpu.current == 1
    ensures |r| == 5 && Reserved(computer.Value(), r) && OsPmdTracked(computer.Value(), r, computer.sys.osPmd)
  {
    hide PhysOk, KernelOk, ConfigOk, R.SchedOk, Reserved, PL.PageList.Value;
    var sys, slot, text;
    sys, slot, text, r := BootInit(ram, cfg, task, cs, rflags, ss, frame);
    var cpu := new S.Processor(sys.ctxs, sys.current, frame);
    computer := new KernelRun.Computer(sys, cpu);
  }
}
