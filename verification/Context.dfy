/** The process table (context.h, context.c): sixteen execution contexts. */
module Context {
  import opened PageTable
  import opened Segments

  const MAX_PROCESSES: nat := 16

  datatype ProcState = Unused | New | Ready | Running | Waiting | Exiting

  const RBP: nat := 8

  /** `struct user_regs`: the fifteen general registers, in the order of the struct,
      and the interrupt frame. */
  datatype Regs = Regs(general: seq<nat>, rip: nat, cs: nat, rflags: nat, rsp: nat, ss: nat)

  const SIGSEGV: nat := 0
  const SIGFPE: nat := 1
  const SIGALRM: nat := 2
  const MAX_SIGNALS: nat := 3

  /** `struct exec_context`. A handler of 0 is none. */
  datatype ExecContext = ExecContext(pid: nat, ppid: nat, state: ProcState, pgd: nat, osStackPfn: nat, segs: Segs,
                                     regs: Regs, handlers: seq<nat>, ticksToSleep: nat,
                                     alarmConfigTime: nat, ticksToAlarm: nat)

  /** What `do_fork` leaves in the new slot: a READY copy of the caller with its own
      number, address space and OS stack. */
  function ForkChild(x: ExecContext, pid: nat, pgd: nat, osStack: nat): ExecContext {
    x.(pid := pid, ppid := x.pid, pgd := pgd, osStackPfn := osStack, state := Ready)
  }

  /** What is left in the new slot when the copy stops: the caller's state with another
      number and the root of half a tree. */
  function HalfChild(x: ExecContext, pid: nat, pgd: nat): ExecContext {
    x.(pid := pid, ppid := x.pid, pgd := pgd)
  }

  /** The slot `get_new_ctx` takes: the first unused one. */
  function FirstUnused(ctxs: seq<ExecContext>): (r: nat)
    ensures r <= |ctxs|
    ensures r < |ctxs| ==> ctxs[r].state == Unused
    ensures forall i: nat | i < r :: ctxs[i].state != Unused
  {
    if ctxs == [] || ctxs[0].state == Unused then 0
    else
      var r := FirstUnused(ctxs[1..]);
      assert forall i: nat | i < r + 1 :: ctxs[i].state != Unused by {
        forall i: nat | i < r + 1
          ensures ctxs[i].state != Unused
        {
          if i > 0 {
            assert ctxs[i] == ctxs[1..][i - 1];
          }
        }
      }
      r + 1
  }

  /** `get_new_ctx`: the first unused slot becomes NEW and gets its number as pid;
      with no slot free nothing changes. */
  method GetNewCtx(ctxs: array<ExecContext>) returns (slot: nat)
    modifies ctxs
    ensures slot == FirstUnused(old(ctxs[..]))
    ensures slot < ctxs.Length ==> ctxs[..] == old(ctxs[..])[slot := old(ctxs[..])[slot].(pid := slot, state := New)]
    ensures slot == ctxs.Length ==> ctxs[..] == old(ctxs[..])
  {
    slot := 0;
    while slot < ctxs.Length
      invariant slot <= ctxs.Length && ctxs[..] == old(ctxs[..])
      invariant forall i: nat | i < slot :: ctxs[i].state != Unused
    {
      if ctxs[slot].state == Unused {
        FirstUnusedIs(ctxs[..], slot);
        ctxs[slot] := ctxs[slot].(pid := slot, state := New);
        return;
      }
      slot := slot + 1;
    }
    FirstUnusedIs(ctxs[..], slot);
  }

  lemma FirstUnusedIs(ctxs: seq<ExecContext>, slot: nat)
    requires slot <= |ctxs| && forall i: nat | i < slot :: ctxs[i].state != Unused
    requires slot < |ctxs| ==> ctxs[slot].state == Unused
    ensures FirstUnused(ctxs) == slot
  {
  }
}
