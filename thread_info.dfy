/** Thread-flag helpers of include/linux/sched/thread_info_api.h.

    `thread_info.flags` is one `unsigned long` (64 bits); `set_bit`, `clear_bit`
    and the `test_and_*` operations act on one bit of it in place. The
    `*_tsk_thread_flag` wrappers reach the same word through
    `task_thread_info(tsk)`. */
module ThreadInfoApi {
  import Errno

  /** Bit numbers that address a bit of one `unsigned long`. */
  type FlagNr = n: bv64 | n < 64

  /** The one-bit mask `BIT(flag)`. */
  function Bit(flag: FlagNr): bv64 { 1 << flag }

  /** The value of `test_bit(flag, &flags)`. */
  predicate IsSet(flags: bv64, flag: FlagNr) { flags & Bit(flag) != 0 }

  /** `flags` after `set_bit(flag, &flags)`. */
  function WithBit(flags: bv64, flag: FlagNr): (r: bv64)
    ensures IsSet(r, flag)
    ensures r & !Bit(flag) == flags & !Bit(flag)
  {
    flags | Bit(flag)
  }

  /** `flags` after `clear_bit(flag, &flags)`. */
  function WithoutBit(flags: bv64, flag: FlagNr): (r: bv64)
    ensures !IsSet(r, flag)
    ensures r & !Bit(flag) == flags & !Bit(flag)
  {
    flags & !Bit(flag)
  }

  /** `struct thread_info`: only the fields these helpers touch. */
  class ThreadInfo {
    var flags: bv64
    var cpu: nat

    constructor (flags0: bv64, cpu0: nat)
      ensures flags == flags0 && cpu == cpu0
    {
      flags := flags0;
      cpu := cpu0;
    }

    /** `test_ti_thread_flag`. */
    predicate Test(flag: FlagNr)
      reads this
    {
      IsSet(flags, flag)
    }

    /** `set_ti_thread_flag`. */
    method Set(flag: FlagNr)
      modifies this`flags
      ensures flags == WithBit(old(flags), flag)
      ensures Test(flag)
    {
      flags := WithBit(flags, flag);
    }

    /** `clear_ti_thread_flag`. */
    method Clear(flag: FlagNr)
      modifies this`flags
      ensures flags == WithoutBit(old(flags), flag)
      ensures !Test(flag)
    {
      flags := WithoutBit(flags, flag);
    }

    /** `update_ti_thread_flag`: set when `value`, clear otherwise. */
    method Update(flag: FlagNr, value: bool)
      modifies this`flags
      ensures flags == if value then WithBit(old(flags), flag) else WithoutBit(old(flags), flag)
      ensures Test(flag) == value
    {
      if value {
        Set(flag);
      } else {
        Clear(flag);
      }
    }

    /** `test_and_set_ti_thread_flag`: the previous bit, and the bit left set. */
    method TestAndSet(flag: FlagNr) returns (was: bool)
      modifies this`flags
      ensures was == IsSet(old(flags), flag)
      ensures flags == WithBit(old(flags), flag)
    {
      was := IsSet(flags, flag);
      flags := WithBit(flags, flag);
    }

    /** `test_and_clear_ti_thread_flag`: the previous bit, and the bit left clear. */
    method TestAndClear(flag: FlagNr) returns (was: bool)
      modifies this`flags
      ensures was == IsSet(old(flags), flag)
      ensures flags == WithoutBit(old(flags), flag)
    {
      was := IsSet(flags, flag);
      flags := WithoutBit(flags, flag);
    }
  }

  /** `struct task_struct`, reduced to the link `task_thread_info(task)` follows. */
  class Task {
    const threadInfo: ThreadInfo

    constructor (ti: ThreadInfo)
      ensures threadInfo == ti
    {
      threadInfo := ti;
    }
  }

  /** `set_tsk_thread_flag`. */
  method SetTskThreadFlag(tsk: Task, flag: FlagNr)
    modifies tsk.threadInfo`flags
    ensures tsk.threadInfo.flags == WithBit(old(tsk.threadInfo.flags), flag)
  {
    tsk.threadInfo.Set(flag);
  }

  /** `clear_tsk_thread_flag`. */
  method ClearTskThreadFlag(tsk: Task, flag: FlagNr)
    modifies tsk.threadInfo`flags
    ensures tsk.threadInfo.flags == WithoutBit(old(tsk.threadInfo.flags), flag)
  {
    tsk.threadInfo.Clear(flag);
  }

  /** `update_tsk_thread_flag`. */
  method UpdateTskThreadFlag(tsk: Task, flag: FlagNr, value: bool)
    modifies tsk.threadInfo`flags
    ensures tsk.threadInfo.flags ==
      if value then WithBit(old(tsk.threadInfo.flags), flag) else WithoutBit(old(tsk.threadInfo.flags), flag)
  {
    tsk.threadInfo.Update(flag, value);
  }

  /** `test_and_set_tsk_thread_flag`. */
  method TestAndSetTskThreadFlag(tsk: Task, flag: FlagNr) returns (was: bool)
    modifies tsk.threadInfo`flags
    ensures was == IsSet(old(tsk.threadInfo.flags), flag)
    ensures tsk.threadInfo.flags == WithBit(old(tsk.threadInfo.flags), flag)
  {
    was := tsk.threadInfo.TestAndSet(flag);
  }

  /** `test_and_clear_tsk_thread_flag`. */
  method TestAndClearTskThreadFlag(tsk: Task, flag: FlagNr) returns (was: bool)
    modifies tsk.threadInfo`flags
    ensures was == IsSet(old(tsk.threadInfo.flags), flag)
    ensures tsk.threadInfo.flags == WithoutBit(old(tsk.threadInfo.flags), flag)
  {
    was := tsk.threadInfo.TestAndClear(flag);
  }

  /** `test_tsk_thread_flag`. */
  predicate TestTskThreadFlag(tsk: Task, flag: FlagNr)
    reads tsk.threadInfo
  {
    tsk.threadInfo.Test(flag)
  }

  /** `set_tsk_need_resched`; `needResched` is the architecture's TIF_NEED_RESCHED. */
  method SetTskNeedResched(tsk: Task, needResched: FlagNr)
    modifies tsk.threadInfo`flags
    ensures TestTskThreadFlag(tsk, needResched)
    ensures tsk.threadInfo.flags & !Bit(needResched) == old(tsk.threadInfo.flags) & !Bit(needResched)
  {
    SetTskThreadFlag(tsk, needResched);
  }

  /** `clear_tsk_need_resched`. */
  method ClearTskNeedResched(tsk: Task, needResched: FlagNr)
    modifies tsk.threadInfo`flags
    ensures !TestTskThreadFlag(tsk, needResched)
    ensures tsk.threadInfo.flags & !Bit(needResched) == old(tsk.threadInfo.flags) & !Bit(needResched)
  {
    ClearTskThreadFlag(tsk, needResched);
  }

  /** `test_tsk_need_resched`. */
  predicate TestTskNeedResched(tsk: Task, needResched: FlagNr)
    reads tsk.threadInfo
  {
    TestTskThreadFlag(tsk, needResched)
  }

  /** `task_cpu`: the recorded CPU with CONFIG_SMP, always 0 without it. */
  function TaskCpu(tsk: Task, smp: bool): (cpu: nat)
    reads tsk.threadInfo
    ensures !smp ==> cpu == 0
    ensures smp ==> cpu == tsk.threadInfo.cpu
  {
    if smp then tsk.threadInfo.cpu else 0
  }

  /** A restart handler, identified by an opaque name. */
  type RestartFn = nat

  /** `struct restart_block`, reduced to its handler. */
  class RestartBlock {
    var fn: RestartFn

    constructor (fn0: RestartFn)
      ensures fn == fn0
    {
      fn := fn0;
    }
  }

  /** `set_restart_fn`: installs the handler and asks for a restart. */
  method SetRestartFn(restart: RestartBlock, fn: RestartFn) returns (ret: int)
    modifies restart
    ensures restart.fn == fn
    ensures ret == -Errno.ERESTART_RESTARTBLOCK
  {
    restart.fn := fn;
    ret := -Errno.ERESTART_RESTARTBLOCK;
  }

  // ---- Properties of the flag operations ----

  /** After a set the flag tests true; after a clear it tests false. */
  lemma SetThenClear(flags: bv64, flag: FlagNr)
    ensures IsSet(WithBit(flags, flag), flag)
    ensures !IsSet(WithoutBit(WithBit(flags, flag), flag), flag)
    ensures WithoutBit(WithBit(flags, flag), flag) == WithoutBit(flags, flag)
  {
  }

  /** Setting a bit that is already set, or clearing one that is clear, changes nothing. */
  lemma IdempotentUpdates(flags: bv64, flag: FlagNr)
    ensures IsSet(flags, flag) <==> WithBit(flags, flag) == flags
    ensures !IsSet(flags, flag) <==> WithoutBit(flags, flag) == flags
  {
  }

  /** Two different bit numbers give disjoint masks. */
  lemma DistinctBits(f: FlagNr, g: FlagNr)
    requires f != g
    ensures Bit(f) & Bit(g) == 0
  {
  }

  /** Or-ing in a mask disjoint from `n` leaves the bits under `n` alone. */
  lemma OrDisjoint(flags: bv64, m: bv64, n: bv64)
    requires m & n == 0
    ensures (flags | m) & n == flags & n
  {
  }

  /** Masking out bits disjoint from `n` leaves the bits under `n` alone. */
  lemma AndNotDisjoint(flags: bv64, m: bv64, n: bv64)
    requires m & n == 0
    ensures (flags & !m) & n == flags & n
  {
  }

  /** Setting one bit does not change the test of any other bit. */
  lemma SetKeepsOtherBit(flags: bv64, f: FlagNr, g: FlagNr)
    requires f != g
    ensures IsSet(WithBit(flags, f), g) == IsSet(flags, g)
  {
    DistinctBits(f, g);
    OrDisjoint(flags, Bit(f), Bit(g));
  }

  /** Clearing one bit does not change the test of any other bit. */
  lemma ClearKeepsOtherBit(flags: bv64, f: FlagNr, g: FlagNr)
    requires f != g
    ensures IsSet(WithoutBit(flags, f), g) == IsSet(flags, g)
  {
    DistinctBits(f, g);
    AndNotDisjoint(flags, Bit(f), Bit(g));
  }
}
