/** The Qualcomm wireless connectivity subsystem (WCNSS) peripheral image
    loader, drivers/remoteproc/qcom_wcnss.c.

    Registers are fields of `Wcnss`; `readl` returns the field and `writel`
    assigns it. Every call into another kernel subsystem (reset control,
    power domains, regulators, the iris companion chip, the secure monitor,
    completion waits) is a parameter holding the value that call returns. */
module QcomWcnss {
  import opened Arith
  import opened Retvals
  import opened Wrappers
  import Errno

  // ---- register bits ----

  /** `WCNSS_SPARE_NVBIN_DLND`, BIT(25) of the spare register. */
  const SPARE_NVBIN_DLND: bv32 := 0x200_0000

  const PMU_IRIS_XO_CFG: bv32 := 0x08
  const PMU_IRIS_XO_EN: bv32 := 0x10
  const PMU_GC_BUS_MUX_SEL_TOP: bv32 := 0x20
  const PMU_IRIS_RESET: bv32 := 0x80
  /** `WCNSS_PMU_XO_MODE_MASK`, GENMASK(2, 1). */
  const PMU_XO_MODE_MASK: bv32 := 0x06
  const PMU_XO_MODE_19P2: bv32 := 0
  const PMU_XO_MODE_48: bv32 := 3

  const COMMON_GDSCR_SW_COLLAPSE: bv32 := 0x01
  const COMMON_CPU_CBCR_CLK_EN: bv32 := 0x01
  const COMMON_AHB_CBCR_CLK_EN: bv32 := 0x01
  const COMMON_CSR_A2XB_CFG_EN: bv32 := 0x01
  const SOFT_RESET_CRCM_CCPU_SOFT_RESET: bv32 := 0x400
  const CCPU_CTL_REMAP_EN: bv32 := 0x04
  const CCPU_CTL_HIGH_IVT: bv32 := 0x01

  /** `BIT(WCNSS_CCPU_BOOT_REMAP_SHIFT)`: the boot address is in 64 KiB units. */
  const BOOT_REMAP_UNIT: nat := 0x1_0000

  /** `WCNSS_MAX_PDS`. */
  const MAX_PDS: nat := 2

  /** The masks are the bits the driver's names give them. */
  lemma RegisterBits()
    ensures SPARE_NVBIN_DLND == 1 << 25 && PMU_IRIS_RESET == 1 << 7 && SOFT_RESET_CRCM_CCPU_SOFT_RESET == 1 << 10
    ensures PMU_XO_MODE_MASK == (1 << 1) | (1 << 2)
    ensures PMU_IRIS_XO_CFG == 1 << 3 && PMU_IRIS_XO_EN == 1 << 4 && PMU_GC_BUS_MUX_SEL_TOP == 1 << 5
  {
  }

  /** The alignment test `start_addr & (BIT(16) - 1)` is the remainder
      modulo 64 KiB. */
  lemma AlignmentMaskIsRemainder(x: bv64)
    ensures x & 0xFFFF == x % 0x1_0000
  {
  }

  // ---- wcnss_da_to_va ----

  /** `wcnss_da_to_va` as written: the offset into the memory region, or
      `None` for NULL. `da - mem_reloc` is a 64-bit difference, stored in an
      `int` (its low 32 bits), and `offset + len` is a 64-bit sum. */
  function DaToVaAsWritten(da: ULong, len: ULong, memReloc: ULong, memSize: ULong): (r: Option<int>)
    ensures r.Some? ==> 0 <= r.value < 0x8000_0000 && (r.value + len) % ULONG_LIMIT <= memSize
  {
    var offset := Wrap32((da - memReloc) % ULONG_LIMIT);
    if offset < 0 || (offset + len) % ULONG_LIMIT > memSize then None else Some(offset)
  }

  /** The translation the loader expects: `da` names the byte at
      `da - mem_reloc` of the region, and `[da, da + len)` must lie inside it. */
  function DaToVa(da: ULong, len: ULong, memReloc: ULong, memSize: ULong): (r: Option<int>)
    ensures r.Some? <==> memReloc <= da && da + len <= memReloc + memSize
    ensures r.Some? ==> memReloc + r.value == da && 0 <= r.value && r.value + len <= memSize
  {
    if da < memReloc || da - memReloc + len > memSize then None else Some(da - memReloc)
  }

  /** The two agree while the offset fits an `int` and the sum cannot wrap. */
  lemma DaToVaAgreesOnSmallOffsets(da: ULong, len: ULong, memReloc: ULong, memSize: ULong)
    requires memReloc <= da && da - memReloc < 0x8000_0000 && len < 0x8000_0000_0000_0000
    ensures DaToVaAsWritten(da, len, memReloc, memSize) == DaToVa(da, len, memReloc, memSize)
  {
    assert (da - memReloc) % ULONG_LIMIT == da - memReloc;
    assert (da - memReloc + len) % ULONG_LIMIT == da - memReloc + len;
  }

  /** An address 4 GiB past the region start truncates to offset 0, and a
      length that wraps the sum passes the bounds test: both are accepted as
      written, though neither range lies inside a 4 KiB region. */
  lemma DaToVaAsWrittenAcceptsOutsideRanges()
    ensures DaToVaAsWritten(0x1_0000_0000, 16, 0, 0x1000) == Some(0)
    ensures DaToVa(0x1_0000_0000, 16, 0, 0x1000) == None
    ensures DaToVaAsWritten(1, ULONG_LIMIT - 1, 0, 0x1000) == Some(1)
    ensures DaToVa(1, ULONG_LIMIT - 1, 0, 0x1000) == None
  {
  }

  // ---- wcnss_configure_iris ----

  /** The PMU configuration `wcnss_configure_iris` leaves: XO enabled, the
      XO mode field selecting 48 MHz or 19.2 MHz, everything else clear. */
  function IrisConfigured(use48MhzXo: bool): (v: bv32)
    ensures v & PMU_IRIS_XO_EN == PMU_IRIS_XO_EN
    ensures v & (PMU_IRIS_XO_CFG | PMU_IRIS_RESET | PMU_GC_BUS_MUX_SEL_TOP) == 0
    ensures (v & PMU_XO_MODE_MASK) >> 1 == (if use48MhzXo then PMU_XO_MODE_48 else PMU_XO_MODE_19P2)
  {
    if use48MhzXo then 0x16 else 0x10
  }

  /** The values `wcnss_configure_iris` writes to the PMU configuration
      register, in order. */
  function IrisWrites(use48MhzXo: bool): (w: seq<bv32>)
    ensures |w| == 7 && w[0] == 0 && w[6] == IrisConfigured(use48MhzXo)
  {
    if use48MhzXo then [0, 0x30, 0x36, 0xB6, 0x36, 0x3E, 0x16]
    else [0, 0x30, 0x30, 0xB0, 0x30, 0x38, 0x10]
  }

  /** Iris is held in reset across exactly one write, and the XO
      configuration is started only after the reset is released. */
  lemma IrisWritesPulseResetThenConfigure(use48MhzXo: bool)
    ensures var w := IrisWrites(use48MhzXo);
      && w[3] & PMU_IRIS_RESET != 0
      && w[2] & PMU_IRIS_RESET == 0 && w[4] & PMU_IRIS_RESET == 0
      && w[4] & PMU_IRIS_XO_CFG == 0 && w[5] & PMU_IRIS_XO_CFG != 0
      && w[1] == PMU_GC_BUS_MUX_SEL_TOP | PMU_IRIS_XO_EN
  {
  }

  // ---- wcnss_reset_no_pas ----

  /** The PMU registers `wcnss_reset_no_pas` changes: `CCPU_CTL` (0x2000),
      `COMMON_AHB_CBCR` (0x34), `COMMON_CPU_CBCR` (0x30), `COMMON_CSR`
      (0x1040), `COMMON_GDSCR` (0x24) and `SOFT_RESET` (0x104C). */
  datatype PmuRegs = PmuRegs(
    ccpuCtl: bv32, commonAhbCbcr: bv32, commonCpuCbcr: bv32,
    commonCsr: bv32, commonGdscr: bv32, softReset: bv32)

  /** The read-modify-writes before the clock polls: high vector table,
      AHB and CPU clocks, A2XB bridge, and common_ss power. Each sets or
      clears its named bits and keeps every other bit. */
  function CommonSsPowerUp(p: PmuRegs): (r: PmuRegs)
    ensures r.ccpuCtl & (CCPU_CTL_REMAP_EN | CCPU_CTL_HIGH_IVT) == CCPU_CTL_REMAP_EN | CCPU_CTL_HIGH_IVT
    ensures r.ccpuCtl & !(CCPU_CTL_REMAP_EN | CCPU_CTL_HIGH_IVT) == p.ccpuCtl & !(CCPU_CTL_REMAP_EN | CCPU_CTL_HIGH_IVT)
    ensures r.commonAhbCbcr & COMMON_AHB_CBCR_CLK_EN == COMMON_AHB_CBCR_CLK_EN
    ensures r.commonAhbCbcr & !COMMON_AHB_CBCR_CLK_EN == p.commonAhbCbcr & !COMMON_AHB_CBCR_CLK_EN
    ensures r.commonCpuCbcr & COMMON_CPU_CBCR_CLK_EN == COMMON_CPU_CBCR_CLK_EN
    ensures r.commonCpuCbcr & !COMMON_CPU_CBCR_CLK_EN == p.commonCpuCbcr & !COMMON_CPU_CBCR_CLK_EN
    ensures r.commonCsr & COMMON_CSR_A2XB_CFG_EN == COMMON_CSR_A2XB_CFG_EN
    ensures r.commonCsr & !COMMON_CSR_A2XB_CFG_EN == p.commonCsr & !COMMON_CSR_A2XB_CFG_EN
    ensures r.commonGdscr & COMMON_GDSCR_SW_COLLAPSE == 0
    ensures r.commonGdscr & !COMMON_GDSCR_SW_COLLAPSE == p.commonGdscr & !COMMON_GDSCR_SW_COLLAPSE
    ensures r.softReset == p.softReset
  {
    PmuRegs(
      SetBits32(p.ccpuCtl, CCPU_CTL_REMAP_EN | CCPU_CTL_HIGH_IVT),
      SetBits32(p.commonAhbCbcr, COMMON_AHB_CBCR_CLK_EN),
      SetBits32(p.commonCpuCbcr, COMMON_CPU_CBCR_CLK_EN),
      SetBits32(p.commonCsr, COMMON_CSR_A2XB_CFG_EN),
      ClearBits32(p.commonGdscr, COMMON_GDSCR_SW_COLLAPSE),
      p.softReset)
  }

  /** Deasserting the ARM9 software reset: only that bit of `SOFT_RESET`
      changes. */
  function ReleaseArm9(p: PmuRegs): (r: PmuRegs)
    ensures r.softReset & SOFT_RESET_CRCM_CCPU_SOFT_RESET == 0
    ensures r.softReset & !SOFT_RESET_CRCM_CCPU_SOFT_RESET == p.softReset & !SOFT_RESET_CRCM_CCPU_SOFT_RESET
    ensures r.(softReset := p.softReset) == p
  {
    p.(softReset := ClearBits32(p.softReset, SOFT_RESET_CRCM_CCPU_SOFT_RESET))
  }

  // ---- power domains ----

  /** What `dev_pm_domain_attach_by_name` returned for a domain. */
  datatype Domain = Device(id: nat) | ErrPtr(err: PtrErr) | NullPtr

  /** An error pointer's `PTR_ERR`. */
  type PtrErr = e: int | -4095 <= e < 0 witness -1

  /** The number of leading names given (non-NULL `pd_names` entries). */
  function NamesGiven(names: seq<bool>): (k: nat)
    requires |names| == MAX_PDS
    ensures k <= MAX_PDS && forall j :: 0 <= j < k ==> names[j]
    ensures k < MAX_PDS ==> !names[k]
  {
    FirstWhere(names, MAX_PDS, (b: bool) => !b)
  }

  /** The first of the first `k` domains that failed to attach, or `k`. */
  function FirstUnattached(attach: seq<Domain>, k: nat): (f: nat)
    requires k <= |attach|
    ensures f <= k && forall j :: 0 <= j < f ==> attach[j].Device?
    ensures f < k ==> !attach[f].Device?
  {
    FirstWhere(attach, k, (d: Domain) => !d.Device?)
  }

  /** What `wcnss_init_pds` returns: 0, the attach error, or -ENODATA for
      a NULL domain. */
  function InitPdsResult(names: seq<bool>, attach: seq<Domain>): (ret: int)
    requires |names| == MAX_PDS && |attach| == MAX_PDS
    ensures ret <= 0
    ensures ret == 0 <==> FirstUnattached(attach, NamesGiven(names)) == NamesGiven(names)
  {
    var k := NamesGiven(names);
    var f := FirstUnattached(attach, k);
    if f == k then 0
    else if attach[f].NullPtr? then -Errno.ENODATA
    else attach[f].err
  }

  /** `wcnss_probe` carries on after `wcnss_init_pds` when it succeeded, or
      failed with -ENODATA on a platform whose power-domain supplies can
      be driven as regulators instead. */
  function ProbeContinuesAfterInitPds(ret: int, numPdVregs: nat): (b: bool)
    ensures b <==> ret == 0 || (ret == -Errno.ENODATA && numPdVregs != 0)
  {
    !(ret != 0 && (ret != -Errno.ENODATA || numPdVregs == 0))
  }

  /** The probe tolerates a domain that attached as NULL (or as
      -ENODATA) when there are regulators to fall back on, and no other
      failure. */
  lemma ProbeToleratesOnlyMissingDomains(names: seq<bool>, attach: seq<Domain>, numPdVregs: nat)
    requires |names| == MAX_PDS && |attach| == MAX_PDS
    ensures var k := NamesGiven(names); var f := FirstUnattached(attach, k);
      ProbeContinuesAfterInitPds(InitPdsResult(names, attach), numPdVregs) <==>
        f == k || (numPdVregs != 0 && (attach[f].NullPtr? || attach[f] == ErrPtr(-Errno.ENODATA)))
  {
  }

  // ---- regulators ----

  /** One `struct wcnss_vreg_info` entry. */
  datatype VregInfo = VregInfo(name: string, minVoltage: int, maxVoltage: int, loadUa: int)

  /** Where `wcnss_init_regulators` starts in the table: past the power
      domain supplies when the domains are attached. */
  function RegulatorStart(numPds: nat, numVregs: nat, numPdVregs: nat): (s: nat)
    ensures s + RegulatorCount(numPds, numVregs, numPdVregs) == numVregs + numPdVregs
  {
    if numPds != 0 then numPdVregs else 0
  }

  /** How many supplies `wcnss_init_regulators` requests. */
  function RegulatorCount(numPds: nat, numVregs: nat, numPdVregs: nat): (c: nat)
    ensures numVregs <= c <= numVregs + numPdVregs
    ensures c == numVregs <==> numPds != 0 || numPdVregs == 0
  {
    if numPds != 0 then numVregs else numVregs + numPdVregs
  }

  /** The supply names of a table. */
  function SupplyNames(info: seq<VregInfo>): (names: seq<string>)
    ensures |names| == |info| && forall j :: 0 <= j < |info| ==> names[j] == info[j].name
  {
    if info == [] then [] else [info[0].name] + SupplyNames(info[1..])
  }

  /** With or without power domains, every supply that is not a power
      domain's is requested; the power-domain supplies are requested too
      exactly when no domain is attached. */
  lemma RegulatorsCoverCoreSupplies(info: seq<VregInfo>, numPds: nat, numVregs: nat, numPdVregs: nat)
    requires numVregs + numPdVregs <= |info|
    ensures var s := RegulatorStart(numPds, numVregs, numPdVregs);
      var requested := info[s..s + RegulatorCount(numPds, numVregs, numPdVregs)];
      && requested[|requested| - numVregs..] == info[numPdVregs..numPdVregs + numVregs]
      && requested[..|requested| - numVregs] == (if numPds == 0 then info[..numPdVregs] else [])
  {
  }

  // ---- wcnss_start ----

  /** The performance state `wcnss_start` votes for: INT_MAX or 0. */
  datatype PerfLevel = PerfMax | PerfZero

  /** The calls `wcnss_start` makes, as far as they acquire, release or
      drive something. A resource's enable appears only when it succeeded;
      `pm_runtime_get_sync` raises the usage count even when it fails. */
  datatype StartEvent =
    | SetPerformance(pd: nat, level: PerfLevel)
    | RuntimeGet(pd: nat)
    | RuntimePutNoIdle(pd: nat)
    | RuntimePut(pd: nat)
    | RegulatorsEnabled
    | RegulatorsDisabled
    | IrisEnabled
    | IrisDisabled
    | NvDownloadIndicated
    | IrisConfiguredEvent
    | ResetNoPasCalled
    | PasAuthAndReset
    | ShutdownNoPas
    | PasShutdown

  /** The values the calls of one `wcnss_start` return. */
  datatype StartEnv = StartEnv(
    irisRegistered: bool,
    runtimeGet: seq<int>,
    regulatorsRet: int,
    irisRet: int,
    hasReset: bool,
    resetRet: int,
    readyIrq: int,
    waitRet: int)

  /** A ready IRQ exists but did not fire before the wait ran out. */
  predicate TimedOut(env: StartEnv) {
    env.readyIrq > 0 && env.waitRet == 0
  }

  /** Voting for and resuming the first `a` domains, in order. */
  function PdAcquires(a: nat): (ev: seq<StartEvent>)
    ensures |ev| == 2 * a
  {
    if a == 0 then [] else PdAcquires(a - 1) + [SetPerformance(a - 1, PerfMax), RuntimeGet(a - 1)]
  }

  /** Releasing the first `a` domains, last first. */
  function PdReleases(a: nat): (ev: seq<StartEvent>)
    ensures |ev| == 2 * a
  {
    if a == 0 then [] else [RuntimePut(a - 1), SetPerformance(a - 1, PerfZero)] + PdReleases(a - 1)
  }

  /** Domain `k` is voted up and resumed at positions `2k` and `2k + 1`. */
  lemma {:induction false} PdAcquiresInOrder(a: nat, k: nat)
    requires k < a
    ensures PdAcquires(a)[2 * k] == SetPerformance(k, PerfMax) && PdAcquires(a)[2 * k + 1] == RuntimeGet(k)
  {
    if k < a - 1 {
      PdAcquiresInOrder(a - 1, k);
    }
  }

  /** Domain `k` is released at positions `2(a-1-k)` and `2(a-1-k) + 1`:
      the domains come back in reverse order. */
  lemma {:induction false} PdReleasesInReverseOrder(a: nat, k: nat)
    requires k < a
    ensures PdReleases(a)[2 * (a - 1 - k)] == RuntimePut(k)
    ensures PdReleases(a)[2 * (a - 1 - k) + 1] == SetPerformance(k, PerfZero)
  {
    if k < a - 1 {
      PdReleasesInReverseOrder(a - 1, k);
      assert PdReleases(a)[2 * (a - 1 - k)] == PdReleases(a - 1)[2 * (a - 2 - k)];
      assert PdReleases(a)[2 * (a - 1 - k) + 1] == PdReleases(a - 1)[2 * (a - 2 - k) + 1];
    }
  }

  /** The calls made once iris is enabled: NV download, XO
      configuration, the release from reset, and the shutdown after a
      start that timed out. */
  function BootCalls(env: StartEnv): seq<StartEvent> {
    [NvDownloadIndicated, IrisConfiguredEvent, if env.hasReset then ResetNoPasCalled else PasAuthAndReset]
    + (if env.resetRet == 0 && TimedOut(env) then [if env.hasReset then ShutdownNoPas else PasShutdown] else [])
  }

  /** Enabling iris, booting, and disabling iris again. */
  function IrisSection(env: StartEnv): seq<StartEvent> {
    if env.irisRet != 0 then [] else [IrisEnabled] + BootCalls(env) + [IrisDisabled]
  }

  /** What follows the domains when all of them resumed: the regulators
      around the iris section. */
  function AfterDomains(env: StartEnv): seq<StartEvent> {
    if env.regulatorsRet != 0 then [] else [RegulatorsEnabled] + IrisSection(env) + [RegulatorsDisabled]
  }

  /** A domain voted up whose resume failed: its usage count is dropped
      again, but its performance vote stays. */
  function FailedResume(k: nat): seq<StartEvent> {
    [SetPerformance(k, PerfMax), RuntimeGet(k), RuntimePutNoIdle(k)]
  }

  /** What happens between taking the first `a` of `n` domains and giving
      them back. */
  function BetweenDomains(env: StartEnv, a: nat, n: nat): seq<StartEvent> {
    if a < n then FailedResume(a) else AfterDomains(env)
  }

  /** The calls of `wcnss_start` over `n` attached domains. */
  function StartEvents(env: StartEnv, n: nat): seq<StartEvent>
    requires |env.runtimeGet| == n
  {
    if !env.irisRegistered then []
    else
      var a := FirstFailure(env.runtimeGet, n);
      PdAcquires(a) + BetweenDomains(env, a, n) + PdReleases(a)
  }

  /** What `wcnss_start` returns over `n` attached domains. */
  function StartResult(env: StartEnv, n: nat): int
    requires |env.runtimeGet| == n
  {
    var a := FirstFailure(env.runtimeGet, n);
    if !env.irisRegistered then -Errno.EINVAL
    else if a < n then env.runtimeGet[a]
    else if env.regulatorsRet != 0 then env.regulatorsRet
    else if env.irisRet != 0 then env.irisRet
    else if env.resetRet != 0 then env.resetRet
    else if TimedOut(env) then -Errno.ETIMEDOUT
    else 0
  }

  /** Without iris, `wcnss_start` fails with -EINVAL before touching a
      domain; otherwise it acquires domains in order and releases them in
      reverse order on every exit, success included. */
  lemma StartShape(env: StartEnv, n: nat)
    requires |env.runtimeGet| == n
    ensures !env.irisRegistered ==> StartResult(env, n) == -Errno.EINVAL && StartEvents(env, n) == []
    ensures env.irisRegistered ==>
      var a := FirstFailure(env.runtimeGet, n);
      var ev := StartEvents(env, n);
      && ev[..2 * a] == PdAcquires(a)
      && ev[|ev| - 2 * a..] == PdReleases(a)
  {
    if env.irisRegistered {
      var a := FirstFailure(env.runtimeGet, n);
      var mid := BetweenDomains(env, a, n);
      assert StartEvents(env, n) == PdAcquires(a) + mid + PdReleases(a);
    }
  }

  /** `wcnss_start` succeeds exactly when iris is registered, every call
      succeeds and the ready IRQ, if any, fired in time; a ready IRQ that
      did not fire shuts the processor down and gives -ETIMEDOUT. */
  lemma StartResultCases(env: StartEnv, n: nat)
    requires |env.runtimeGet| == n
    ensures StartResult(env, n) <= 0 || env.regulatorsRet > 0 || env.irisRet > 0 || env.resetRet > 0
    ensures StartResult(env, n) == 0 <==>
      && env.irisRegistered
      && (forall j :: 0 <= j < n ==> env.runtimeGet[j] >= 0)
      && env.regulatorsRet == 0 && env.irisRet == 0 && env.resetRet == 0
      && !TimedOut(env)
    ensures
      && env.irisRegistered
      && (forall j :: 0 <= j < n ==> env.runtimeGet[j] >= 0)
      && env.regulatorsRet == 0 && env.irisRet == 0 && env.resetRet == 0
      && TimedOut(env)
      ==>
      && StartResult(env, n) == -Errno.ETIMEDOUT
      && (if env.hasReset then ShutdownNoPas else PasShutdown) in StartEvents(env, n)
  {
    if env.irisRegistered && (forall j :: 0 <= j < n ==> env.runtimeGet[j] >= 0) {
      FirstWhereUnique(env.runtimeGet, n, r => r < 0, n);
    }
    if env.irisRegistered && FirstFailure(env.runtimeGet, n) < n {
      var a := FirstFailure(env.runtimeGet, n);
      assert env.runtimeGet[a] < 0;
    }
    if env.irisRegistered && env.regulatorsRet == 0 && env.irisRet == 0 && env.resetRet == 0 && TimedOut(env)
       && FirstFailure(env.runtimeGet, n) == n {
      var s := if env.hasReset then ShutdownNoPas else PasShutdown;
      assert BootCalls(env)[3] == s;
      assert IrisSection(env)[4] == s;
      assert AfterDomains(env)[5] == s;
      assert StartEvents(env, n) == PdAcquires(n) + AfterDomains(env) + PdReleases(n);
    }
  }

  /** The resources `wcnss_start` takes and gives back. */
  datatype Resource = DomainUsage(pd: nat) | Regulators | IrisChip

  /** How an event changes the hold count of `r`. */
  function Step(e: StartEvent, r: Resource): int {
    match e
    case RuntimeGet(k) => if r == DomainUsage(k) then 1 else 0
    case RuntimePut(k) => if r == DomainUsage(k) then -1 else 0
    case RuntimePutNoIdle(k) => if r == DomainUsage(k) then -1 else 0
    case RegulatorsEnabled => if r == Regulators then 1 else 0
    case RegulatorsDisabled => if r == Regulators then -1 else 0
    case IrisEnabled => if r == IrisChip then 1 else 0
    case IrisDisabled => if r == IrisChip then -1 else 0
    case _ => 0
  }

  /** The net hold count of `r` over a sequence of events. */
  function Net(ev: seq<StartEvent>, r: Resource): int {
    if ev == [] then 0 else Net(ev[..|ev| - 1], r) + Step(ev[|ev| - 1], r)
  }

  lemma {:induction false} NetConcat(a: seq<StartEvent>, b: seq<StartEvent>, r: Resource)
    ensures Net(a + b, r) == Net(a, r) + Net(b, r)
  {
    if b == [] {
      assert a + b == a;
    } else {
      assert (a + b)[..|a + b| - 1] == a + b[..|b| - 1];
      assert (a + b)[|a + b| - 1] == b[|b| - 1];
      NetConcat(a, b[..|b| - 1], r);
    }
  }

  lemma NetSingle(e: StartEvent, r: Resource)
    ensures Net([e], r) == Step(e, r)
  {
    assert [e][..0] == [];
  }

  /** A section opened by `o` and closed by `c`. */
  lemma NetBracketed(o: StartEvent, mid: seq<StartEvent>, c: StartEvent, r: Resource)
    ensures Net([o] + mid + [c], r) == Step(o, r) + Net(mid, r) + Step(c, r)
  {
    NetConcat([o] + mid, [c], r);
    NetConcat([o], mid, r);
    NetSingle(o, r);
    NetSingle(c, r);
  }

  /** Events that take and give back nothing leave every count alone. */
  lemma {:induction false} NetNeutral(ev: seq<StartEvent>, r: Resource)
    requires forall j :: 0 <= j < |ev| ==> Step(ev[j], r) == 0
    ensures Net(ev, r) == 0
  {
    if ev != [] {
      NetNeutral(ev[..|ev| - 1], r);
    }
  }

  lemma {:induction false} PdAcquiresNet(a: nat, r: Resource)
    ensures Net(PdAcquires(a), r) == (if r.DomainUsage? && r.pd < a then 1 else 0)
  {
    if a > 0 {
      NetConcat(PdAcquires(a - 1), [SetPerformance(a - 1, PerfMax), RuntimeGet(a - 1)], r);
      NetConcat([SetPerformance(a - 1, PerfMax)], [RuntimeGet(a - 1)], r);
      assert [SetPerformance(a - 1, PerfMax)] + [RuntimeGet(a - 1)] == [SetPerformance(a - 1, PerfMax), RuntimeGet(a - 1)];
      NetSingle(SetPerformance(a - 1, PerfMax), r);
      NetSingle(RuntimeGet(a - 1), r);
      PdAcquiresNet(a - 1, r);
    }
  }

  lemma {:induction false} PdReleasesNet(a: nat, r: Resource)
    ensures Net(PdReleases(a), r) == (if r.DomainUsage? && r.pd < a then -1 else 0)
  {
    if a > 0 {
      NetConcat([RuntimePut(a - 1), SetPerformance(a - 1, PerfZero)], PdReleases(a - 1), r);
      NetConcat([RuntimePut(a - 1)], [SetPerformance(a - 1, PerfZero)], r);
      assert [RuntimePut(a - 1)] + [SetPerformance(a - 1, PerfZero)] == [RuntimePut(a - 1), SetPerformance(a - 1, PerfZero)];
      NetSingle(RuntimePut(a - 1), r);
      NetSingle(SetPerformance(a - 1, PerfZero), r);
      PdReleasesNet(a - 1, r);
    }
  }

  /** A failed resume drops the usage count it raised. */
  lemma FailedResumeNet(k: nat, r: Resource)
    ensures Net(FailedResume(k), r) == 0
  {
    var ev := FailedResume(k);
    assert ev == [SetPerformance(k, PerfMax)] + [RuntimeGet(k)] + [RuntimePutNoIdle(k)];
    NetConcat([SetPerformance(k, PerfMax)] + [RuntimeGet(k)], [RuntimePutNoIdle(k)], r);
    NetConcat([SetPerformance(k, PerfMax)], [RuntimeGet(k)], r);
    NetSingle(SetPerformance(k, PerfMax), r);
    NetSingle(RuntimeGet(k), r);
    NetSingle(RuntimePutNoIdle(k), r);
  }

  /** The boot calls neither take nor give back anything. */
  lemma BootCallsNet(env: StartEnv, r: Resource)
    ensures Net(BootCalls(env), r) == 0
  {
    var ev := BootCalls(env);
    assert forall j :: 0 <= j < |ev| ==> Step(ev[j], r) == 0;
    NetNeutral(ev, r);
  }

  lemma IrisSectionNet(env: StartEnv, r: Resource)
    ensures Net(IrisSection(env), r) == 0
  {
    if env.irisRet == 0 {
      NetBracketed(IrisEnabled, BootCalls(env), IrisDisabled, r);
      BootCallsNet(env, r);
    }
  }

  lemma AfterDomainsNet(env: StartEnv, r: Resource)
    ensures Net(AfterDomains(env), r) == 0
  {
    if env.regulatorsRet == 0 {
      NetBracketed(RegulatorsEnabled, IrisSection(env), RegulatorsDisabled, r);
      IrisSectionNet(env, r);
    }
  }

  /** Every exit of `wcnss_start` gives back what it took: each domain's
      usage count, the regulators and iris end where they started. */
  lemma StartIsBalanced(env: StartEnv, n: nat, r: Resource)
    requires |env.runtimeGet| == n
    ensures Net(StartEvents(env, n), r) == 0
  {
    if env.irisRegistered {
      var a := FirstFailure(env.runtimeGet, n);
      var mid := BetweenDomains(env, a, n);
      NetConcat(PdAcquires(a) + mid, PdReleases(a), r);
      NetConcat(PdAcquires(a), mid, r);
      PdAcquiresNet(a, r);
      PdReleasesNet(a, r);
      if a < n {
        FailedResumeNet(a, r);
      } else {
        AfterDomainsNet(env, r);
      }
    }
  }

  // ---- wcnss_request_irq ----

  /** `wcnss_request_irq` over what `platform_get_irq_byname` and
      `devm_request_threaded_irq` return. */
  function RequestIrq(getIrq: int, optional: bool, requestRet: int): (ret: int)
    ensures getIrq < 0 && optional ==> ret == 0
    ensures getIrq < 0 && !optional ==> ret == getIrq
    ensures getIrq >= 0 && requestRet != 0 ==> ret == requestRet
    ensures getIrq >= 0 && requestRet == 0 ==> ret == getIrq
  {
    if getIrq < 0 && optional then 0
    else if getIrq < 0 then getIrq
    else if requestRet != 0 then requestRet
    else getIrq
  }

  /** With an IRQ lookup that never yields 0 and a request that returns 0 or
      an error, the result tells the three outcomes apart: an IRQ number,
      no IRQ (optional only), or an error. */
  lemma RequestIrqOutcomes(getIrq: int, optional: bool, requestRet: int)
    requires getIrq != 0 && requestRet <= 0
    ensures RequestIrq(getIrq, optional, requestRet) > 0 <==> getIrq > 0 && requestRet == 0
    ensures RequestIrq(getIrq, optional, requestRet) > 0 ==> RequestIrq(getIrq, optional, requestRet) == getIrq
    ensures RequestIrq(getIrq, optional, requestRet) == 0 <==> getIrq < 0 && optional
    ensures RequestIrq(getIrq, optional, requestRet) < 0 <==> (getIrq < 0 && !optional) || (getIrq > 0 && requestRet < 0)
  {
  }

  // ---- the device ----

  /** `struct qcom_wcnss`: the registers it drives and the resources it holds. */
  class Wcnss {
    /** `mem_phys`, the region's physical start. */
    const memPhys: ULong
    /** Whether `reset_control_deassert` has released the subsystem reset. */
    var resetDeasserted: bool
    /** The spare output register. */
    var spareOut: bv32
    /** Every value written to the PMU configuration register. */
    var pmuCfgWrites: seq<bv32>
    /** `WCNSS_PMU_CCPU_BOOT_REMAP_ADDR`, 0x2004. */
    var bootRemapAddr: U32
    /** The PMU registers `wcnss_reset_no_pas` read-modify-writes. */
    var pmu: PmuRegs
    /** `pds[WCNSS_MAX_PDS]` and `num_pds`. */
    const pds: array<Domain>
    var numPds: nat
    /** The domains detached so far, in order. */
    var detached: seq<Domain>
    /** `vregs` (supply names) and `num_vregs`. */
    var vregs: seq<string>
    var numVregs: nat
    /** The calls `wcnss_start` made, in order. */
    var events: seq<StartEvent>

    predicate Valid()
      reads this
    {
      pds.Length == MAX_PDS
    }

    /** `wcnss_probe`'s zeroed allocation, with the region at `phys`. */
    constructor (phys: ULong)
      ensures Valid() && fresh(pds) && memPhys == phys
      ensures pds[..] == [NullPtr, NullPtr] && numPds == 0 && detached == []
      ensures vregs == [] && numVregs == 0 && events == [] && pmuCfgWrites == [] && !resetDeasserted
    {
      memPhys := phys;
      resetDeasserted := false;
      spareOut := 0;
      pmuCfgWrites := [];
      bootRemapAddr := 0;
      pmu := PmuRegs(0, 0, 0, 0, 0, 0);
      pds := new Domain[MAX_PDS](_ => NullPtr);
      numPds := 0;
      detached := [];
      vregs := [];
      numVregs := 0;
      events := [];
    }

    /** `wcnss_indicate_nv_download`. */
    method IndicateNvDownload()
      modifies this`spareOut
      ensures spareOut == SetBits32(old(spareOut), SPARE_NVBIN_DLND)
    {
      var val := spareOut;
      val := val | SPARE_NVBIN_DLND;
      spareOut := val;
    }

    /** `wcnss_configure_iris`; the status polls are taken to finish. */
    method ConfigureIris(use48MhzXo: bool)
      modifies this`pmuCfgWrites
      ensures pmuCfgWrites == old(pmuCfgWrites) + IrisWrites(use48MhzXo)
    {
      pmuCfgWrites := pmuCfgWrites + [0];
      var val: bv32 := PMU_GC_BUS_MUX_SEL_TOP | PMU_IRIS_XO_EN;
      pmuCfgWrites := pmuCfgWrites + [val];
      val := val & !PMU_XO_MODE_MASK;
      if use48MhzXo {
        val := val | (PMU_XO_MODE_48 << 1);
      } else {
        val := val | (PMU_XO_MODE_19P2 << 1);
      }
      pmuCfgWrites := pmuCfgWrites + [val];
      val := val | PMU_IRIS_RESET;
      pmuCfgWrites := pmuCfgWrites + [val];
      val := val & !PMU_IRIS_RESET;
      pmuCfgWrites := pmuCfgWrites + [val];
      val := val | PMU_IRIS_XO_CFG;
      pmuCfgWrites := pmuCfgWrites + [val];
      val := val & !PMU_GC_BUS_MUX_SEL_TOP;
      val := val & !PMU_IRIS_XO_CFG;
      pmuCfgWrites := pmuCfgWrites + [val];
    }

    /** `wcnss_reset_no_pas` over the results of `reset_control_deassert`
        and of the two clock polls. */
    method ResetNoPas(deassertRet: int, ahbPollRet: int, cpuPollRet: int) returns (ret: int)
      modifies this`resetDeasserted, this`bootRemapAddr, this`pmu
      ensures memPhys % BOOT_REMAP_UNIT != 0 ==> ret == -Errno.EINVAL
      ensures memPhys % BOOT_REMAP_UNIT == 0 ==> ret == (if deassertRet != 0 then deassertRet else if ahbPollRet != 0 then ahbPollRet else cpuPollRet)
      ensures memPhys % BOOT_REMAP_UNIT != 0 || deassertRet != 0 ==>
        resetDeasserted == old(resetDeasserted) && bootRemapAddr == old(bootRemapAddr) && pmu == old(pmu)
      ensures memPhys % BOOT_REMAP_UNIT == 0 && deassertRet == 0 ==>
        && resetDeasserted && bootRemapAddr == BootRemap(memPhys)
        && pmu == (if ret == 0 then ReleaseArm9(CommonSsPowerUp(old(pmu))) else CommonSsPowerUp(old(pmu)))
    {
      if memPhys % BOOT_REMAP_UNIT != 0 {
        return -Errno.EINVAL;
      }
      if deassertRet != 0 {
        return deassertRet;
      }
      resetDeasserted := true;
      bootRemapAddr := BootRemap(memPhys);
      pmu := CommonSsPowerUp(pmu);
      if ahbPollRet != 0 {
        return ahbPollRet;
      }
      if cpuPollRet != 0 {
        return cpuPollRet;
      }
      pmu := ReleaseArm9(pmu);
      return 0;
    }

    /** `wcnss_init_pds`: attach the named domains in order; on a failure,
        detach the ones already attached, last first. */
    method InitPds(names: seq<bool>, attach: seq<Domain>) returns (ret: int)
      requires Valid() && |names| == MAX_PDS && |attach| == MAX_PDS
      modifies pds, this`numPds, this`detached
      ensures ret == InitPdsResult(names, attach)
      ensures var k := NamesGiven(names); var f := FirstUnattached(attach, k);
        if f == k then
          && numPds == k && pds[..k] == attach[..k] && pds[k..] == old(pds[k..]) && detached == old(detached)
        else
          && numPds == old(numPds) && pds[..f + 1] == attach[..f + 1] && pds[f + 1..] == old(pds[f + 1..])
          && detached == old(detached) + Reversed(attach[..f])
    {
      var i := 0;
      while i < MAX_PDS
        invariant 0 <= i <= MAX_PDS
        invariant forall j :: 0 <= j < i ==> names[j] && attach[j].Device?
        invariant pds[..i] == attach[..i] && pds[i..] == old(pds[i..])
        invariant numPds == old(numPds) && detached == old(detached)
      {
        if !names[i] {
          break;
        }
        pds[i] := attach[i];
        if !pds[i].Device? {
          ret := if pds[i].NullPtr? then -Errno.ENODATA else pds[i].err;
          FirstWhereUnique(names, MAX_PDS, (b: bool) => !b, NamesGiven(names));
          assert NamesGiven(names) > i;
          FirstWhereUnique(attach, NamesGiven(names), (d: Domain) => !d.Device?, i);
          assert pds[..i] == attach[..i];
          DetachAttached(i);
          return;
        }
        i := i + 1;
      }
      FirstWhereUnique(names, MAX_PDS, (b: bool) => !b, i);
      FirstWhereUnique(attach, i, (d: Domain) => !d.Device?, i);
      numPds := i;
      ret := 0;
    }

    /** The rollback in `wcnss_init_pds`: detach the first `n` domains,
        last first. */
    method DetachAttached(n: nat)
      requires Valid() && n <= MAX_PDS
      modifies this`detached
      ensures detached == old(detached) + Reversed(pds[..n])
    {
      var j := n;
      while j > 0
        invariant 0 <= j <= n
        invariant detached == old(detached) + Reversed(pds[j..n])
      {
        j := j - 1;
        assert pds[j..n][1..] == pds[j + 1..n];
        assert Reversed(pds[j..n]) == Reversed(pds[j + 1..n]) + [pds[j]];
        AppendAssoc(old(detached), Reversed(pds[j + 1..n]), [pds[j]]);
        detached := detached + [pds[j]];
      }
      assert pds[0..n] == pds[..n];
    }

    /** `wcnss_release_pds`: detach the attached domains in order. */
    method ReleasePds()
      requires Valid() && numPds <= MAX_PDS
      modifies this`detached
      ensures detached == old(detached) + pds[..numPds]
    {
      var i := 0;
      while i < numPds
        invariant 0 <= i <= numPds
        invariant detached == old(detached) + pds[..i]
      {
        assert pds[..i + 1] == pds[..i] + [pds[i]];
        detached := detached + [pds[i]];
        i := i + 1;
      }
    }

    /** `wcnss_init_regulators` over whether `devm_kcalloc` succeeded and
        what `devm_regulator_bulk_get` returns. */
    method InitRegulators(info: seq<VregInfo>, nVregs: nat, nPdVregs: nat, allocOk: bool, getRet: int) returns (ret: int)
      requires nVregs + nPdVregs <= |info|
      modifies this`vregs, this`numVregs
      ensures !allocOk ==> ret == -Errno.ENOMEM && vregs == old(vregs) && numVregs == old(numVregs)
      ensures allocOk && getRet != 0 ==> ret == getRet && vregs == old(vregs) && numVregs == old(numVregs)
      ensures allocOk && getRet == 0 ==>
        var s := RegulatorStart(numPds, nVregs, nPdVregs);
        && ret == 0 && numVregs == RegulatorCount(numPds, nVregs, nPdVregs)
        && vregs == SupplyNames(info[s..s + numVregs])
    {
      var s := RegulatorStart(numPds, nVregs, nPdVregs);
      var count := RegulatorCount(numPds, nVregs, nPdVregs);
      if !allocOk {
        return -Errno.ENOMEM;
      }
      var bulk: seq<string> := [];
      var i := 0;
      while i < count
        invariant 0 <= i <= count
        invariant bulk == SupplyNames(info[s..s + i])
      {
        bulk := bulk + [info[s + i].name];
        i := i + 1;
      }
      if getRet != 0 {
        return getRet;
      }
      vregs := bulk;
      numVregs := count;
      return 0;
    }

    /** The domain loop of `wcnss_start`: vote each domain up and resume
        it, stopping at the first that fails to resume. */
    method AcquireDomains(env: StartEnv) returns (acquired: nat, ret: int)
      requires |env.runtimeGet| == numPds
      modifies this`events
      ensures acquired == FirstFailure(env.runtimeGet, numPds)
      ensures acquired < numPds ==> ret == env.runtimeGet[acquired]
      ensures events == old(events) + PdAcquires(acquired)
        + (if acquired < numPds then FailedResume(acquired) else [])
    {
      var i := 0;
      var failed := false;
      ret := 0;
      while i < numPds && !failed
        invariant 0 <= i <= numPds
        decreases numPds - i, !failed
        invariant forall j :: 0 <= j < i ==> env.runtimeGet[j] >= 0
        invariant !failed ==> events == old(events) + PdAcquires(i)
        invariant failed ==> i < numPds && env.runtimeGet[i] < 0 && ret == env.runtimeGet[i]
        invariant failed ==> events == old(events) + PdAcquires(i) + FailedResume(i)
      {
        events := events + [SetPerformance(i, PerfMax), RuntimeGet(i)];
        if env.runtimeGet[i] < 0 {
          events := events + [RuntimePutNoIdle(i)];
          ret := env.runtimeGet[i];
          failed := true;
        } else {
          i := i + 1;
        }
      }
      FirstWhereUnique(env.runtimeGet, numPds, r => r < 0, i);
      acquired := i;
      if !failed {
        assert events == events + [];
      }
    }

    /** The part of `wcnss_start` after the domains: regulators, iris, the
        boot, and the `disable_iris` and `disable_regulators` exits. */
    method EnableAndBoot(env: StartEnv) returns (ret: int)
      modifies this`events
      ensures events == old(events) + AfterDomains(env)
      ensures ret == (if env.regulatorsRet != 0 then env.regulatorsRet
                      else if env.irisRet != 0 then env.irisRet
                      else if env.resetRet != 0 then env.resetRet
                      else if TimedOut(env) then -Errno.ETIMEDOUT
                      else 0)
    {
      if env.regulatorsRet != 0 {
        return env.regulatorsRet;
      }
      events := events + [RegulatorsEnabled];
      if env.irisRet != 0 {
        ret := env.irisRet;
      } else {
        events := events + [IrisEnabled, NvDownloadIndicated, IrisConfiguredEvent];
        events := events + [if env.hasReset then ResetNoPasCalled else PasAuthAndReset];
        if env.resetRet != 0 {
          ret := env.resetRet;
        } else if TimedOut(env) {
          events := events + [if env.hasReset then ShutdownNoPas else PasShutdown];
          ret := -Errno.ETIMEDOUT;
        } else {
          ret := 0;
        }
        events := events + [IrisDisabled];
        assert events == old(events) + [RegulatorsEnabled] + IrisSection(env);
      }
      events := events + [RegulatorsDisabled];
    }

    /** The `disable_pds` exit of `wcnss_start`: release the first `a`
        domains, last first. */
    method ReleaseDomains(a: nat)
      modifies this`events
      ensures events == old(events) + PdReleases(a)
    {
      var j := a;
      while j > 0
        invariant 0 <= j <= a
        invariant events + PdReleases(j) == old(events) + PdReleases(a)
      {
        j := j - 1;
        events := events + [RuntimePut(j), SetPerformance(j, PerfZero)];
      }
      assert events + PdReleases(0) == events;
    }

    /** `wcnss_start` over the results its calls return. */
    method Start(env: StartEnv) returns (ret: int)
      requires |env.runtimeGet| == numPds
      modifies this`events
      ensures events == old(events) + StartEvents(env, numPds)
      ensures ret == StartResult(env, numPds)
    {
      if !env.irisRegistered {
        return -Errno.EINVAL;
      }
      var acquired;
      acquired, ret := AcquireDomains(env);
      if acquired == numPds {
        ghost var taken := events;
        ret := EnableAndBoot(env);
        assert events == taken + BetweenDomains(env, acquired, numPds);
      }
      ghost var between := events;
      assert between == old(events) + PdAcquires(acquired) + BetweenDomains(env, acquired, numPds);
      ReleaseDomains(acquired);
      AppendAssoc(old(events), PdAcquires(acquired), BetweenDomains(env, acquired, numPds));
      AppendAssoc(old(events), PdAcquires(acquired) + BetweenDomains(env, acquired, numPds), PdReleases(acquired));
    }
  }

  /** The value written to the boot remap register: `mem_phys >> 16`,
      truncated to 32 bits by `writel`. */
  function BootRemap(memPhys: ULong): (r: U32)
    ensures memPhys < 0x1_0000_0000_0000 ==> r == memPhys / BOOT_REMAP_UNIT
  {
    (memPhys / BOOT_REMAP_UNIT) % 0x1_0000_0000
  }

  /** For a 64 KiB-aligned start below 2^48 the boot remap register names
      exactly the region's start. */
  lemma BootRemapNamesStart(memPhys: ULong)
    requires memPhys % BOOT_REMAP_UNIT == 0 && memPhys < 0x1_0000_0000_0000
    ensures BootRemap(memPhys) * BOOT_REMAP_UNIT == memPhys
  {
  }
}
