# msm8916 mainline fragment: verified Dafny model

This project models a dozen small pieces of sequential logic from an msm8916
mainline Linux tree and proves what each of them promises:

- the Qualcomm WCNSS remote processor loader (`qcom_wcnss.c`):
  - the device-address translation;
  - the 64 KiB boot-address check and the PMU read-modify-writes of the reset path;
  - the iris XO configuration;
  - power-domain attach and rollback, and regulator counting;
  - the acquire/release structure of `wcnss_start`, and IRQ lookup;
- three input and sensor drivers:
  - the Himax HX852x touchscreen event buffer and key state;
  - the MStar MSG26xx touch frame, checksum and coordinates;
  - the Capella CM36652 register encodings, interrupt direction and setup sequence;
- the SGM3140/SGM3785 flash LED state machine;
- the ASUS P024 RM27013 DSI panel's prepare/unprepare state and write sequences;
- kernel header helpers:
  - thread flags and `set_restart_fn`;
  - x86 `GDT_ENTRY` and vDSO CPU/node encoding;
  - the TLB-flush-pending counter, `page_private` and `PAGE_ALIGN`;
  - KASAN page tags;
  - the cgroup BPF attach-type mapping;
  - conntrack reference counting.

Each source file is one module:
`QcomWcnss`, `Hx852x`, `Cm36652`, `Sgm3140`, `Msg26xx`, `Rm27013`,
`ThreadInfoApi`, `SegmentApi`, `MmApi`, `BpfCgroupTypes`, `MmKasan`,
`ConntrackCommon`. Shared modules: `Arith` (machine integer ranges, powers of
two, division facts, 32-bit set/clear helpers), `Retvals` (first failure of a
call sequence, reversal), `Errno` and `Wrappers` (`Option`).

Modelling conventions:

- Calls into other kernel subsystems are parameters holding the value the call
  returns. This covers register reads, I2C/DSI/regmap transfers, regulators,
  GPIO, PWM, reset control, power domains, the secure monitor and completion
  waits.
- Effects on the outside world are fields or event logs that the methods
  append to.
- Objects the source updates in place are classes whose methods state their
  whole new state. These are `struct thread_info`, `struct mm_struct`,
  `struct page`, `struct nf_conntrack`, the HX852x, SGM3140, RM27013 and
  WCNSS device state, and the DRM connector.
- Pure macros and expressions are functions. Loops in the source are `while`
  loops with invariants: `mstar_checksum`, the domain loops of
  `wcnss_init_pds`, `wcnss_release_pds` and `wcnss_start`, the key and
  finger loops of the HX852x driver, and `for_each_cgroup_storage_type`.
- Machine integers are explicit. `int` is `Int32` with `Wrap32`
  wrap-around, `unsigned long` is `ULong` below 2^64, and register words
  and flag words are `bv32`/`bv64`.

## Model

| member | source | states |
|---|---|---|
| QcomWcnss.RegisterBits | drivers/remoteproc/qcom_wcnss.c:43-83 | the register masks are the bits their names give: NVBIN_DLND bit 25, XO_CFG 3, XO_EN 4, GC_BUS_MUX 5, IRIS_RESET 7, XO_MODE bits 2:1, CCPU soft reset bit 10 |
| QcomWcnss.AlignmentMaskIsRemainder | drivers/remoteproc/qcom_wcnss.c:273 | `start_addr & (BIT(16) - 1)` is `start_addr mod 64 KiB`, so the test rejects exactly the addresses that are not 64 KiB aligned |
| QcomWcnss.DaToVaAsWritten | drivers/remoteproc/qcom_wcnss.c:475-485 | with `offset` an `int`, a returned offset lies in `0..2^31-1` and the 64-bit sum `offset + len` is at most `mem_size` |
| QcomWcnss.DaToVa | drivers/remoteproc/qcom_wcnss.c:475-485 | the translation succeeds exactly when `[da, da+len)` lies inside `[mem_reloc, mem_reloc+mem_size)`, and then `mem_reloc + offset == da` |
| QcomWcnss.DaToVaAgreesOnSmallOffsets | drivers/remoteproc/qcom_wcnss.c:478-482 | while `da - mem_reloc` fits an `int` and `len` is below 2^63, the code as written and the intended check give the same answer |
| QcomWcnss.DaToVaAsWrittenAcceptsOutsideRanges | drivers/remoteproc/qcom_wcnss.c:478-482 | `da` 4 GiB past the region truncates to offset 0 and is accepted; a `len` of 2^64-1 wraps the sum and is accepted; the intended check refuses both |
| QcomWcnss.IrisConfigured | drivers/remoteproc/qcom_wcnss.c:250-260 | the final PMU config value has XO_EN set, XO_CFG, IRIS_RESET and GC_BUS_MUX clear, and XO_MODE 3 with a 48 MHz XO or 0 otherwise |
| QcomWcnss.IrisWrites | drivers/remoteproc/qcom_wcnss.c:223-260 | `wcnss_configure_iris` writes seven values, the first 0 and the last the configured value above |
| QcomWcnss.IrisWritesPulseResetThenConfigure | drivers/remoteproc/qcom_wcnss.c:226-260 | the first non-zero write selects the top bus mux with XO enabled; IRIS_RESET is held in the fourth write only; XO_CFG is clear in the fifth write and raised in the sixth, after the reset is released |
| QcomWcnss.Wcnss.IndicateNvDownload | drivers/remoteproc/qcom_wcnss.c:209-217 | the spare register gets bit 25 set and every other bit kept |
| QcomWcnss.Wcnss.ConfigureIris | drivers/remoteproc/qcom_wcnss.c:219-264 | the PMU config register receives exactly the seven `IrisWrites` values, in order |
| QcomWcnss.CommonSsPowerUp | drivers/remoteproc/qcom_wcnss.c:288-315 | each read-modify-write before the clock polls sets or clears its named bit and leaves every other bit of that register, and the soft-reset register, unchanged |
| QcomWcnss.ReleaseArm9 | drivers/remoteproc/qcom_wcnss.c:330-334 | the last read-modify-write clears only the CCPU soft-reset bit and changes no other register |
| QcomWcnss.Wcnss.ResetNoPas | drivers/remoteproc/qcom_wcnss.c:266-337 | an unaligned `mem_phys` gives -EINVAL before anything is touched; a failed deassert writes nothing; otherwise the boot remap gets `mem_phys >> 16`, the PMU takes the power-up changes, and the ARM9 reset is released only when both polls succeed |
| QcomWcnss.BootRemap | drivers/remoteproc/qcom_wcnss.c:285-286 | for any address below 2^48 the value written is the 64 KiB unit number `mem_phys / 65536` |
| QcomWcnss.BootRemapNamesStart | drivers/remoteproc/qcom_wcnss.c:273-286 | for an aligned start below 2^48 the remap value times 64 KiB is the start address |
| QcomWcnss.NamesGiven | drivers/remoteproc/qcom_wcnss.c:556-558 | the loop visits the leading non-NULL names and never more than `WCNSS_MAX_PDS` |
| QcomWcnss.FirstUnattached | drivers/remoteproc/qcom_wcnss.c:560-561 | the index of the first domain that attached as an error or NULL, every earlier one a device |
| QcomWcnss.InitPdsResult | drivers/remoteproc/qcom_wcnss.c:556-570 | `wcnss_init_pds` returns 0 exactly when every named domain attached, otherwise a negative value: the `PTR_ERR` or -ENODATA for NULL |
| QcomWcnss.Wcnss.InitPds | drivers/remoteproc/qcom_wcnss.c:551-571 | on success `num_pds` is the number of names and `pds` holds the attached domains; on a failure `num_pds` is left alone and exactly the domains attached before it are detached, last first |
| QcomWcnss.Wcnss.DetachAttached | drivers/remoteproc/qcom_wcnss.c:563-564 | the rollback detaches the first `n` domains in reverse order |
| QcomWcnss.Wcnss.ReleasePds | drivers/remoteproc/qcom_wcnss.c:573-579 | every attached domain is detached once, in order |
| QcomWcnss.ProbeContinuesAfterInitPds | drivers/remoteproc/qcom_wcnss.c:780-782 | probe goes on after `wcnss_init_pds` iff it returned 0, or -ENODATA with `num_pd_vregs != 0` |
| QcomWcnss.ProbeToleratesOnlyMissingDomains | drivers/remoteproc/qcom_wcnss.c:561-562 | probe goes on after `wcnss_init_pds` iff every named domain attached, or the first failing one was NULL or an -ENODATA error pointer and there are regulator fallbacks |
| QcomWcnss.RegulatorStart | drivers/remoteproc/qcom_wcnss.c:594-597 | the requested supplies end at `num_vregs + num_pd_vregs` in the table |
| QcomWcnss.RegulatorCount | drivers/remoteproc/qcom_wcnss.c:594-597 | `num_vregs` supplies with power domains attached, `num_vregs + num_pd_vregs` without |
| QcomWcnss.RegulatorsCoverCoreSupplies | drivers/remoteproc/qcom_wcnss.c:594-606 | the `num_vregs` core supplies after the `num_pd_vregs` power-domain supplies are always requested; the power-domain supplies are requested before them exactly when no domain is attached |
| QcomWcnss.Wcnss.InitRegulators | drivers/remoteproc/qcom_wcnss.c:581-626 | -ENOMEM or the bulk-get error leave `vregs`/`num_vregs` unchanged; on success they hold the names of exactly the requested table slice and its count |
| QcomWcnss.PdAcquiresInOrder | drivers/remoteproc/qcom_wcnss.c:379-381 | domain `k` is voted to INT_MAX and resumed at positions `2k` and `2k+1` of the log |
| QcomWcnss.PdReleasesInReverseOrder | drivers/remoteproc/qcom_wcnss.c:435-438 | the domains are put and voted to 0 in reverse order of acquisition |
| QcomWcnss.StartShape | drivers/remoteproc/qcom_wcnss.c:372-442 | without iris `wcnss_start` returns -EINVAL and makes no call; otherwise the log starts with the acquisition of the resumed domains and ends with their release in reverse order |
| QcomWcnss.StartResultCases | drivers/remoteproc/qcom_wcnss.c:379-428 | the result is 0 exactly when iris exists, every call succeeds and no ready IRQ timed out; a timeout shuts the processor down (no-PAS or PAS path) and gives -ETIMEDOUT |
| QcomWcnss.StartIsBalanced | drivers/remoteproc/qcom_wcnss.c:379-438 | on every exit each domain usage count, the regulators and iris are given back as often as they were taken |
| QcomWcnss.Wcnss.AcquireDomains | drivers/remoteproc/qcom_wcnss.c:379-386 | the domains are voted up and resumed in order up to the first failing resume, whose usage count is dropped again and whose error is returned |
| QcomWcnss.Wcnss.EnableAndBoot | drivers/remoteproc/qcom_wcnss.c:388-433 | regulators, iris, NV download, XO configuration and the no-PAS or PAS boot in order, each enable undone on the way out; the result is the first failing step's error, -ETIMEDOUT after a missed ready IRQ, else 0 |
| QcomWcnss.Wcnss.ReleaseDomains | drivers/remoteproc/qcom_wcnss.c:434-438 | the `disable_pds` loop releases the acquired domains last first |
| QcomWcnss.Wcnss.Start | drivers/remoteproc/qcom_wcnss.c:367-443 | the calls made are `StartEvents` and the result `StartResult`, so the lemmas above hold of every run |
| QcomWcnss.RequestIrq | drivers/remoteproc/qcom_wcnss.c:628-659 | a missing optional IRQ gives 0, a missing required IRQ its error, a failed request its error, and a successful request the IRQ number |
| QcomWcnss.RequestIrqOutcomes | drivers/remoteproc/qcom_wcnss.c:637-658 | the result is positive iff the IRQ exists and was requested, and then it is the IRQ number; 0 iff an optional IRQ is missing |
| Hx852x.Align4 | drivers/input/touchscreen/himax_hx852x.c:22 | `ALIGN(n, 4)` is the least multiple of 4 not below `n` |
| Hx852x.BufferLayout | drivers/input/touchscreen/himax_hx852x.c:21-25 | widths start at `4*f`, the touch info at `4*f + ALIGN(f,4)`, aligned, and the buffer ends after it: `4f + ALIGN(f,4) + 4` |
| Hx852x.MaxBufSize | drivers/input/touchscreen/himax_hx852x.c:27-29 | the 12-finger buffer is 64 bytes and every supported finger count fits in it |
| Hx852x.DecodeFrame | drivers/input/touchscreen/himax_hx852x.c:302-312 | the handler's view of the buffer: `f` coordinates, `f` widths and the touch info |
| Hx852x.CoordsBytesAt | drivers/input/touchscreen/himax_hx852x.c:83-86 | the big-endian coordinate `i` sits at byte offset `4i` |
| Hx852x.DecodeFrameBytes | drivers/input/touchscreen/himax_hx852x.c:296-312 | decoding the buffer the controller fills for a frame gives back that frame |
| Hx852x.CurrentKey | drivers/input/touchscreen/himax_hx852x.c:314-316 | the current key is below 0x0F: the top nibble with 0x0F turned into 0 |
| Hx852x.CurrentKeyIsTopNibble | drivers/input/touchscreen/himax_hx852x.c:314-316 | the key is `finger_pressed >> 12`, independent of the twelve finger bits, with 0x0F normalised to 0 |
| Hx852x.EffectivePressed | drivers/input/touchscreen/himax_hx852x.c:318-319 | `finger_pressed` is zeroed exactly when `finger_num` is 0xFF or has a zero low nibble, and kept unchanged otherwise |
| Hx852x.AnyFingerBelowIff | drivers/input/touchscreen/himax_hx852x.c:280 | the recursive "some finger bit below `n`" is exactly the existence of a set bit below `n` |
| Hx852x.PathChoice | drivers/input/touchscreen/himax_hx852x.c:321-324 | the display path runs iff finger bits are set or a finger was pressed; the key path only otherwise, with keys and a current or last key; never both |
| Hx852x.BtnEventsReport | drivers/input/touchscreen/himax_hx852x.c:264-269 | a key mapped to the current key is reported pressed; one mapped to the last key and not the current one is reported released |
| Hx852x.BtnEventsExplained | drivers/input/touchscreen/himax_hx852x.c:264-269 | every key report is one of those two |
| Hx852x.NoKeyNoPress | drivers/input/touchscreen/himax_hx852x.c:264-269 | with no current key nothing is reported pressed |
| Hx852x.DisplayEventsSlots | drivers/input/touchscreen/himax_hx852x.c:280-290 | slot `i` is reported exactly when bit `i` below `max_fingers` is set, with coordinate `i` |
| Hx852x.ReleaseEventsExact | drivers/input/touchscreen/himax_hx852x.c:479-484 | suspend reports exactly the keys mapped to the last key, as released |
| Hx852x.I2cReadResult | drivers/input/touchscreen/himax_hx852x.c:116-122 | the read returns 0 iff `i2c_transfer` returned 2 or 0, otherwise the transfer result |
| Hx852x.Hx852x.ProcessBtnTouch | drivers/input/touchscreen/himax_hx852x.c:260-271 | the key reports are appended and `last_key` becomes the current key |
| Hx852x.Hx852x.ProcessDisplayTouch | drivers/input/touchscreen/himax_hx852x.c:273-292 | the slot reports and a frame sync are appended; `had_finger_pressed` is whether some bit below `max_fingers` is set |
| Hx852x.Hx852x.Interrupt | drivers/input/touchscreen/himax_hx852x.c:294-328 | a failed read gives IRQ_NONE and no change; otherwise the chosen path's reports and a sync, the key and finger state updated by that path only |
| Hx852x.Hx852x.ReadConfig | drivers/input/touchscreen/himax_hx852x.c:203-258 | each failing step returns its error; `max_fingers` is the high nibble of `max_pt` and over 12 gives -EINVAL; the axis maxima `x_res - 1`, `y_res - 1` are set only on success and when both are non-zero; the regulators end off whenever power-on succeeded |
| Hx852x.Hx852x.ParseProperties | drivers/input/touchscreen/himax_hx852x.c:361-384 | a count of 0 or less becomes 0 and succeeds; over 3 gives -EINVAL; otherwise the codes are read and the read's error returned |
| Hx852x.Hx852x.Suspend | drivers/input/touchscreen/himax_hx852x.c:476-492 | a frame sync if a finger was down, the release of the last key, one sync if either; then `last_key` 0 and `had_finger_pressed` false |
| Cm36652.IsVolatileReg | drivers/iio/light/cm36652.c:263-276 | true exactly for registers 0x07..0x0C |
| Cm36652.CachedRegisters | drivers/iio/light/cm36652.c:20-35 | the configuration, threshold, cancellation and ID registers are not volatile |
| Cm36652.PsThd | drivers/iio/light/cm36652.c:94 | `PS_THD(low, high)`, the high threshold in the upper byte: see PsThdRoundTrip and SetupThreshold |
| Cm36652.PsThdRoundTrip | drivers/iio/light/cm36652.c:94 | byte-sized thresholds come back out of `PS_THD(low, high)` |
| Cm36652.SetupThreshold | drivers/iio/light/cm36652.c:236 | the setup threshold `PS_THD(17, 20)` is 0x1411 |
| Cm36652.PsConfFieldsDisjoint | drivers/iio/light/cm36652.c:55-89 | the PS_CONF1 fields are disjoint and fill bits 2-7; the PS_CONF2 fields are disjoint and fill bits 8-15 |
| Cm36652.PsConfSetupFields | drivers/iio/light/cm36652.c:230 | the setup value is 0xD2C8 and each field holds the value named in the OR |
| Cm36652.EventFor | drivers/iio/light/cm36652.c:202-205 | the direction chosen from `int_flag`: see EventDirection |
| Cm36652.EventDirection | drivers/iio/light/cm36652.c:202-205 | AWAY gives a falling event and wins over CLOSE; CLOSE alone gives a rising one; other flag bits do not matter |
| Cm36652.IrqHandler | drivers/iio/light/cm36652.c:177-216 | a failed read of the data or the flag register returns its error and pushes nothing; otherwise IRQ_HANDLED is returned and the event pushed is `EventFor(int_flag)`, whose direction EventDirection gives |
| Cm36652.ReadRaw | drivers/iio/light/cm36652.c:153-170 | -EINVAL for a non-RAW mask, another channel or a failed read; otherwise IIO_VAL_INT with `*val` the register value; `*val` is written iff IIO_VAL_INT |
| Cm36652.SetupReg | drivers/iio/light/cm36652.c:218-243 | the writes are CS_CONF, PS_CONF1, PS_THD in order, stopping at the first failure and returning its error, 0 otherwise |
| Sgm3140.DutyWithinPeriod | drivers/leds/flash/leds-sgm3140.c:61-63 | for a brightness up to LED_FULL the duty is at most the period, full brightness gives the period, off gives 0 |
| Sgm3140.DutyMonotone | drivers/leds/flash/leds-sgm3140.c:61-63 | the duty grows with the brightness |
| Sgm3140.MaxTimeout | drivers/leds/flash/leds-sgm3140.c:292-298 | the firmware property, or 300000 when missing |
| Sgm3140.DefaultTimeout | drivers/leds/flash/leds-sgm3140.c:304 | `min(max_timeout, 250000)` |
| Sgm3140.InitFlashTimeoutAsWritten | drivers/leds/flash/leds-sgm3140.c:167-178 | min 1, max `max_timeout`, step 1, and the current value always 250000 |
| Sgm3140.InitFlashTimeoutAsWrittenOutOfRange | drivers/leds/flash/leds-sgm3140.c:173-177 | with a 100000 µs maximum the setting's value 250000 is above its own maximum and differs from the driver's timeout |
| Sgm3140.InitFlashTimeout | drivers/leds/flash/leds-sgm3140.c:173-177 | min 1, max `max_timeout`, step 1, with the value the driver really uses |
| Sgm3140.InitFlashTimeoutInRange | drivers/leds/flash/leds-sgm3140.c:173-177 | the corrected setting's value lies in its range and equals the probe's timeout |
| Sgm3140.EnableAfter | drivers/leds/flash/leds-sgm3140.c:50-77 | SGM3140: only the enable GPIO changes, to `brightness != 0`; SGM3785: the GPIO is kept, the PWM is enabled iff the duty is positive, going from off to an intermediate brightness first applies the whole period, and the duty is applied unless that kick failed |
| Sgm3140.EnableResult | drivers/leds/flash/leds-sgm3140.c:50-77 | 0 on the SGM3140; on the SGM3785 the failing kick's error, otherwise what the last `pwm_apply_state` returns |
| Sgm3140.EnableOffSwitchesOff | drivers/leds/flash/leds-sgm3140.c:56-73 | setting LED_OFF drives the SGM3140 GPIO low, and disables the SGM3785 PWM with duty 0 in a single apply |
| Sgm3140.EnableFullIsWholePeriod | drivers/leds/flash/leds-sgm3140.c:56-73 | setting LED_FULL drives the SGM3140 GPIO high, and applies the whole period to the SGM3785 once, with no kick |
| Sgm3140.Sgm3140.constructor | drivers/leds/flash/leds-sgm3140.c:292-304 | after probe: brightness 0, `max_timeout` from the property or 300000, `timeout = min(max_timeout, 250000)`, the PWM period only on the SGM3785, every line off and no timer; the flash timeout setting is the corrected one (see Left out) |
| Sgm3140.Sgm3140.SetEnable | drivers/leds/flash/leds-sgm3140.c:50-77 | the enable GPIO and PWM state become `EnableAfter` of the old state and the result is `EnableResult`; nothing else changes |
| Sgm3140.Sgm3140.BrightnessSet | drivers/leds/flash/leds-sgm3140.c:79-105 | the same brightness is a no-op; otherwise the enable lines become `EnableAfter` of the new brightness, 0 to non-zero enables the regulator, non-zero to 0 disables it, the regulator's result is returned, and the brightness is stored only on success |
| Sgm3140.Sgm3140.StrobeSet | drivers/leds/flash/leds-sgm3140.c:107-132 | no-op, every line included, when the state matches; otherwise the enable lines become `EnableAfter` of LED_FULL or LED_OFF, and on success on drives the flash GPIO high and arms the timer for `timeout`, off cancels it and drives low, the regulator follows the state and brightness ends as the state; a regulator failure changes only the enable lines |
| Sgm3140.Sgm3140.PowerdownTimer | drivers/leds/flash/leds-sgm3140.c:159-165 | the flash GPIO goes low and the timer is idle; from a lit LED the enable lines become `EnableAfter` of LED_OFF, so the enable line and PWM are switched off, and the regulator is disabled and the brightness becomes LED_OFF when the regulator call succeeds; from an unlit LED nothing else changes |
| Sgm3140.Sgm3140.TimeoutSet | drivers/leds/flash/leds-sgm3140.c:143-151 | the timeout is stored unchanged and 0 returned |
| Msg26xx.EventBytes | drivers/input/touchscreen/msg26xx.c:42-54 | the frame is 23 bytes: mode, five 4-byte packets, proximity, checksum |
| Msg26xx.PacketsRoundTrip | drivers/input/touchscreen/msg26xx.c:42-54 | reading the packets back from their bytes after the mode byte gives the packets |
| Msg26xx.EventRoundTrip | drivers/input/touchscreen/msg26xx.c:49-54 | parsing the bytes of an event gives the event |
| Msg26xx.MstarChecksum | drivers/input/touchscreen/msg26xx.c:101-110 | the checksum over the first `length` bytes is the byte sum negated modulo 256, whatever the `s32` running sum wraps to |
| Msg26xx.ChecksumCompletesSum | drivers/input/touchscreen/msg26xx.c:101-110 | the byte sum plus the checksum is 0 modulo 256 |
| Msg26xx.RawX | drivers/input/touchscreen/msg26xx.c:152 | the raw x is below 4096 |
| Msg26xx.RawY | drivers/input/touchscreen/msg26xx.c:153 | the raw y is below 4096 |
| Msg26xx.RawCoordinatesAreBitFields | drivers/input/touchscreen/msg26xx.c:152-153 | the shift-and-mask expressions equal high nibble times 256 plus the low byte |
| Msg26xx.ScaleCoordExact | drivers/input/touchscreen/msg26xx.c:152-153 | inside the panel and with a 16-bit maximum the stored `u16` is exactly `raw * max / 2048`, at most `max` |
| Msg26xx.ReportsOfIncreasing | drivers/input/touchscreen/msg26xx.c:146-155 | fingers are reported in strictly increasing slot order |
| Msg26xx.ReportsOfContent | drivers/input/touchscreen/msg26xx.c:146-155 | each report carries its own packet's scaled position |
| Msg26xx.ReportsOfCoverPressed | drivers/input/touchscreen/msg26xx.c:149-150 | slot `i` is reported iff packet `i` is not the all-0xFF unpressed pattern |
| Msg26xx.MstarTsIrqHandler | drivers/input/touchscreen/msg26xx.c:112-162 | always IRQ_HANDLED; a failed transfer, wrong mode or bad checksum gives no report and no sync; otherwise the reports of the pressed packets and a sync |
| Msg26xx.MstarInitInputDev | drivers/input/touchscreen/msg26xx.c:214-263 | -ENOMEM without a device, -EINVAL when `max_x` or `max_y` is 0, 0 exactly when every step succeeds |
| Rm27013.SequenceCommands | drivers/gpu/drm/panel/msm8916-generated/panel-asus-p024-rm27013.c:46-82 | the on-sequence has 12 writes ending in exit-sleep and display-on; the off-sequence 4, starting with display-off and enter-sleep |
| Rm27013.Issued | drivers/gpu/drm/panel/msm8916-generated/panel-asus-p024-rm27013.c:28-34 | the writes issued are a prefix of the sequence: all of it, or up to and including the first failing write |
| Rm27013.SequenceResult | drivers/gpu/drm/panel/msm8916-generated/panel-asus-p024-rm27013.c:28-34 | a sequence returns 0 iff every write succeeds, otherwise a negative error |
| Rm27013.SequenceAllOrPrefix | drivers/gpu/drm/panel/msm8916-generated/panel-asus-p024-rm27013.c:28-34 | a successful sequence issued every write; a failed one returns the error of the last write it issued |
| Rm27013.Panel.WriteSequence | drivers/gpu/drm/panel/msm8916-generated/panel-asus-p024-rm27013.c:28-34 | appends the issued writes and returns the sequence's result |
| Rm27013.Panel.On | drivers/gpu/drm/panel/msm8916-generated/panel-asus-p024-rm27013.c:46-67 | sets MIPI_DSI_MODE_LPM, keeps the other mode bits, and runs the on-sequence |
| Rm27013.Panel.Off | drivers/gpu/drm/panel/msm8916-generated/panel-asus-p024-rm27013.c:69-82 | clears MIPI_DSI_MODE_LPM, keeps the other mode bits, and runs the off-sequence |
| Rm27013.Panel.Prepare | drivers/gpu/drm/panel/msm8916-generated/panel-asus-p024-rm27013.c:84-104 | already prepared: 0 and no effect; otherwise the reset pulse, the on-sequence, reset driven high again on failure, `prepared` iff it succeeded |
| Rm27013.Panel.Unprepare | drivers/gpu/drm/panel/msm8916-generated/panel-asus-p024-rm27013.c:106-123 | not prepared: 0 and no effect; otherwise the off-sequence, reset high and `prepared` false, returning 0 even when the sequence failed |
| Rm27013.ModeTimings | drivers/gpu/drm/panel/msm8916-generated/panel-asus-p024-rm27013.c:125-137 | sync pulses lie inside the blanking, totals 1004 and 1338, clock `htotal*vtotal*60/1000` = 80601 |
| Rm27013.GetModes | drivers/gpu/drm/panel/msm8916-generated/panel-asus-p024-rm27013.c:139-156 | -ENOMEM without a mode; otherwise exactly one DRIVER\|PREFERRED mode is added, the connector gets 107 x 172 mm, and 1 is returned |
| ThreadInfoApi.WithBit | include/linux/sched/thread_info_api.h:43-46 | after `set_bit` the flag tests true and every other bit is unchanged |
| ThreadInfoApi.WithoutBit | include/linux/sched/thread_info_api.h:48-51 | after `clear_bit` the flag tests false and every other bit is unchanged |
| ThreadInfoApi.ThreadInfo.Set | include/linux/sched/thread_info_api.h:43-46 | `set_ti_thread_flag` leaves the flag set and the other bits unchanged |
| ThreadInfoApi.ThreadInfo.Clear | include/linux/sched/thread_info_api.h:48-51 | `clear_ti_thread_flag` leaves the flag clear and the other bits unchanged |
| ThreadInfoApi.ThreadInfo.Update | include/linux/sched/thread_info_api.h:53-60 | afterwards the flag tests equal to `value` |
| ThreadInfoApi.ThreadInfo.TestAndSet | include/linux/sched/thread_info_api.h:62-65 | returns the previous bit and leaves it set |
| ThreadInfoApi.ThreadInfo.TestAndClear | include/linux/sched/thread_info_api.h:67-70 | returns the previous bit and leaves it clear |
| ThreadInfoApi.ThreadInfo.Test | include/linux/sched/thread_info_api.h:72-75 | `test_ti_thread_flag`: see the ensures of Set, Clear, Update, TestAndSet and TestAndClear, and SetThenClear, SetKeepsOtherBit, ClearKeepsOtherBit |
| ThreadInfoApi.SetTskThreadFlag | include/linux/sched/thread_info_api.h:127-130 | the set operation on `task_thread_info(tsk)` |
| ThreadInfoApi.ClearTskThreadFlag | include/linux/sched/thread_info_api.h:132-135 | the clear operation on `task_thread_info(tsk)` |
| ThreadInfoApi.UpdateTskThreadFlag | include/linux/sched/thread_info_api.h:137-141 | the update operation on `task_thread_info(tsk)` |
| ThreadInfoApi.TestAndSetTskThreadFlag | include/linux/sched/thread_info_api.h:143-146 | the test-and-set operation on `task_thread_info(tsk)` |
| ThreadInfoApi.TestAndClearTskThreadFlag | include/linux/sched/thread_info_api.h:148-151 | the test-and-clear operation on `task_thread_info(tsk)` |
| ThreadInfoApi.TestTskThreadFlag | include/linux/sched/thread_info_api.h:153-156 | `test_tsk_thread_flag`, the test on `task_thread_info(tsk)`: see SetTskNeedResched and ClearTskNeedResched |
| ThreadInfoApi.SetTskNeedResched | include/linux/sched/thread_info_api.h:158-161 | TIF_NEED_RESCHED tests true and no other bit changes |
| ThreadInfoApi.ClearTskNeedResched | include/linux/sched/thread_info_api.h:163-166 | TIF_NEED_RESCHED tests false and no other bit changes |
| ThreadInfoApi.TestTskNeedResched | include/linux/sched/thread_info_api.h:168-171 | `test_tsk_need_resched`, the TIF_NEED_RESCHED test on the task: true after SetTskNeedResched, false after ClearTskNeedResched |
| ThreadInfoApi.TaskCpu | include/linux/sched/thread_info_api.h:178-192 | the recorded CPU with CONFIG_SMP, always 0 without it |
| ThreadInfoApi.SetRestartFn | include/linux/sched/thread_info_api.h:206-212 | stores `fn` and returns -ERESTART_RESTARTBLOCK |
| ThreadInfoApi.SetThenClear | include/linux/sched/thread_info_api.h:43-51 | set then test is true, set then clear then test is false, and set-then-clear equals a plain clear |
| ThreadInfoApi.IdempotentUpdates | include/linux/sched/thread_info_api.h:43-51 | setting a set bit, or clearing a clear one, changes nothing, and only then |
| ThreadInfoApi.SetKeepsOtherBit | include/linux/sched/thread_info_api.h:43-46 | setting one flag does not change the test of another |
| ThreadInfoApi.ClearKeepsOtherBit | include/linux/sched/thread_info_api.h:48-51 | clearing one flag does not change the test of another |
| SegmentApi.GdtEntryLayout | arch/x86/include/asm/segment_api.h:14-19 | limit[15:0] in bits 15:0, base[23:0] in 39:16, flags & 0xf0ff in 55:40, limit[19:16] in 51:48, base[31:24] in 63:56 |
| SegmentApi.FieldMasksPartitionDescriptor | arch/x86/include/asm/segment_api.h:14-19 | the five shifted field masks are pairwise disjoint |
| SegmentApi.GdtEntryRoundTrip | arch/x86/include/asm/segment_api.h:14-19 | the 32-bit base, the 20-bit limit and the masked flags come back out of the descriptor |
| SegmentApi.DescriptorFieldsRoundTrip | arch/x86/include/asm/segment_api.h:14-19 | every descriptor is `GDT_ENTRY` of its own fields |
| SegmentApi.GdtEntryIgnoresBitsOutsideMasks | arch/x86/include/asm/segment_api.h:15-19 | flags bits 8-11, base bits above 31 and limit bits above 19 do not affect the descriptor |
| SegmentApi.GdtEntry | arch/x86/include/asm/segment_api.h:14-19 | `GDT_ENTRY(flags, base, limit)`: see GdtEntryLayout, GdtEntryRoundTrip, DescriptorFieldsRoundTrip and GdtEntryIgnoresBitsOutsideMasks |
| SegmentApi.CpunodeMaskIsLowBits | arch/x86/include/asm/segment_api.h:56-59 | `VDSO_CPUNODE_MASK` is `2^VDSO_CPUNODE_BITS - 1` |
| SegmentApi.IntToULongSignExtends | arch/x86/include/asm/segment_api.h:34-37 | the `int` CPU is sign-extended into the `unsigned long` |
| SegmentApi.EncodeCpunode | arch/x86/include/asm/segment_api.h:34-37 | `vdso_encode_cpunode(cpu, node)`: see EncodeCpunodeLayout, CpunodeRoundTrip and CpunodeDecodeEncode |
| SegmentApi.EncodeCpunodeLayout | arch/x86/include/asm/segment_api.h:34-37 | for a CPU in `0..MASK` the CPU is in the low bits and the node above them |
| SegmentApi.DecodeCpu | arch/x86/include/asm/segment_api.h:57 | the decoded CPU is at most 0xfff |
| SegmentApi.DecodeNode | arch/x86/include/asm/segment_api.h:59 | the decoded node is below 2^20 |
| SegmentApi.CpunodeRoundTrip | arch/x86/include/asm/segment_api.h:34-59 | encode then decode gives back the CPU and the node |
| SegmentApi.CpunodeDecodeEncode | arch/x86/include/asm/segment_api.h:56-59 | decode then encode gives back every 32-bit word |
| SegmentApi.ReadCpunode | arch/x86/include/asm/segment_api.h:56-59 | only the non-NULL out-pointers are written, with the decoded values |
| MmApi.PagePrivate | include/linux/mm_api.h:35 | `page_private` is the page's private word |
| MmApi.SetPagePrivate | include/linux/mm_api.h:37-40 | a following `page_private` reads the value, and the flags word is unchanged |
| MmApi.MmStruct.InitTlbFlushPending | include/linux/mm_api.h:57-60 | the counter is 0, so neither pending nor nested |
| MmApi.MmStruct.IncTlbFlushPending | include/linux/mm_api.h:62-101 | `atomic_inc` on the 32-bit counter |
| MmApi.MmStruct.DecTlbFlushPending | include/linux/mm_api.h:103-114 | `atomic_dec` on the 32-bit counter |
| MmApi.MmStruct.Pending | include/linux/mm_api.h:116-127 | `mm_tlb_flush_pending`: false after InitTlbFlushPending; see PendingAfterIncrements, IncMakesPending and NestedImpliesPending |
| MmApi.MmStruct.Nested | include/linux/mm_api.h:129-139 | `mm_tlb_flush_nested`: false after InitTlbFlushPending; see PendingAfterIncrements, IncMakesPending and NestedImpliesPending |
| MmApi.IncN | include/linux/mm_api.h:62-101 | `k` successive `inc_tlb_flush_pending` steps: see IncrementsFromZero and PendingAfterIncrements |
| MmApi.IncDecRestores | include/linux/mm_api.h:62-114 | increment then decrement, or the reverse, restores the counter, wrap-around included |
| MmApi.NestedImpliesPending | include/linux/mm_api.h:116-139 | nested implies pending |
| MmApi.IncrementsFromZero | include/linux/mm_api.h:62-101 | `k` successive `inc_tlb_flush_pending` steps from 0 bring the counter to `k` while it stays below 2^31 |
| MmApi.PendingAfterIncrements | include/linux/mm_api.h:62-139 | after `k` successive increments from 0, below the wrap-around, a flush is pending iff `k >= 1` and nested iff `k >= 2` |
| MmApi.IncMakesPending | include/linux/mm_api.h:62-139 | an increment from a non-negative count always leaves a flush pending, and nested iff one was pending before |
| MmApi.PageAlign | include/linux/mm_api.h:141-142 | `PAGE_ALIGN(addr)`: see PageAlignIsLeastMultiple, PageAlignWraps and PageAlignFixesAligned |
| MmApi.PageAligned | include/linux/mm_api.h:144-145 | `PAGE_ALIGNED(addr)`: see PageAlignIsLeastMultiple, WrappingAddressIsUnaligned and PageAlignFixesAligned |
| MmApi.PageAlignIsLeastMultiple | include/linux/mm_api.h:142-145 | without wrap-around `PAGE_ALIGN(a)` is the least multiple of PAGE_SIZE not below `a` |
| MmApi.PageAlignWraps | include/linux/mm_api.h:142 | in the last page of the address space `PAGE_ALIGN` wraps to 0 |
| MmApi.WrappingAddressIsUnaligned | include/linux/mm_api.h:145 | no address in that last stretch is page aligned |
| MmApi.PageAlignFixesAligned | include/linux/mm_api.h:142-145 | `PAGE_ALIGNED(a)` iff `PAGE_ALIGN(a) == a` |
| BpfCgroupTypes.ToCgroupBpfAttachType | include/linux/bpf-cgroup-types.h:58-88 | the result is CGROUP_BPF_ATTACH_TYPE_INVALID exactly for the attach types that are not cgroup types |
| BpfCgroupTypes.CgroupAttachOrderShape | include/linux/bpf-cgroup-types.h:27-53 | the enum lists `MAX_CGROUP_BPF_ATTACH_TYPE` (23) cgroup attach types |
| BpfCgroupTypes.MappingFollowsEnumOrder | include/linux/bpf-cgroup-types.h:27-84 | the `i`-th listed attach type maps to the identically named constant `i` |
| BpfCgroupTypes.EnumOrderInvertsMapping | include/linux/bpf-cgroup-types.h:27-84 | every valid result is in `0..22` and names the attach type it came from |
| BpfCgroupTypes.MappingInjective | include/linux/bpf-cgroup-types.h:58-88 | the mapping is injective on the cgroup attach types |
| BpfCgroupTypes.CgroupBpfEnabled | include/linux/bpf-cgroup-types.h:92-93 | the static key is read only for an index in `0..MAX_CGROUP_BPF_ATTACH_TYPE-1`, which every valid mapping result is (ValidResultIndexesArrays) |
| BpfCgroupTypes.ValidResultIndexesArrays | include/linux/bpf-cgroup-types.h:92-93 | every valid result indexes `cgroup_bpf_enabled_key`, `effective`, `progs` and `flags` in bounds |
| BpfCgroupTypes.ForEachCgroupStorageType | include/linux/bpf-cgroup-types.h:95-96 | the loop visits `0..MAX_BPF_CGROUP_STORAGE_TYPE-1`, each once, in order |
| BpfCgroupTypes.StorageTypesIncreasing | include/linux/bpf-cgroup-types.h:95-96 | the visiting order is strictly increasing |
| MmKasan.Flip | include/linux/mm_api_kasan.h:23 | `x ^ 0xff` on a byte is `255 - x` |
| MmKasan.ReplaceTagField | include/linux/mm_api_kasan.h:33-34 | the tag field becomes the new byte and the bits below and above it are kept |
| MmKasan.PageKasanTagSet | include/linux/mm_api_kasan.h:29-36 | the page flags become the flags with the tag stored |
| MmKasan.PageKasanTagReset | include/linux/mm_api_kasan.h:38-42 | the page flags become the flags with the kernel tag 0xff stored |
| MmKasan.PageKasanTag | include/linux/mm_api_kasan.h:17-27 | `page_kasan_tag(page)`: see TagSetThenRead, ResetStoresZero and TagsOffIsInert |
| MmKasan.TagSetThenRead | include/linux/mm_api_kasan.h:17-36 | with tags active, setting a tag and reading it back gives that tag |
| MmKasan.TagSetKeepsOtherBits | include/linux/mm_api_kasan.h:33-34 | setting a tag changes only the tag field |
| MmKasan.ResetStoresZero | include/linux/mm_api_kasan.h:11-42 | a zero field reads as 0xff; after a reset the field is 0 and the tag reads 0xff |
| MmKasan.TagsOffIsInert | include/linux/mm_api_kasan.h:19-52 | with tags off or disabled the tag reads 0xff and set and reset leave the flags alone |
| ConntrackCommon.Incremented | include/linux/netfilter/nf_conntrack_common_api.h:20 | `atomic_inc` adds exactly 1 below the maximum |
| ConntrackCommon.Decremented | include/linux/netfilter/nf_conntrack_common_api.h:13 | `atomic_dec_and_test` subtracts 1 and tests for zero |
| ConntrackCommon.NfConntrackGet | include/linux/netfilter/nf_conntrack_common_api.h:17-21 | NULL is ignored; otherwise the count is incremented and nothing destroyed |
| ConntrackCommon.NfConntrackPut | include/linux/netfilter/nf_conntrack_common_api.h:11-15 | NULL is ignored; otherwise the count is decremented and destroy called once exactly when it reaches 0 |
| ConntrackCommon.PutDestroysAtZero | include/linux/netfilter/nf_conntrack_common_api.h:11-15 | a put destroys exactly when it drops the last reference |
| ConntrackCommon.GetThenPutBalanced | include/linux/netfilter/nf_conntrack_common_api.h:11-21 | from a live object a get then a put restores the count and does not destroy |

## Left out

- Hardware and bus I/O are parameters holding the values the calls return:
  register reads and writes, I2C, DSI, regmap, regulators, GPIO, PWM, reset
  control, power-domain runtime PM, the iris chip, the secure monitor, the
  remoteproc and MDT loaders, and input/IIO event reporting.
- Delays, hardware polling loops, completions, kernel timers and mutexes are
  not modelled. Each status poll is taken to finish; its timeout result is a
  parameter.
- Atomics are modelled sequentially. The memory-ordering argument in the
  `tlb_flush_pending` comments is not modelled.
- Inline assembly is not modelled: `loadsegment`/`savesegment`,
  `alternative_io` (LSL/RDPID) and the exception-table fixups. The word the
  LSL/RDPID instruction yields is a parameter of `SegmentApi.ReadCpunode`.
- `VDSO_CPUNODE_BITS` is fixed to x86-64's 12; it is not a parameter.
- `KASAN_TAG_MASK` is 0xff and `KASAN_TAG_PGSHIFT` a parameter below 57. The
  tag field is computed on integers with powers of two, not with 64-bit shifts.
- `MmApi.PageAlign` and `MmApi.PageAligned` state the masks
  `& ~(PAGE_SIZE - 1)` and `& (PAGE_SIZE - 1)` as rounding down and as a
  remainder modulo `PAGE_SIZE`. For a power of two these are the same, but
  the model does not prove that for a general `PAGE_SHIFT`.
- `tif_need_resched()` and `need_resched()` (thread_info_api.h:173 and
  214-217) read the current task, which the model does not have. They are
  covered only by `ThreadInfoApi.TestTskNeedResched` on an explicit task.
- `PAGE_SHIFT`, `LED_FULL` and the numeric `TIF_*` bit are parameters. The
  attach types are named constructors rather than the numeric
  `enum bpf_attach_type` values.
- Paths whose result in the source is undefined are given no meaning:
  - `Sgm3140.Sgm3140.BrightnessSet`: excludes a change from one non-zero
    brightness to another. The source leaves `ret` unassigned on that path
    (leds-sgm3140.c:84-96). The function is the LED core's
    `brightness_set_blocking` hook, so such a request can reach it. The
    model gives that path no meaning.
  - `sgm3140_probe` with an unknown chip id, where `ret` is uninitialised. The
    rest of probe is not part of this model either.
  - `Cm36652.IrqHandler`: with neither AWAY nor CLOSE set, `ev_dir` is never
    assigned. The model pushes an event with an unassigned direction.
  - `Cm36652.ReadRaw`: the early return on a failed read leaves the mutex
    held. The lock is not modelled.
- `touchscreen_report_pos` (axis inversion and swapping) is not modelled. The
  HX852x and MSG26xx reports carry the position passed to it.
- `Hx852x.Hx852x.ParseProperties`: a failed `device_property_read_u32_array`
  is taken to leave `keycodes` unchanged. A partial fill is not modelled.
- The input-device and regulator set-up of the HX852x and MSG26xx probes is
  not modelled. `hx852x_power_on`/`power_off` are one result parameter.
- `Sgm3140.Sgm3140.constructor`: initialises the flash timeout setting with
  the corrected `Sgm3140.InitFlashTimeout`. Probe as written calls
  `sgm3140_init_flash_timeout`, which stores 250000 whatever the maximum
  (`Sgm3140.InitFlashTimeoutAsWritten`; see Findings). For a maximum below
  250000 µs the model's setting therefore differs from the source's.
- `Sgm3140.Duty`: the `unsigned long long` product `period * brightness` is
  unbounded here. Its 64-bit overflow is not modelled.
- The `regulator_set_voltage`/`regulator_set_load` loop of
  `wcnss_init_regulators` has no lasting effect in the model and is left out.
- The rest of `wcnss_probe` is not modelled: memory region, SMEM state,
  sub-devices and interrupts. Only its tolerance rule for `wcnss_init_pds`
  is. Also left out: `wcnss_stop`, `wcnss_shutdown_no_pas`, `wcnss_load` and
  the interrupt handlers.
- `QcomWcnss.Wcnss.Start` records the calls of `wcnss_start` as events. It
  does not invoke `IndicateNvDownload`, `ConfigureIris` or `ResetNoPas`, whose
  register effects are stated by those methods on their own. The reset
  result is one parameter.
- `drm_mode_duplicate`'s copy and `drm_mode_set_name` are not modelled.
  `Rm27013.GetModes` adds the typed mode itself.
- `hx852x_suspend` first stops the device when it is enabled (IRQ disable and
  power off). That step is not modelled; the model keeps only the reports and
  the state reset after it. `hx852x_resume`, `hx852x_start` and `hx852x_stop`
  are not part of this model.
- `sgm3140_strobe_get`, the V4L2 flash glue and the rest of `sgm3140_probe`
  (GPIO, PWM and regulator lookup, LED registration) are not modelled.
- The layout-only structs `cgroup_bpf`, `bpf_cgroup_storage`, `thread_union`
  and `sk_buff_head` carry no behaviour and are not modelled. Nor are the
  other helpers of `mm_api.h`, such as `compound_mapcount_ptr`,
  `compound_pincount_ptr` and `mm_cpumask`, which compute only addresses.
- drivers/remoteproc/qcom_rpm.c is probe and remove glue over reset and SMD
  calls, so it is not part of this model.
- include/net/ip6_route_api_mtu.h and include/net/ip_api_gro.h are wrappers
  over functions defined elsewhere, so they are not part of this model.
- include/linux/skbuff_types_head.h and include/linux/sched/posix-timers.h
  contain only declarations, so they are not part of this model.

## Findings

| source | as written | input that shows it | evidently intended | confidence | as-written member | corrected member |
|---|---|---|---|---|---|---|
| drivers/remoteproc/qcom_wcnss.c:478-482 | `offset` is an `int`: `da - mem_reloc` is truncated to 32 bits, and `offset + len` is computed in 64 bits and may wrap | `da` = 0x1_0000_0000, `mem_reloc` = 0, `len` = 16, `mem_size` = 0x1000 gives offset 0 and a non-NULL pointer; also `da` = 1, `len` = 2^64-1 | accept exactly when `[da, da+len)` lies inside `[mem_reloc, mem_reloc+mem_size)` | not executed; follows from the C conversion rules | QcomWcnss.DaToVaAsWritten, QcomWcnss.DaToVaAsWrittenAcceptsOutsideRanges | QcomWcnss.DaToVa, QcomWcnss.DaToVaAgreesOnSmallOffsets |
| drivers/leds/flash/leds-sgm3140.c:173-177 | the flash timeout setting's current value is always FLASH_TIMEOUT_DEFAULT (250000), even when `max_timeout` from firmware is lower, while `priv->timeout` is `min(max_timeout, 250000)` (line 304) | `flash-max-timeout-us` = 100000: the setting announces value 250000 with max 100000 | the setting's value is the timeout in use, `min(max_timeout, 250000)` | not executed | Sgm3140.InitFlashTimeoutAsWritten, Sgm3140.InitFlashTimeoutAsWrittenOutOfRange | Sgm3140.InitFlashTimeout, Sgm3140.InitFlashTimeoutInRange |
