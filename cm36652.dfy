/** Register encodings and the interrupt, read and setup logic of the Capella
    CM36652 proximity and colour sensor driver, drivers/iio/light/cm36652.c.

    Registers are 16 bits wide (`val_bits = 16`). A regmap access is modelled
    by the value it returns; the register write sequence is returned as a
    list of (register, value) pairs. */
module Cm36652 {
  import opened Wrappers
  import Errno

  // ---- register addresses ----

  const REG_CS_CONF: nat := 0x00
  const REG_PS_CONF1: nat := 0x03
  const REG_PS_CONF3: nat := 0x04
  const REG_PS_THD: nat := 0x05
  const REG_PS_CANC: nat := 0x06
  const REG_PS_DATA: nat := 0x07
  const REG_CS_RED_DATA: nat := 0x08
  const REG_CS_GREEN_DATA: nat := 0x09
  const REG_CS_BLUE_DATA: nat := 0x0A
  const REG_CS_WHITE_DATA: nat := 0x0B
  const REG_INT_FLAG: nat := 0x0C
  const REG_DEV_ID: nat := 0x0D

  /** `cm36652_is_volatile_reg`: the data and interrupt-flag registers, which
      the regmap cache must not serve. */
  function IsVolatileReg(reg: nat): (b: bool)
    ensures b <==> REG_PS_DATA <= reg <= REG_INT_FLAG
  {
    reg == REG_PS_DATA || reg == REG_CS_RED_DATA || reg == REG_CS_GREEN_DATA
    || reg == REG_CS_BLUE_DATA || reg == REG_CS_WHITE_DATA || reg == REG_INT_FLAG
  }

  /** The configuration and threshold registers are cached; the identity
      register, the last one, is too. */
  lemma CachedRegisters()
    ensures !IsVolatileReg(REG_CS_CONF) && !IsVolatileReg(REG_PS_CONF1) && !IsVolatileReg(REG_PS_CONF3)
    ensures !IsVolatileReg(REG_PS_THD) && !IsVolatileReg(REG_PS_CANC) && !IsVolatileReg(REG_DEV_ID)
  {
  }

  // ---- register values ----

  type Reg16 = bv16

  /** `PS_THD(low, high)`: the high threshold in the upper byte. */
  function PsThd(low: Reg16, high: Reg16): Reg16
  {
    (high << 8) | low
  }

  /** Byte-sized thresholds come back out of their register value. */
  lemma PsThdRoundTrip(low: Reg16, high: Reg16)
    requires low < 0x100 && high < 0x100
    ensures PsThd(low, high) & 0xFF == low && PsThd(low, high) >> 8 == high
  {
  }

  /** The threshold the setup writes. */
  lemma SetupThreshold()
    ensures PsThd(17, 20) == 0x1411
  {
  }

  /** The CS_CONF value the setup writes: colour sensing on, everything
      else at its zero setting. */
  const CS_CONF_ENABLE: Reg16 := 0 << 0

  // PS_CONF1 fields (low byte) and PS_CONF2 fields (high byte).
  const PS_CONF1_PERS_MASK: Reg16 := 3 << 2
  const PS_CONF1_IT_MASK: Reg16 := 3 << 4
  const PS_CONF1_DR_MASK: Reg16 := 3 << 6
  const PS_CONF2_INT_MASK: Reg16 := (3 << 0) << 8
  const PS_CONF2_LED_MASK: Reg16 := (7 << 2) << 8
  const PS_CONF2_SMART_PERS_MASK: Reg16 := (1 << 5) << 8
  const PS_CONF2_ITB_MASK: Reg16 := (3 << 6) << 8

  const PS_CONF1_PERS_3: Reg16 := 2 << 2
  const PS_CONF1_DR_1_640: Reg16 := 3 << 6
  const PS_CONF2_INT_ENABLE: Reg16 := (2 << 0) << 8
  const PS_CONF2_LED_160MA: Reg16 := (4 << 2) << 8
  const PS_CONF2_ITB_QUADRUPLE: Reg16 := (3 << 6) << 8

  /** The PS_CONF1/PS_CONF2 value the setup writes. */
  const PS_CONF_SETUP: Reg16 :=
    PS_CONF1_PERS_3 | PS_CONF1_DR_1_640 | PS_CONF2_INT_ENABLE | PS_CONF2_LED_160MA | PS_CONF2_ITB_QUADRUPLE

  /** The PS_CONF1 fields fill bits 2-7 and the PS_CONF2 fields bits 8-15,
      pairwise disjoint, and each setting lies inside its own field. */
  lemma PsConfFieldsDisjoint()
    ensures PS_CONF1_PERS_MASK & PS_CONF1_IT_MASK == 0 && PS_CONF1_IT_MASK & PS_CONF1_DR_MASK == 0
    ensures PS_CONF1_PERS_MASK & PS_CONF1_DR_MASK == 0
    ensures (PS_CONF1_PERS_MASK | PS_CONF1_IT_MASK | PS_CONF1_DR_MASK) == 0x00FC
    ensures (PS_CONF2_INT_MASK | PS_CONF2_LED_MASK | PS_CONF2_SMART_PERS_MASK | PS_CONF2_ITB_MASK) == 0xFF00
    ensures PS_CONF2_INT_MASK & PS_CONF2_LED_MASK == 0 && PS_CONF2_LED_MASK & PS_CONF2_SMART_PERS_MASK == 0
    ensures PS_CONF2_SMART_PERS_MASK & PS_CONF2_ITB_MASK == 0 && PS_CONF2_INT_MASK & PS_CONF2_ITB_MASK == 0
    ensures PS_CONF2_INT_MASK & PS_CONF2_SMART_PERS_MASK == 0 && PS_CONF2_LED_MASK & PS_CONF2_ITB_MASK == 0
  {
  }

  /** The setup value is 0xD2C8, and masking it with each field gives back
      the setting chosen for that field (the IT and smart-persistence fields
      are left at zero). */
  lemma PsConfSetupFields()
    ensures PS_CONF_SETUP == 0xD2C8
    ensures PS_CONF_SETUP & PS_CONF1_PERS_MASK == PS_CONF1_PERS_3
    ensures PS_CONF_SETUP & PS_CONF1_IT_MASK == 0
    ensures PS_CONF_SETUP & PS_CONF1_DR_MASK == PS_CONF1_DR_1_640
    ensures PS_CONF_SETUP & PS_CONF2_INT_MASK == PS_CONF2_INT_ENABLE
    ensures PS_CONF_SETUP & PS_CONF2_LED_MASK == PS_CONF2_LED_160MA
    ensures PS_CONF_SETUP & PS_CONF2_SMART_PERS_MASK == 0
    ensures PS_CONF_SETUP & PS_CONF2_ITB_MASK == PS_CONF2_ITB_QUADRUPLE
  {
  }

  // ---- interrupt ----

  const REG_INT_PS_AWAY: Reg16 := 1 << 8
  const REG_INT_PS_CLOSE: Reg16 := 2 << 8

  /** `IRQ_HANDLED`. */
  const IRQ_HANDLED: int := 1

  datatype EvDir = Falling | Rising

  /** The event `cm36652_irq_handler` pushes. With neither flag bit set the
      driver pushes an event whose direction it never assigned. */
  datatype PushedEvent = NoEvent | ProximityEvent(dir: EvDir) | ProximityEventUnassignedDir

  /** The direction chosen from `int_flag`: AWAY is tested first. */
  function EventFor(intFlag: Reg16): PushedEvent
  {
    if intFlag & REG_INT_PS_AWAY != 0 then ProximityEvent(Falling)
    else if intFlag & REG_INT_PS_CLOSE != 0 then ProximityEvent(Rising)
    else ProximityEventUnassignedDir
  }

  /** AWAY wins over CLOSE; CLOSE alone gives a rising event; other bits of
      the flag register play no part. */
  lemma EventDirection(intFlag: Reg16)
    ensures intFlag & REG_INT_PS_AWAY != 0 ==> EventFor(intFlag) == ProximityEvent(Falling)
    ensures intFlag & REG_INT_PS_AWAY == 0 && intFlag & REG_INT_PS_CLOSE != 0 ==>
              EventFor(intFlag) == ProximityEvent(Rising)
    ensures EventFor(intFlag) == EventFor(intFlag & (REG_INT_PS_AWAY | REG_INT_PS_CLOSE))
  {
  }

  /** What one interrupt returns and pushes. */
  datatype IrqOutcome = IrqOutcome(ret: int, event: PushedEvent)

  /** `cm36652_irq_handler`: `psRead` and `flagRead` are what the two
      `regmap_read` calls returned, `intFlag` the flag register's value. A
      failing read is returned as it is. */
  function IrqHandler(psRead: int, flagRead: int, intFlag: Reg16): (o: IrqOutcome)
    ensures psRead < 0 ==> o == IrqOutcome(psRead, NoEvent)
    ensures psRead >= 0 && flagRead < 0 ==> o == IrqOutcome(flagRead, NoEvent)
    ensures psRead >= 0 && flagRead >= 0 ==> o.ret == IRQ_HANDLED && o.event != NoEvent
    ensures psRead >= 0 && flagRead >= 0 ==> o.event == EventFor(intFlag)
  {
    if psRead < 0 then IrqOutcome(psRead, NoEvent)
    else if flagRead < 0 then IrqOutcome(flagRead, NoEvent)
    else IrqOutcome(IRQ_HANDLED, EventFor(intFlag))
  }

  // ---- read_raw ----

  datatype ChanType = Light | Proximity | OtherChan
  datatype InfoMask = InfoRaw | OtherInfo

  /** `IIO_VAL_INT`. */
  const IIO_VAL_INT: int := 1

  /** What `cm36652_read_raw` returns, and `*val` when it is written. */
  datatype ReadRawResult = ReadRawResult(ret: int, val: Option<int>)

  /** `cm36652_read_raw`: `readErr` is what `regmap_read` returned and `reg`
      the value it read. */
  function ReadRaw(mask: InfoMask, chan: ChanType, readErr: int, reg: Reg16): (r: ReadRawResult)
    ensures mask != InfoRaw ==> r == ReadRawResult(-Errno.EINVAL, None)
    ensures mask == InfoRaw && chan == OtherChan ==> r == ReadRawResult(-Errno.EINVAL, None)
    ensures mask == InfoRaw && chan != OtherChan && readErr < 0 ==> r == ReadRawResult(-Errno.EINVAL, None)
    ensures mask == InfoRaw && chan != OtherChan && readErr >= 0 ==> r == ReadRawResult(IIO_VAL_INT, Some(reg as int))
    ensures r.ret == IIO_VAL_INT <==> r.val.Some?
  {
    match mask
    case InfoRaw =>
      if chan.Light? || chan.Proximity? then
        if readErr < 0 then ReadRawResult(-Errno.EINVAL, None)
        else ReadRawResult(IIO_VAL_INT, Some(reg as int))
      else ReadRawResult(-Errno.EINVAL, None)
    case OtherInfo => ReadRawResult(-Errno.EINVAL, None)
  }

  // ---- setup ----

  /** The three writes of `cm36652_setup_reg`, in order. */
  const SETUP_WRITES: seq<(nat, Reg16)> :=
    [(REG_CS_CONF, CS_CONF_ENABLE), (REG_PS_CONF1, PS_CONF_SETUP), (REG_PS_THD, PsThd(17, 20))]

  /** `cm36652_setup_reg`: `results[i]` is what the `i`-th `regmap_write`
      would return. A write that fails ends the sequence and its error is
      the result; `writes` lists the writes issued. */
  method SetupReg(results: seq<int>) returns (ret: int, writes: seq<(nat, Reg16)>)
    requires |results| == |SETUP_WRITES|
    ensures 1 <= |writes| <= |SETUP_WRITES| && writes == SETUP_WRITES[..|writes|]
    ensures forall i :: 0 <= i < |writes| - 1 ==> results[i] >= 0
    ensures ret < 0 <==> results[|writes| - 1] < 0
    ensures ret < 0 ==> ret == results[|writes| - 1]
    ensures ret >= 0 ==> ret == 0 && writes == SETUP_WRITES
  {
    writes := [SETUP_WRITES[0]];
    ret := results[0];
    if ret < 0 {
      return;
    }
    writes := writes + [SETUP_WRITES[1]];
    ret := results[1];
    if ret < 0 {
      return;
    }
    writes := writes + [SETUP_WRITES[2]];
    ret := results[2];
    if ret < 0 {
      return;
    }
    ret := 0;
  }
}
