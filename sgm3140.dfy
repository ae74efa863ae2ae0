/** The SGM3140 / SGM3785 flash LED driver, drivers/leds/flash/leds-sgm3140.c:
    torch brightness, flash strobe with a power-down timer, and the timeout
    settings chosen at probe.

    GPIO lines, the regulator, the PWM and the timer are fields of the
    device; what a regulator or PWM call returns is a parameter of the
    operation that makes it. `LED_FULL` is a parameter of the device. */
module Sgm3140 {
  import opened Arith
  import opened Wrappers

  /** `FLASH_TIMEOUT_DEFAULT`, in microseconds. */
  const FLASH_TIMEOUT_DEFAULT: U32 := 250000
  /** `FLASH_MAX_TIMEOUT_DEFAULT`, in microseconds. */
  const FLASH_MAX_TIMEOUT_DEFAULT: U32 := 300000

  const LED_OFF: nat := 0

  datatype ChipId = Sgm3140Chip | Sgm3785Chip

  // ---- PWM duty ----

  /** `duty = period * brightness / LED_FULL`, as `do_div` computes it. */
  function Duty(period: nat, brightness: nat, ledFull: nat): nat
    requires ledFull > 0
  {
    period * brightness / ledFull
  }

  /** A brightness up to LED_FULL never asks for more than the period, full
      brightness asks for exactly the period, and off asks for nothing. */
  lemma DutyWithinPeriod(period: nat, brightness: nat, ledFull: nat)
    requires ledFull > 0 && brightness <= ledFull
    ensures Duty(period, brightness, ledFull) <= period
    ensures Duty(period, ledFull, ledFull) == period
    ensures Duty(period, LED_OFF, ledFull) == 0
  {
    if period > 0 {
      MulMonotone(brightness, ledFull, period);
    }
    DivAtMost(period * brightness, ledFull, period);
    DivModUnique(period * ledFull, ledFull, period, 0);
  }

  /** Duty grows with brightness. */
  lemma DutyMonotone(period: nat, b1: nat, b2: nat, ledFull: nat)
    requires ledFull > 0 && b1 <= b2
    ensures Duty(period, b1, ledFull) <= Duty(period, b2, ledFull)
  {
    if period > 0 {
      MulMonotone(b1, b2, period);
    }
    DivMonotone(period * b1, period * b2, ledFull);
  }

  /** Integer division keeps `<=`. */
  lemma DivMonotone(x: nat, y: nat, d: nat)
    requires d > 0 && x <= y
    ensures x / d <= y / d
  {
    var p, q := x / d, y / d;
    assert x == p * d + x % d;
    assert y == q * d + y % d;
    assert (q + 1) * d == q * d + d;
    if p > q {
      MulMonotone(q + 1, p, d);
    }
  }

  // ---- timeouts ----

  /** `max_timeout` after probe: the firmware property, or the default when
      it is missing. */
  function MaxTimeout(prop: Option<U32>): (m: U32)
    ensures prop.None? ==> m == FLASH_MAX_TIMEOUT_DEFAULT
    ensures prop.Some? ==> m == prop.value
  {
    if prop.Some? then prop.value else FLASH_MAX_TIMEOUT_DEFAULT
  }

  /** `priv->timeout` after probe: the default unless the maximum is lower. */
  function DefaultTimeout(maxTimeout: U32): (t: U32)
    ensures t <= maxTimeout && t <= FLASH_TIMEOUT_DEFAULT
    ensures t == maxTimeout || t == FLASH_TIMEOUT_DEFAULT
  {
    if maxTimeout < FLASH_TIMEOUT_DEFAULT then maxTimeout else FLASH_TIMEOUT_DEFAULT
  }

  /** `struct led_flash_setting`. */
  datatype FlashSetting = FlashSetting(min: nat, max: nat, step: nat, val: nat)

  /** The setting's current value lies between its bounds. */
  predicate SettingInRange(s: FlashSetting)
  {
    s.min <= s.val <= s.max
  }

  /** `sgm3140_init_flash_timeout` as written: the current value is always
      FLASH_TIMEOUT_DEFAULT. */
  function InitFlashTimeoutAsWritten(maxTimeout: U32): (s: FlashSetting)
    ensures s.min == 1 && s.max == maxTimeout && s.step == 1 && s.val == FLASH_TIMEOUT_DEFAULT
  {
    FlashSetting(1, maxTimeout, 1, FLASH_TIMEOUT_DEFAULT)
  }

  /** With `flash-max-timeout-us` = 100000 the timeout setting announces a
      current value of 250000, above its own maximum, while the driver's
      timeout is 100000. */
  lemma InitFlashTimeoutAsWrittenOutOfRange()
    ensures var m := MaxTimeout(Some(100000));
      && !SettingInRange(InitFlashTimeoutAsWritten(m))
      && InitFlashTimeoutAsWritten(m).val != DefaultTimeout(m)
  {
  }

  /** The timeout setting with the current value the driver actually uses. */
  function InitFlashTimeout(maxTimeout: U32): (s: FlashSetting)
    ensures s.min == 1 && s.max == maxTimeout && s.step == 1
  {
    FlashSetting(1, maxTimeout, 1, DefaultTimeout(maxTimeout))
  }

  /** For every maximum of at least 1 µs the corrected setting is in range
      and agrees with the timeout the strobe uses. */
  lemma InitFlashTimeoutInRange(prop: Option<U32>)
    requires MaxTimeout(prop) >= 1
    ensures SettingInRange(InitFlashTimeout(MaxTimeout(prop)))
    ensures InitFlashTimeout(MaxTimeout(prop)).val == DefaultTimeout(MaxTimeout(prop))
  {
  }

  // ---- the device ----

  /** One `pwm_apply_state` call: the duty cycle and enable bit applied. */
  datatype PwmApply = PwmApply(duty: nat, enabled: bool)

  /** What `sgm3140_set_enable` drives: the SGM3140 enable GPIO, or the
      SGM3785 PWM state and the `pwm_apply_state` calls made so far. */
  datatype EnableLines = EnableLines(gpio: bool, duty: nat, enabled: bool, applied: seq<PwmApply>)

  /** Whether `sgm3140_set_enable` first kicks the SGM3785 with a full duty
      cycle: going from off to an intermediate brightness. */
  predicate Kick(ledFull: nat, current: nat, b: nat) {
    b != LED_OFF && b != ledFull && current == 0
  }

  /** The lines after `sgm3140_set_enable(b)` on a device at brightness
      `current`, `apply1` being what the kick's `pwm_apply_state` returns.
      The SGM3140 drives its GPIO to `b != 0`; the SGM3785 enables the PWM iff
      the duty is positive and applies the duty, after the full-period kick
      when one is due, stopping at a failing kick. */
  function EnableAfter(chip: ChipId, period: nat, ledFull: nat, current: nat, b: nat, apply1: int,
                       l: EnableLines): (r: EnableLines)
    requires ledFull > 0
    ensures chip == Sgm3140Chip ==> r == l.(gpio := b != 0)
    ensures chip == Sgm3785Chip ==>
      var duty := Duty(period, b, ledFull);
      && r.gpio == l.gpio && r.enabled == (duty > 0)
      && (Kick(ledFull, current, b) && apply1 != 0 ==>
            r.duty == period && r.applied == l.applied + [PwmApply(period, duty > 0)])
      && (!(Kick(ledFull, current, b) && apply1 != 0) ==>
            r.duty == duty
            && r.applied == l.applied + (if Kick(ledFull, current, b) then [PwmApply(period, duty > 0)] else [])
                            + [PwmApply(duty, duty > 0)])
  {
    match chip
    case Sgm3140Chip => l.(gpio := b != 0)
    case Sgm3785Chip =>
      var duty := Duty(period, b, ledFull);
      var kicked := if Kick(ledFull, current, b) then [PwmApply(period, duty > 0)] else [];
      if Kick(ledFull, current, b) && apply1 != 0 then l.(enabled := duty > 0, duty := period, applied := l.applied + kicked)
      else l.(enabled := duty > 0, duty := duty, applied := l.applied + kicked + [PwmApply(duty, duty > 0)])
  }

  /** What `sgm3140_set_enable` returns: 0 on the SGM3140, the failing kick's
      error, or the last `pwm_apply_state` result. */
  function EnableResult(chip: ChipId, ledFull: nat, current: nat, b: nat, apply1: int, apply2: int): (ret: int)
    ensures chip == Sgm3140Chip ==> ret == 0
    ensures chip == Sgm3785Chip ==> ret == if Kick(ledFull, current, b) && apply1 != 0 then apply1 else apply2
  {
    if chip == Sgm3140Chip then 0
    else if Kick(ledFull, current, b) && apply1 != 0 then apply1
    else apply2
  }

  /** Turning the LED off switches the enable line off: the SGM3140 GPIO goes
      low, and the SGM3785 PWM is disabled with a zero duty cycle, applied
      once. */
  lemma EnableOffSwitchesOff(chip: ChipId, period: nat, ledFull: nat, current: nat, apply1: int, l: EnableLines)
    requires ledFull > 0
    ensures var r := EnableAfter(chip, period, ledFull, current, LED_OFF, apply1, l);
      && (chip == Sgm3140Chip ==> !r.gpio && r.duty == l.duty && r.enabled == l.enabled && r.applied == l.applied)
      && (chip == Sgm3785Chip ==> r.gpio == l.gpio && !r.enabled && r.duty == 0 && r.applied == l.applied + [PwmApply(0, false)])
  {
    DutyWithinPeriod(period, LED_OFF, ledFull);
  }

  /** Full brightness, as a strobe asks for, drives the SGM3140 GPIO high and
      gives the SGM3785 the whole period in one apply, with no kick. */
  lemma EnableFullIsWholePeriod(chip: ChipId, period: nat, ledFull: nat, current: nat, apply1: int, l: EnableLines)
    requires ledFull > 0
    ensures var r := EnableAfter(chip, period, ledFull, current, ledFull, apply1, l);
      && (chip == Sgm3140Chip ==> r.gpio)
      && (chip == Sgm3785Chip ==> r.duty == period && r.enabled == (period > 0) && r.applied == l.applied + [PwmApply(period, period > 0)])
  {
    DutyWithinPeriod(period, ledFull, ledFull);
  }

  /** `struct sgm3140`, with the state of the lines it drives. */
  class Sgm3140 {
    const chip: ChipId
    /** `LED_FULL`. */
    const ledFull: nat
    var brightness: nat
    var timeout: U32
    var maxTimeout: U32
    var flashTimeout: FlashSetting
    var pwmPeriod: nat
    var pwmDuty: nat
    var pwmEnabled: bool
    var pwmApplied: seq<PwmApply>
    var enableGpio: bool
    var flashGpio: bool
    var regulatorOn: bool
    /** The power-down timer's delay when it is pending. */
    var timer: Option<U32>

    /** The enable GPIO and PWM state together. */
    function Lines(): EnableLines
      reads this
    {
      EnableLines(enableGpio, pwmDuty, pwmEnabled, pwmApplied)
    }

    /** The zeroed device after probe's timeout and PWM set-up; `period` is
        what `pwm_init_state` reads. */
    constructor (chipId: ChipId, full: nat, period: nat, maxTimeoutProp: Option<U32>)
      requires full > 0
      ensures chip == chipId && ledFull == full && brightness == 0
      ensures maxTimeout == MaxTimeout(maxTimeoutProp) && timeout == DefaultTimeout(maxTimeout)
      ensures flashTimeout == InitFlashTimeout(maxTimeout)
      ensures pwmPeriod == (if chipId == Sgm3785Chip then period else 0)
      ensures pwmDuty == 0 && !pwmEnabled && pwmApplied == []
      ensures !enableGpio && !flashGpio && !regulatorOn && timer == None
    {
      chip := chipId;
      ledFull := full;
      brightness := 0;
      maxTimeout := MaxTimeout(maxTimeoutProp);
      timeout := DefaultTimeout(MaxTimeout(maxTimeoutProp));
      flashTimeout := InitFlashTimeout(MaxTimeout(maxTimeoutProp));
      pwmPeriod := if chipId == Sgm3785Chip then period else 0;
      pwmDuty := 0;
      pwmEnabled := false;
      pwmApplied := [];
      enableGpio := false;
      flashGpio := false;
      regulatorOn := false;
      timer := None;
    }

    /** `sgm3140_set_enable`. `apply1` and `apply2` are what the first and
        the last `pwm_apply_state` return. */
    method SetEnable(b: nat, apply1: int, apply2: int) returns (ret: int)
      requires ledFull > 0
      modifies this`enableGpio, this`pwmDuty, this`pwmEnabled, this`pwmApplied
      ensures Lines() == EnableAfter(chip, pwmPeriod, ledFull, brightness, b, apply1, old(Lines()))
      ensures ret == EnableResult(chip, ledFull, brightness, b, apply1, apply2)
    {
      match chip
      case Sgm3140Chip =>
        enableGpio := b != 0;
        return 0;
      case Sgm3785Chip =>
        var duty := Duty(pwmPeriod, b, ledFull);
        pwmEnabled := duty > 0;
        if b != LED_OFF && b != ledFull && brightness == 0 {
          pwmDuty := pwmPeriod;
          pwmApplied := pwmApplied + [PwmApply(pwmDuty, pwmEnabled)];
          if apply1 != 0 {
            return apply1;
          }
        }
        pwmDuty := duty;
        pwmApplied := pwmApplied + [PwmApply(pwmDuty, pwmEnabled)];
        return apply2;
    }

    /** `sgm3140_brightness_set`. `reg` is what the regulator call returns.
        A change between two non-zero brightnesses leaves the source's `ret`
        unassigned and is excluded. */
    method BrightnessSet(b: nat, apply1: int, apply2: int, reg: int) returns (ret: int)
      requires ledFull > 0
      requires brightness == b || b == 0 || brightness == 0
      modifies this`enableGpio, this`pwmDuty, this`pwmEnabled, this`pwmApplied, this`regulatorOn, this`brightness
      ensures old(brightness) == b ==>
        ret == 0 && brightness == b && regulatorOn == old(regulatorOn) && Lines() == old(Lines())
      ensures old(brightness) != b ==>
        ret == reg && Lines() == EnableAfter(chip, pwmPeriod, ledFull, old(brightness), b, apply1, old(Lines()))
      ensures old(brightness) == 0 && b != 0 ==> regulatorOn == (reg == 0 || old(regulatorOn))
      ensures old(brightness) != 0 && b == 0 ==> regulatorOn == (reg != 0 && old(regulatorOn))
      ensures brightness == if old(brightness) != b && reg == 0 then b else old(brightness)
    {
      if brightness == b {
        return 0;
      }
      var _ := SetEnable(b, apply1, apply2);
      if b != 0 && brightness == 0 {
        ret := reg;
        if ret == 0 {
          regulatorOn := true;
        }
      } else {
        ret := reg;
        if ret == 0 {
          regulatorOn := false;
        }
      }
      if ret != 0 {
        return ret;
      }
      brightness := b;
      return 0;
    }

    /** `sgm3140_strobe_set`. */
    method StrobeSet(state: bool, apply1: int, apply2: int, reg: int) returns (ret: int)
      requires ledFull > 0
      modifies this`enableGpio, this`pwmDuty, this`pwmEnabled, this`pwmApplied, this`regulatorOn
      modifies this`brightness, this`flashGpio, this`timer
      ensures (old(brightness) != 0) == state ==>
        ret == 0 && brightness == old(brightness) && flashGpio == old(flashGpio) && timer == old(timer)
        && regulatorOn == old(regulatorOn) && Lines() == old(Lines())
      ensures (old(brightness) != 0) != state ==>
        Lines() == EnableAfter(chip, pwmPeriod, ledFull, old(brightness), if state then ledFull else 0, apply1, old(Lines()))
      ensures (old(brightness) != 0) != state && reg != 0 ==>
        ret == reg && brightness == old(brightness) && flashGpio == old(flashGpio) && timer == old(timer)
        && regulatorOn == old(regulatorOn)
      ensures (old(brightness) != 0) != state && reg == 0 ==>
        && ret == 0 && brightness == (if state then 1 else 0)
        && flashGpio == state && timer == (if state then Some(timeout) else None)
        && regulatorOn == state
    {
      if (brightness != 0) == state {
        return 0;
      }
      ret := BrightnessSet(if state then ledFull else 0, apply1, apply2, reg);
      if ret != 0 {
        return ret;
      }
      if state {
        flashGpio := true;
        timer := Some(timeout);
      } else {
        timer := None;
        flashGpio := false;
      }
      brightness := if state then 1 else 0;
      return 0;
    }

    /** `sgm3140_powerdown_timer`, when the timer fires. */
    method PowerdownTimer(apply1: int, apply2: int, reg: int)
      requires ledFull > 0
      modifies this`enableGpio, this`pwmDuty, this`pwmEnabled, this`pwmApplied, this`regulatorOn
      modifies this`brightness, this`flashGpio, this`timer
      ensures !flashGpio && timer == None
      ensures reg == 0 ==> brightness == LED_OFF
      ensures reg == 0 && old(brightness) != LED_OFF ==> !regulatorOn
      ensures reg != 0 ==> brightness == old(brightness) && regulatorOn == old(regulatorOn)
      ensures old(brightness) == LED_OFF ==> Lines() == old(Lines()) && regulatorOn == old(regulatorOn)
      ensures old(brightness) != LED_OFF ==>
        Lines() == EnableAfter(chip, pwmPeriod, ledFull, old(brightness), LED_OFF, apply1, old(Lines()))
    {
      timer := None;
      flashGpio := false;
      var _ := BrightnessSet(LED_OFF, apply1, apply2, reg);
    }

    /** `sgm3140_timeout_set`. */
    method TimeoutSet(t: U32) returns (ret: int)
      modifies this`timeout
      ensures timeout == t && ret == 0
    {
      timeout := t;
      ret := 0;
    }
  }
}
