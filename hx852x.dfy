/** The event decoder and key/finger state of the Himax HX852x touchscreen
    driver, drivers/input/touchscreen/himax_hx852x.c.

    Bus traffic is abstracted: an I2C read is its transfer count and the bytes
    it delivered, a command batch is the value `hx852x_i2c_write` returns, and
    what the driver reports to the input core is appended to an event trace. */
module Hx852x {
  import opened Arith
  import opened Wrappers
  import Errno

  const HX852X_MAX_FINGERS: nat := 12
  const HX852X_MAX_KEY_COUNT: nat := 3

  /** `sizeof(struct hx852x_coord)`: two big-endian 16-bit words. */
  const COORD_BYTES: nat := 4
  /** `sizeof(struct hx852x_touch_info)`, packed: `u8`, `__le16`, `u8`. */
  const TOUCH_INFO_BYTES: nat := 4

  /** `hx852x_internal_keymappings`: the key code the chip reports per key. */
  const KEY_MAPPINGS: seq<U8> := [0x01, 0x02, 0x04]

  // ---- buffer layout ----

  /** `ALIGN(n, 4)`: `n` rounded up to a multiple of 4. */
  function Align4(n: nat): (r: nat)
    ensures r % 4 == 0 && n <= r < n + 4
  {
    RoundDown(n + 3, 4)
  }

  /** `HX852X_COORD_SIZE(f)`. */
  function CoordSize(f: nat): nat { COORD_BYTES * f }

  /** `HX852X_WIDTH_SIZE(f)`. */
  function WidthSize(f: nat): nat { Align4(f) }

  /** `HX852X_BUF_SIZE(f)`. */
  function BufSize(f: nat): nat { CoordSize(f) + WidthSize(f) + TOUCH_INFO_BYTES }

  /** Where the width bytes start: right after the coordinates. */
  function WidthOffset(f: nat): nat { CoordSize(f) }

  /** Where `struct hx852x_touch_info` starts: after the padded widths. */
  function InfoOffset(f: nat): nat { CoordSize(f) + WidthSize(f) }

  /** The three regions of the buffer follow one another without overlap and
      the touch info ends the buffer. */
  lemma BufferLayout(f: nat)
    ensures WidthOffset(f) == COORD_BYTES * f
    ensures WidthOffset(f) + f <= InfoOffset(f) < WidthOffset(f) + f + 4
    ensures InfoOffset(f) % 4 == 0
    ensures InfoOffset(f) + TOUCH_INFO_BYTES == BufSize(f)
  {
  }

  /** `HX852X_MAX_BUF_SIZE` is 64 bytes, and no supported finger count
      needs more. */
  lemma MaxBufSize(f: nat)
    requires f <= HX852X_MAX_FINGERS
    ensures BufSize(HX852X_MAX_FINGERS) == 64
    ensures BufSize(f) <= BufSize(HX852X_MAX_FINGERS)
  {
    assert Align4(HX852X_MAX_FINGERS) == 12;
  }

  // ---- frame contents ----

  /** `struct hx852x_coord` in CPU order. */
  datatype Coord = Coord(x: U16, y: U16)

  /** `struct hx852x_touch_info` in CPU order. */
  datatype TouchInfo = TouchInfo(fingerNum: U8, fingerPressed: U16)

  /** One event buffer: `f` coordinates, `f` widths and the touch info. */
  datatype Frame = Frame(coords: seq<Coord>, widths: seq<U8>, info: TouchInfo)

  predicate FrameFor(fr: Frame, f: nat)
  {
    |fr.coords| == f && |fr.widths| == f
  }

  /** `be16_to_cpu` of two bytes in memory order. */
  function Be16(b0: U8, b1: U8): U16 { b0 * 256 + b1 }

  /** `get_unaligned_le16` of two bytes in memory order. */
  function Le16(b0: U8, b1: U8): U16 { b0 + b1 * 256 }

  /** The coordinate at index `i` of the buffer. */
  function DecodeCoord(buf: seq<U8>, i: nat): Coord
    requires COORD_BYTES * i + COORD_BYTES <= |buf|
  {
    var o := COORD_BYTES * i;
    Coord(Be16(buf[o], buf[o + 1]), Be16(buf[o + 2], buf[o + 3]))
  }

  /** The frame the interrupt handler sees through `coord`, `width` and `info`. */
  function DecodeFrame(f: nat, buf: seq<U8>): (fr: Frame)
    requires |buf| == BufSize(f)
    ensures FrameFor(fr, f)
  {
    var info := InfoOffset(f);
    Frame(seq(f, i requires 0 <= i < f => DecodeCoord(buf, i)),
          buf[WidthOffset(f)..WidthOffset(f) + f],
          TouchInfo(buf[info], Le16(buf[info + 1], buf[info + 2])))
  }

  /** The bytes of coordinates `cs`, each as two big-endian words. */
  function CoordsBytes(cs: seq<Coord>): (b: seq<U8>)
    ensures |b| == COORD_BYTES * |cs|
  {
    if cs == [] then []
    else
      var c := cs[|cs| - 1];
      CoordsBytes(cs[..|cs| - 1]) + [c.x / 256, c.x % 256, c.y / 256, c.y % 256]
  }

  /** The coordinate bytes for index `i` sit at offset `4 * i`. */
  lemma {:induction false} CoordsBytesAt(cs: seq<Coord>, i: nat)
    requires i < |cs|
    ensures DecodeCoord(CoordsBytes(cs), i) == cs[i]
  {
    var n := |cs| - 1;
    var b := CoordsBytes(cs);
    var b0 := CoordsBytes(cs[..n]);
    assert b == b0 + [cs[n].x / 256, cs[n].x % 256, cs[n].y / 256, cs[n].y % 256];
    if i < n {
      CoordsBytesAt(cs[..n], i);
      var o := COORD_BYTES * i;
      assert b[o] == b0[o] && b[o + 1] == b0[o + 1] && b[o + 2] == b0[o + 2] && b[o + 3] == b0[o + 3];
    }
  }

  /** A buffer as the controller fills it for frame `fr`: padding bytes of
      the width area and of the touch info are zero. */
  function FrameBytes(fr: Frame): (b: seq<U8>)
    requires |fr.coords| == |fr.widths|
    ensures |b| == BufSize(|fr.coords|)
  {
    var f := |fr.coords|;
    var fp := fr.info.fingerPressed;
    CoordsBytes(fr.coords) + fr.widths + seq(Align4(f) - f, _ => 0)
      + [fr.info.fingerNum, fp % 256, fp / 256, 0]
  }

  /** Decoding the buffer of a frame gives back the frame. */
  lemma DecodeFrameBytes(fr: Frame)
    requires |fr.coords| == |fr.widths|
    ensures DecodeFrame(|fr.coords|, FrameBytes(fr)) == fr
  {
    var f := |fr.coords|;
    var b := FrameBytes(fr);
    var cb := CoordsBytes(fr.coords);
    var d := DecodeFrame(f, b);
    forall i | 0 <= i < f
      ensures d.coords[i] == fr.coords[i]
    {
      CoordsBytesAt(fr.coords, i);
      var o := COORD_BYTES * i;
      assert b[o..o + 4] == cb[o..o + 4];
    }
    assert d.coords == fr.coords;
    assert d.widths == fr.widths;
  }

  // ---- key and finger decoding ----

  /** `current_key`: the top nibble of `finger_pressed`, with 0x0F (no key)
      read as 0. */
  function CurrentKey(fingerPressed: U16): (k: U8)
    ensures k < 0x0F
  {
    var top := fingerPressed / 0x1000;
    if top == 0x0F then 0 else top
  }

  /** The key nibble sits above the twelve finger bits: a key code below
      0x0F is read back whatever the finger bits are, and 0x0F reads as no key. */
  lemma CurrentKeyIsTopNibble(key: nat, fingers: nat)
    requires key <= 0x0F && fingers < 0x1000
    ensures CurrentKey(key * 0x1000 + fingers) == if key == 0x0F then 0 else key
  {
    DivModUnique(key * 0x1000 + fingers, 0x1000, key, fingers);
  }

  /** `finger_pressed` after the driver's sanity check: ignored when
      `finger_num` is 0xff or its low nibble is zero. */
  function EffectivePressed(info: TouchInfo): (fp: U16)
    ensures fp == 0 || fp == info.fingerPressed
    ensures fp == 0 <== (info.fingerNum == 0xFF || info.fingerNum % 16 == 0)
    ensures !(info.fingerNum == 0xFF || info.fingerNum % 16 == 0) ==> fp == info.fingerPressed
  {
    if info.fingerNum == 0xFF || info.fingerNum % 16 == 0 then 0 else info.fingerPressed
  }

  /** Bit `i` of `finger_pressed`. */
  predicate FingerBit(fp: nat, i: nat)
  {
    (fp / Pow2(i)) % 2 == 1
  }

  /** Some bit below `n` of `fp` is set. */
  predicate AnyFingerBelow(fp: nat, n: nat)
  {
    n > 0 && (AnyFingerBelow(fp, n - 1) || FingerBit(fp, n - 1))
  }

  lemma {:induction false} AnyFingerBelowIff(fp: nat, n: nat)
    ensures AnyFingerBelow(fp, n) <==> exists i :: 0 <= i < n && FingerBit(fp, i)
  {
    if n > 0 {
      AnyFingerBelowIff(fp, n - 1);
      if FingerBit(fp, n - 1) {
        assert 0 <= n - 1 < n && FingerBit(fp, n - 1);
      }
      if exists i :: 0 <= i < n && FingerBit(fp, i) {
        var i :| 0 <= i < n && FingerBit(fp, i);
        if i < n - 1 {
          assert 0 <= i < n - 1 && FingerBit(fp, i);
        }
      }
    }
  }

  /** A zero `finger_pressed` has no finger bit set. */
  lemma {:induction false} NoFingerInZero(n: nat)
    ensures !AnyFingerBelow(0, n)
  {
    if n > 0 {
      NoFingerInZero(n - 1);
    }
  }

  /** Which report path one interrupt takes. */
  datatype Path = DisplayPath | ButtonPath | NoPath

  function ChoosePath(fp: U16, hadFingerPressed: bool, keycount: int, currentKey: U8, lastKey: U8): Path
  {
    if fp != 0 || hadFingerPressed then DisplayPath
    else if keycount != 0 && (currentKey != 0 || lastKey != 0) then ButtonPath
    else NoPath
  }

  /** The display path runs exactly when a finger word is set or a finger was
      down at the last interrupt; the key path only otherwise, and only with
      keys and a current or a previous key. */
  lemma PathChoice(fp: U16, had: bool, keycount: int, cur: U8, last: U8)
    ensures ChoosePath(fp, had, keycount, cur, last) == DisplayPath <==> fp != 0 || had
    ensures ChoosePath(fp, had, keycount, cur, last) == ButtonPath <==>
              fp == 0 && !had && keycount != 0 && (cur != 0 || last != 0)
  {
  }

  // ---- reports ----

  /** What the driver reports to the input core. */
  datatype InputEvent =
    | KeyEvent(code: U32, pressed: bool)     // input_report_key
    | MtSlot(slot: nat)                      // input_mt_slot
    | SlotActive                             // input_mt_report_slot_state(.., 1)
    | Position(x: U16, y: U16)               // touchscreen_report_pos
    | TouchMajor(w: U8)                      // input_report_abs(ABS_MT_TOUCH_MAJOR)
    | MtSyncFrame                            // input_mt_sync_frame
    | Sync                                   // input_sync

  /** The report for key `i` in `hx852x_process_btn_touch`: pressed when its
      mapping is the current key, else released when it is the last key. */
  function KeyEventFor(keycodes: seq<U32>, i: nat, cur: U8, last: U8): seq<InputEvent>
    requires i < |keycodes| && i < |KEY_MAPPINGS|
  {
    if KEY_MAPPINGS[i] == cur then [KeyEvent(keycodes[i], true)]
    else if KEY_MAPPINGS[i] == last then [KeyEvent(keycodes[i], false)]
    else []
  }

  /** The reports of `hx852x_process_btn_touch` for the first `n` keys. */
  function BtnEvents(keycodes: seq<U32>, n: nat, cur: U8, last: U8): seq<InputEvent>
    requires n <= |keycodes| && n <= |KEY_MAPPINGS|
  {
    if n == 0 then [] else BtnEvents(keycodes, n - 1, cur, last) + KeyEventFor(keycodes, n - 1, cur, last)
  }

  /** `e` is the report of one of the first `n` keys. */
  predicate ExplainedKeyEvent(e: InputEvent, keycodes: seq<U32>, n: nat, cur: U8, last: U8)
    requires n <= |keycodes| && n <= |KEY_MAPPINGS|
  {
    exists i :: 0 <= i < n && KeyEventFor(keycodes, i, cur, last) == [e]
  }

  /** The key mapped to the current key is reported pressed; one mapped to
      the previous key, and not to the current one, is reported released. */
  lemma {:induction false} BtnEventsReport(keycodes: seq<U32>, n: nat, cur: U8, last: U8, i: nat)
    requires i < n <= |keycodes| && n <= |KEY_MAPPINGS|
    ensures KEY_MAPPINGS[i] == cur ==> KeyEvent(keycodes[i], true) in BtnEvents(keycodes, n, cur, last)
    ensures KEY_MAPPINGS[i] == last && KEY_MAPPINGS[i] != cur ==>
              KeyEvent(keycodes[i], false) in BtnEvents(keycodes, n, cur, last)
  {
    if i < n - 1 {
      BtnEventsReport(keycodes, n - 1, cur, last, i);
    }
  }

  /** Every key report belongs to a key mapped to the current or the
      previous key. */
  lemma {:induction false} BtnEventsExplained(keycodes: seq<U32>, n: nat, cur: U8, last: U8)
    requires n <= |keycodes| && n <= |KEY_MAPPINGS|
    ensures forall e :: e in BtnEvents(keycodes, n, cur, last) ==> ExplainedKeyEvent(e, keycodes, n, cur, last)
  {
    if n > 0 {
      BtnEventsExplained(keycodes, n - 1, cur, last);
      forall e | e in BtnEvents(keycodes, n, cur, last)
        ensures ExplainedKeyEvent(e, keycodes, n, cur, last)
      {
        if e in BtnEvents(keycodes, n - 1, cur, last) {
          var i :| 0 <= i < n - 1 && KeyEventFor(keycodes, i, cur, last) == [e];
          assert 0 <= i < n && KeyEventFor(keycodes, i, cur, last) == [e];
        } else {
          assert KeyEventFor(keycodes, n - 1, cur, last) == [e];
        }
      }
    }
  }

  /** With no current key nothing is reported pressed. */
  lemma {:induction false} NoKeyNoPress(keycodes: seq<U32>, n: nat, last: U8)
    requires n <= |keycodes| && n <= |KEY_MAPPINGS|
    ensures forall e :: e in BtnEvents(keycodes, n, 0, last) ==> e.KeyEvent? && !e.pressed
  {
    if n > 0 {
      NoKeyNoPress(keycodes, n - 1, last);
    }
  }

  /** The reports for the first `n` bits in `hx852x_process_display_touch`. */
  function DisplayEvents(fr: Frame, fp: nat, n: nat): seq<InputEvent>
    requires n <= |fr.coords| && n <= |fr.widths|
  {
    if n == 0 then []
    else
      var i := n - 1;
      DisplayEvents(fr, fp, i)
        + if FingerBit(fp, i) then [MtSlot(i), SlotActive, Position(fr.coords[i].x, fr.coords[i].y), TouchMajor(fr.widths[i])]
          else []
  }

  /** Slot `i` is reported, with coordinate `i`, exactly when bit `i` is set. */
  lemma {:induction false} DisplayEventsSlots(fr: Frame, fp: nat, n: nat, i: nat)
    requires n <= |fr.coords| && n <= |fr.widths|
    ensures MtSlot(i) in DisplayEvents(fr, fp, n) <==> i < n && FingerBit(fp, i)
    ensures i < n && FingerBit(fp, i) ==> Position(fr.coords[i].x, fr.coords[i].y) in DisplayEvents(fr, fp, n)
  {
    if n > 0 {
      DisplayEventsSlots(fr, fp, n - 1, i);
    }
  }

  /** The release path of `hx852x_suspend` for the first `n` keys. */
  function ReleaseEvents(keycodes: seq<U32>, n: nat, last: U8): seq<InputEvent>
    requires n <= |keycodes| && n <= |KEY_MAPPINGS|
  {
    if n == 0 then []
    else
      ReleaseEvents(keycodes, n - 1, last)
        + if KEY_MAPPINGS[n - 1] == last then [KeyEvent(keycodes[n - 1], false)] else []
  }

  /** Suspend reports exactly the keys mapped to the last key, as released. */
  lemma {:induction false} ReleaseEventsExact(keycodes: seq<U32>, n: nat, last: U8, e: InputEvent)
    requires n <= |keycodes| && n <= |KEY_MAPPINGS|
    ensures e in ReleaseEvents(keycodes, n, last) <==>
              exists i :: 0 <= i < n && KEY_MAPPINGS[i] == last && e == KeyEvent(keycodes[i], false)
  {
    if n > 0 {
      ReleaseEventsExact(keycodes, n - 1, last, e);
      var j := n - 1;
      if KEY_MAPPINGS[j] == last && e == KeyEvent(keycodes[j], false) {
        assert 0 <= j < n && KEY_MAPPINGS[j] == last && e == KeyEvent(keycodes[j], false);
      }
    }
  }

  /** What `hx852x_i2c_read` returns for an `i2c_transfer` of two messages
      that returned `transferred`: 0 when both went through, else that value,
      which is also 0 when none did. */
  function I2cReadResult(transferred: int): (error: int)
    ensures error == 0 <==> transferred == 2 || transferred == 0
    ensures error != 0 ==> error == transferred
  {
    if transferred != 2 then transferred else 0
  }

  /** `irqreturn_t`. */
  datatype IrqReturn = IrqNone | IrqHandled

  /** `struct hx852x`, reduced to the fields the decoder and the key state
      use, with the reports made so far. */
  class Hx852x {
    var maxFingers: int
    var keycount: int
    var keycodes: seq<U32>
    var hadFingerPressed: bool
    var lastKey: U8
    /** The `input_set_abs_params` maxima for x and y, once set. */
    var absMax: Option<(int, int)>
    var regulatorsOn: bool
    var events: seq<InputEvent>

    /** The state `hx852x_probe` leaves after a successful configuration. */
    predicate Valid()
      reads this
    {
      0 <= maxFingers <= HX852X_MAX_FINGERS && 0 <= keycount <= HX852X_MAX_KEY_COUNT
      && |keycodes| == HX852X_MAX_KEY_COUNT
    }

    /** `devm_kzalloc`: everything zero. */
    constructor ()
      ensures maxFingers == 0 && keycount == 0 && keycodes == [0, 0, 0]
      ensures !hadFingerPressed && lastKey == 0 && absMax == None && !regulatorsOn && events == []
      ensures Valid()
    {
      maxFingers := 0;
      keycount := 0;
      keycodes := [0, 0, 0];
      hadFingerPressed := false;
      lastKey := 0;
      absMax := None;
      regulatorsOn := false;
      events := [];
    }

    /** `hx852x_process_btn_touch`. */
    method ProcessBtnTouch(cur: U8)
      requires Valid()
      modifies this`lastKey, this`events
      ensures events == old(events) + BtnEvents(keycodes, keycount, cur, old(lastKey))
      ensures lastKey == cur
    {
      var i := 0;
      while i < keycount
        invariant 0 <= i <= keycount
        invariant lastKey == old(lastKey)
        invariant events == old(events) + BtnEvents(keycodes, i, cur, lastKey)
      {
        if KEY_MAPPINGS[i] == cur {
          events := events + [KeyEvent(keycodes[i], true)];
        } else if KEY_MAPPINGS[i] == lastKey {
          events := events + [KeyEvent(keycodes[i], false)];
        }
        i := i + 1;
      }
      lastKey := cur;
    }

    /** `hx852x_process_display_touch`: `for_each_set_bit` below `max_fingers`. */
    method ProcessDisplayTouch(fr: Frame, fp: U16)
      requires Valid() && FrameFor(fr, maxFingers)
      modifies this`hadFingerPressed, this`events
      ensures events == old(events) + DisplayEvents(fr, fp, maxFingers) + [MtSyncFrame]
      ensures hadFingerPressed == AnyFingerBelow(fp, maxFingers)
    {
      hadFingerPressed := false;
      var i := 0;
      while i < maxFingers
        invariant 0 <= i <= maxFingers
        invariant events == old(events) + DisplayEvents(fr, fp, i)
        invariant hadFingerPressed == AnyFingerBelow(fp, i)
      {
        if FingerBit(fp, i) {
          events := events + [MtSlot(i), SlotActive, Position(fr.coords[i].x, fr.coords[i].y), TouchMajor(fr.widths[i])];
          hadFingerPressed := true;
        }
        i := i + 1;
      }
      events := events + [MtSyncFrame];
    }

    /** `hx852x_interrupt`: `transferred` is what `i2c_transfer` returned and
        `buf` the `HX852X_BUF_SIZE(max_fingers)` bytes in the buffer after it. */
    method Interrupt(transferred: int, buf: seq<U8>) returns (ret: IrqReturn)
      requires Valid() && |buf| == BufSize(maxFingers)
      modifies this`hadFingerPressed, this`lastKey, this`events
      ensures I2cReadResult(transferred) != 0 ==> ret == IrqNone && events == old(events)
      ensures I2cReadResult(transferred) != 0 ==> hadFingerPressed == old(hadFingerPressed) && lastKey == old(lastKey)
      ensures I2cReadResult(transferred) == 0 ==> ret == IrqHandled
      ensures I2cReadResult(transferred) == 0 ==>
        var fr := DecodeFrame(maxFingers, buf);
        var cur := CurrentKey(fr.info.fingerPressed);
        var fp := EffectivePressed(fr.info);
        match ChoosePath(fp, old(hadFingerPressed), keycount, cur, old(lastKey))
        case DisplayPath =>
          && events == old(events) + DisplayEvents(fr, fp, maxFingers) + [MtSyncFrame, Sync]
          && hadFingerPressed == AnyFingerBelow(fp, maxFingers) && lastKey == old(lastKey)
        case ButtonPath =>
          && events == old(events) + BtnEvents(keycodes, keycount, cur, old(lastKey)) + [Sync]
          && hadFingerPressed == old(hadFingerPressed) && lastKey == cur
        case NoPath =>
          && events == old(events) + [Sync]
          && hadFingerPressed == old(hadFingerPressed) && lastKey == old(lastKey)
    {
      var error := I2cReadResult(transferred);
      if error != 0 {
        return IrqNone;
      }
      var fr := DecodeFrame(maxFingers, buf);
      var cur := CurrentKey(fr.info.fingerPressed);
      var fp := EffectivePressed(fr.info);
      if fp != 0 || hadFingerPressed {
        ProcessDisplayTouch(fr, fp);
      } else if keycount != 0 && (cur != 0 || lastKey != 0) {
        ProcessBtnTouch(cur);
      }
      events := events + [Sync];
      ret := IrqHandled;
    }

    /** `hx852x_read_config`. `powerOn` is what `hx852x_power_on` returned
        (it leaves the regulators on only on success), `getConf` and `endConf`
        what the two command batches returned, `readTransferred` the transfer
        count of the configuration read, and `maxPt`, `xRes`, `yRes` the
        fields it read. */
    method ReadConfig(powerOn: int, getConf: int, readTransferred: int, endConf: int,
                      maxPt: U8, xRes: U16, yRes: U16) returns (error: int)
      modifies this`maxFingers, this`absMax, this`regulatorsOn
      ensures powerOn != 0 ==> error == powerOn && maxFingers == old(maxFingers)
                               && absMax == old(absMax) && regulatorsOn == old(regulatorsOn)
      ensures powerOn == 0 ==> !regulatorsOn
      ensures powerOn == 0 && getConf != 0 ==> error == getConf && maxFingers == old(maxFingers)
      ensures powerOn == 0 && getConf == 0 && I2cReadResult(readTransferred) != 0 ==>
                error == readTransferred && maxFingers == old(maxFingers)
      ensures powerOn == 0 && getConf == 0 && I2cReadResult(readTransferred) == 0 && endConf != 0 ==>
                error == endConf && maxFingers == old(maxFingers)
      ensures powerOn == 0 && getConf == 0 && I2cReadResult(readTransferred) == 0 && endConf == 0 ==>
                && maxFingers == maxPt / 16
                && (maxPt / 16 > HX852X_MAX_FINGERS <==> error == -Errno.EINVAL)
                && (maxPt / 16 <= HX852X_MAX_FINGERS <==> error == 0)
      ensures error == 0 ==>
                absMax == if xRes - 1 != 0 && yRes - 1 != 0 then Some((xRes - 1, yRes - 1)) else old(absMax)
      ensures error != 0 ==> absMax == old(absMax)
    {
      if powerOn != 0 {
        return powerOn;
      }
      regulatorsOn := true;
      error := getConf;
      if error == 0 {
        error := I2cReadResult(readTransferred);
        if error == 0 {
          error := endConf;
          if error == 0 {
            maxFingers := maxPt / 16;
            if maxFingers > HX852X_MAX_FINGERS {
              error := -Errno.EINVAL;
            } else {
              var xMax := xRes - 1;
              var yMax := yRes - 1;
              if xMax != 0 && yMax != 0 {
                absMax := Some((xMax, yMax));
              }
            }
          }
        }
      }
      regulatorsOn := false;
    }

    /** `hx852x_parse_properties`: `count` is what
        `device_property_count_u32` returned, `readError` and `values` the
        outcome of reading the array. */
    method ParseProperties(count: int, readError: int, values: seq<U32>) returns (error: int)
      requires |keycodes| == HX852X_MAX_KEY_COUNT && |values| == HX852X_MAX_KEY_COUNT
      modifies this`keycount, this`keycodes
      ensures count <= 0 ==> keycount == 0 && error == 0 && keycodes == old(keycodes)
      ensures count > HX852X_MAX_KEY_COUNT ==> keycount == count && error == -Errno.EINVAL && keycodes == old(keycodes)
      ensures 0 < count <= HX852X_MAX_KEY_COUNT ==> keycount == count && error == readError
      ensures 0 < count <= HX852X_MAX_KEY_COUNT && readError == 0 ==>
                keycodes == values[..count] + old(keycodes)[count..]
      ensures readError != 0 ==> keycodes == old(keycodes)
      ensures |keycodes| == HX852X_MAX_KEY_COUNT
    {
      keycount := count;
      if keycount <= 0 {
        keycount := 0;
        return 0;
      }
      if keycount > HX852X_MAX_KEY_COUNT {
        return -Errno.EINVAL;
      }
      error := readError;
      if error == 0 {
        keycodes := values[..count] + keycodes[count..];
      }
    }

    /** `hx852x_suspend`, after the device is stopped. */
    method Suspend() returns (ret: int)
      requires Valid()
      modifies this`hadFingerPressed, this`lastKey, this`events
      ensures ret == 0 && lastKey == 0 && !hadFingerPressed
      ensures events == old(events)
                + (if old(hadFingerPressed) then [MtSyncFrame] else [])
                + (if old(lastKey) != 0 then ReleaseEvents(keycodes, keycount, old(lastKey)) else [])
                + (if old(hadFingerPressed) || old(lastKey) != 0 then [Sync] else [])
    {
      if hadFingerPressed {
        events := events + [MtSyncFrame];
      }
      ghost var before := events;
      if lastKey != 0 {
        var i := 0;
        while i < keycount
          invariant 0 <= i <= keycount
          invariant lastKey == old(lastKey) && hadFingerPressed == old(hadFingerPressed)
          invariant events == before + ReleaseEvents(keycodes, i, lastKey)
        {
          if KEY_MAPPINGS[i] == lastKey {
            events := events + [KeyEvent(keycodes[i], false)];
          }
          i := i + 1;
        }
      }
      if hadFingerPressed || lastKey != 0 {
        events := events + [Sync];
      }
      lastKey := 0;
      hadFingerPressed := false;
      ret := 0;
    }
  }
}
