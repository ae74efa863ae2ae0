/** The touch-report frame decoder of the MStar msg26xx touchscreen driver,
    drivers/input/touchscreen/msg26xx.c. */
module Msg26xx {
  import opened Arith
  import Errno

  const MODE_DATA_RAW: U8 := 0x5A
  const TPD_WIDTH: int := 2048
  const TPD_HEIGHT: int := 2048
  const MAX_SUPPORTED_FINGER_NUM: nat := 5

  /** `sizeof(struct packet)`: four `u8` fields. */
  const PACKET_SIZE: nat := 4

  /** `sizeof(struct touch_event)`: mode, five packets, proximity, checksum. */
  const TOUCH_EVENT_SIZE: nat := 1 + MAX_SUPPORTED_FINGER_NUM * PACKET_SIZE + 1 + 1

  // ---- frame layout ----

  /** `struct packet`. */
  datatype Packet = Packet(xyHi: U8, xLow: U8, yLow: U8, pressure: U8)

  /** `struct touch_event`. */
  datatype TouchEvent = TouchEvent(mode: U8, pkt: seq<Packet>, proximity: U8, checksum: U8)

  predicate ValidEvent(ev: TouchEvent)
  {
    |ev.pkt| == MAX_SUPPORTED_FINGER_NUM
  }

  /** The bytes of one packet, in field order. */
  function PacketBytes(p: Packet): (b: seq<U8>)
    ensures |b| == PACKET_SIZE
  {
    [p.xyHi, p.xLow, p.yLow, p.pressure]
  }

  /** The bytes of packets `pkt`, one after another. */
  function PacketsBytes(pkt: seq<Packet>): (b: seq<U8>)
    ensures |b| == PACKET_SIZE * |pkt|
  {
    if pkt == [] then [] else PacketsBytes(pkt[..|pkt| - 1]) + PacketBytes(pkt[|pkt| - 1])
  }

  /** The frame as the I2C read fills it: the struct's bytes in memory order. */
  function EventBytes(ev: TouchEvent): (b: seq<U8>)
    requires ValidEvent(ev)
    ensures |b| == TOUCH_EVENT_SIZE
  {
    [ev.mode] + PacketsBytes(ev.pkt) + [ev.proximity, ev.checksum]
  }

  /** The packet at byte offset `off` of `b`. */
  function PacketAt(b: seq<U8>, off: nat): Packet
    requires off + PACKET_SIZE <= |b|
  {
    Packet(b[off], b[off + 1], b[off + 2], b[off + 3])
  }

  /** The first `n` packets stored from byte 1 of a frame. */
  function PacketsOf(frame: seq<U8>, n: nat): (pkt: seq<Packet>)
    requires 1 + PACKET_SIZE * n <= |frame|
    ensures |pkt| == n
  {
    if n == 0 then [] else PacketsOf(frame, n - 1) + [PacketAt(frame, 1 + PACKET_SIZE * (n - 1))]
  }

  /** The frame read as a `struct touch_event`. */
  function ParseEvent(frame: seq<U8>): (ev: TouchEvent)
    requires |frame| == TOUCH_EVENT_SIZE
    ensures ValidEvent(ev)
  {
    TouchEvent(frame[0], PacketsOf(frame, MAX_SUPPORTED_FINGER_NUM), frame[21], frame[22])
  }

  /** Reading back the bytes of `n` packets gives those packets. */
  lemma {:induction false} PacketsRoundTrip(pkt: seq<Packet>, prefix: seq<U8>, suffix: seq<U8>)
    requires |prefix| == 1
    ensures PacketsOf(prefix + PacketsBytes(pkt) + suffix, |pkt|) == pkt
    decreases |pkt|
  {
    if pkt != [] {
      var n := |pkt| - 1;
      var init := pkt[..n];
      var frame := prefix + PacketsBytes(pkt) + suffix;
      assert frame == prefix + PacketsBytes(init) + (PacketBytes(pkt[n]) + suffix);
      PacketsRoundTrip(init, prefix, PacketBytes(pkt[n]) + suffix);
      assert PacketAt(frame, 1 + PACKET_SIZE * n) == pkt[n];
      assert init + [pkt[n]] == pkt;
    }
  }

  /** The frame layout round-trips: parsing the bytes of an event gives the event. */
  lemma EventRoundTrip(ev: TouchEvent)
    requires ValidEvent(ev)
    ensures ParseEvent(EventBytes(ev)) == ev
  {
    var b := EventBytes(ev);
    PacketsRoundTrip(ev.pkt, [ev.mode], [ev.proximity, ev.checksum]);
    assert b == [ev.mode] + PacketsBytes(ev.pkt) + [ev.proximity, ev.checksum];
  }

  // ---- mstar_checksum ----

  /** The byte sum of `data`. */
  function Sum(data: seq<U8>): int
  {
    if data == [] then 0 else Sum(data[..|data| - 1]) + data[|data| - 1]
  }

  /** Two numbers equal modulo 2^32 have negations equal modulo 256. */
  lemma NegModAgrees(a: int, b: int)
    requires (a - b) % 0x1_0000_0000 == 0
    ensures (-a) % 256 == (-b) % 256
  {
    var k := (a - b) / 0x1_0000_0000;
    assert a == b + 0x1_0000_0000 * k;
    assert -a == -b + 256 * (-0x100_0000 * k);
  }

  /** `mstar_checksum(data, length)`: the `s32` running sum of the first
      `length` bytes, negated and masked to a byte. */
  method MstarChecksum(data: seq<U8>, length: U32) returns (c: U8)
    requires length <= |data|
    ensures c == (-Sum(data[..length])) % 256
  {
    var sum: Int32 := 0;
    var i: U32 := 0;
    while i < length
      invariant i <= length
      invariant (sum - Sum(data[..i])) % 0x1_0000_0000 == 0
    {
      assert data[..i + 1][..i] == data[..i];
      sum := Wrap32(sum + data[i]);
      i := i + 1;
    }
    assert data[..length] == data[..i];
    NegModAgrees(sum, Sum(data[..length]));
    c := (-(sum as int)) % 256;
  }

  /** A frame passes the check when its checksum byte makes the byte sum of
      the whole checked range, checksum included, a multiple of 256. */
  lemma ChecksumCompletesSum(data: seq<U8>, c: U8)
    requires c == (-Sum(data)) % 256
    ensures (Sum(data) + c) % 256 == 0
  {
  }

  // ---- packet decoding ----

  /** `p->xy_hi == 0xFF && p->x_low == 0xFF && p->y_low == 0xFF`: the slot
      carries no pressed finger. */
  predicate Unpressed(p: Packet)
  {
    p.xyHi == 0xFF && p.xLow == 0xFF && p.yLow == 0xFF
  }

  /** The raw x coordinate, `((p->xy_hi & 0xF0) << 4) | p->x_low`: the high
      nibble of `xy_hi` in bits 8-11 above `x_low`. */
  function RawX(p: Packet): (x: int)
    ensures 0 <= x < 4096
  {
    (p.xyHi / 16) * 256 + p.xLow
  }

  /** The raw y coordinate, `((p->xy_hi & 0x0F) << 8) | p->y_low`: the low
      nibble of `xy_hi` in bits 8-11 above `y_low`. */
  function RawY(p: Packet): (y: int)
    ensures 0 <= y < 4096
  {
    (p.xyHi % 16) * 256 + p.yLow
  }

  /** The shift-and-mask expressions of the driver compute `RawX` and `RawY`
      (shown on 16-bit words holding the bytes). */
  lemma RawCoordinatesAreBitFields(xyHi: bv16, low: bv16)
    requires xyHi < 256 && low < 256
    ensures ((xyHi & 0xF0) << 4) | low == (xyHi / 16) * 256 + low
    ensures ((xyHi & 0x0F) << 8) | low == (xyHi % 16) * 256 + low
  {
  }

  /** `raw * max / TPD_SIZE` stored into a `u16`: the product is computed on
      `unsigned int` (`prop.max_x` is one) and the quotient truncated. */
  function ScaleCoord(raw: int, max: U32, tpdSize: int): U16
    requires 0 <= raw < 4096 && tpdSize > 0
  {
    ((raw * max) % 0x1_0000_0000 / tpdSize) % 0x1_0000
  }

  /** For a raw value inside the panel (below TPD_WIDTH/TPD_HEIGHT) and a
      16-bit maximum, nothing wraps: the coordinate is `raw * max / 2048`,
      which is at most `max`. */
  lemma ScaleCoordExact(raw: int, max: U32)
    requires 0 <= raw < TPD_WIDTH
    requires max < 0x1_0000
    ensures ScaleCoord(raw, max, TPD_WIDTH) == raw * max / TPD_WIDTH
    ensures ScaleCoord(raw, max, TPD_WIDTH) <= max
  {
    var prod := raw * max;
    if max > 0 {
      MulMonotone(raw, TPD_WIDTH, max);
    }
    assert 0 <= prod <= max * TPD_WIDTH;
    DivAtMost(prod, TPD_WIDTH, max);
    assert prod % 0x1_0000_0000 == prod;
  }

  /** One `mstar_report_finger` call: the slot and the position passed on. */
  datatype FingerReport = FingerReport(slot: nat, x: U16, y: U16)

  /** The report for a pressed packet in slot `slot`. */
  function ReportFor(p: Packet, slot: nat, maxX: U32, maxY: U32): FingerReport
  {
    FingerReport(slot, ScaleCoord(RawX(p), maxX, TPD_WIDTH), ScaleCoord(RawY(p), maxY, TPD_HEIGHT))
  }

  /** The reports for the first `n` packets: each pressed packet's report,
      in slot order. */
  function ReportsOf(pkt: seq<Packet>, n: nat, maxX: U32, maxY: U32): (r: seq<FingerReport>)
    requires n <= |pkt|
    ensures |r| <= n
    ensures forall k :: 0 <= k < |r| ==> r[k].slot < n && !Unpressed(pkt[r[k].slot])
  {
    if n == 0 then []
    else
      var p := pkt[n - 1];
      ReportsOf(pkt, n - 1, maxX, maxY) + if Unpressed(p) then [] else [ReportFor(p, n - 1, maxX, maxY)]
  }

  /** Reports whose slots strictly increase. */
  predicate SlotsIncreasing(r: seq<FingerReport>)
  {
    forall a, b :: 0 <= a < b < |r| ==> r[a].slot < r[b].slot
  }

  /** Reports each carrying its own packet's scaled position. */
  predicate ReportsMatchPackets(r: seq<FingerReport>, pkt: seq<Packet>, maxX: U32, maxY: U32)
  {
    forall k :: 0 <= k < |r| ==> r[k].slot < |pkt| && r[k] == ReportFor(pkt[r[k].slot], r[k].slot, maxX, maxY)
  }

  /** Some report among `r` is for slot `i`. */
  predicate Reported(r: seq<FingerReport>, i: nat)
  {
    exists k :: 0 <= k < |r| && r[k].slot == i
  }

  /** Slots are reported in strictly increasing order. */
  lemma {:induction false} ReportsOfIncreasing(pkt: seq<Packet>, n: nat, maxX: U32, maxY: U32)
    requires n <= |pkt|
    ensures SlotsIncreasing(ReportsOf(pkt, n, maxX, maxY))
  {
    if n > 0 {
      ReportsOfIncreasing(pkt, n - 1, maxX, maxY);
      var r0 := ReportsOf(pkt, n - 1, maxX, maxY);
      var r := ReportsOf(pkt, n, maxX, maxY);
      if !Unpressed(pkt[n - 1]) {
        assert r == r0 + [ReportFor(pkt[n - 1], n - 1, maxX, maxY)];
        forall a, b | 0 <= a < b < |r|
          ensures r[a].slot < r[b].slot
        {
          assert r[a] == r0[a];
          if b < |r0| {
            assert r[b] == r0[b];
          }
        }
      }
    }
  }

  /** Each report carries its packet's position scaled to the panel. */
  lemma {:induction false} ReportsOfContent(pkt: seq<Packet>, n: nat, maxX: U32, maxY: U32)
    requires n <= |pkt|
    ensures ReportsMatchPackets(ReportsOf(pkt, n, maxX, maxY), pkt, maxX, maxY)
  {
    if n > 0 {
      ReportsOfContent(pkt, n - 1, maxX, maxY);
      var r0 := ReportsOf(pkt, n - 1, maxX, maxY);
      var r := ReportsOf(pkt, n, maxX, maxY);
      if !Unpressed(pkt[n - 1]) {
        assert r == r0 + [ReportFor(pkt[n - 1], n - 1, maxX, maxY)];
        forall k | 0 <= k < |r|
          ensures r[k].slot < |pkt| && r[k] == ReportFor(pkt[r[k].slot], r[k].slot, maxX, maxY)
        {
          if k < |r0| {
            assert r[k] == r0[k];
          }
        }
      }
    }
  }

  /** Slot `i` is reported exactly when packet `i` is pressed. */
  lemma {:induction false} ReportsOfCoverPressed(pkt: seq<Packet>, n: nat, maxX: U32, maxY: U32, i: nat)
    requires i < n <= |pkt|
    ensures Reported(ReportsOf(pkt, n, maxX, maxY), i) <==> !Unpressed(pkt[i])
  {
    var r0 := ReportsOf(pkt, n - 1, maxX, maxY);
    var r := ReportsOf(pkt, n, maxX, maxY);
    if !Unpressed(pkt[n - 1]) {
      assert r == r0 + [ReportFor(pkt[n - 1], n - 1, maxX, maxY)];
    }
    if i < n - 1 {
      ReportsOfCoverPressed(pkt, n - 1, maxX, maxY, i);
      if Reported(r0, i) {
        var k :| 0 <= k < |r0| && r0[k].slot == i;
        assert r[k] == r0[k];
      }
    } else if !Unpressed(pkt[i]) {
      assert r[|r| - 1].slot == i;
    }
  }

  /** `irqreturn_t`; the handler only ever returns IRQ_HANDLED. */
  datatype IrqReturn = IrqNone | IrqHandled

  /** What one interrupt produces: the finger reports, whether the frame
      was synced to the input core, and the return value. */
  datatype IrqOutcome = IrqOutcome(reports: seq<FingerReport>, synced: bool, ret: IrqReturn)

  /** A frame the handler accepts: raw mode and a matching checksum over
      every byte before the checksum. */
  predicate FrameAccepted(frame: seq<U8>)
    requires |frame| == TOUCH_EVENT_SIZE
  {
    frame[0] == MODE_DATA_RAW && (-Sum(frame[..TOUCH_EVENT_SIZE - 1])) % 256 == frame[22]
  }

  /** `mstar_ts_irq_handler`: `transferOk` is whether `i2c_transfer`
      returned 1, `frame` the bytes it read; `maxX`/`maxY` are
      `prop.max_x`/`prop.max_y`. */
  method MstarTsIrqHandler(transferOk: bool, frame: seq<U8>, maxX: U32, maxY: U32) returns (out: IrqOutcome)
    requires |frame| == TOUCH_EVENT_SIZE
    ensures out.ret == IrqHandled
    ensures !(transferOk && FrameAccepted(frame)) ==> out.reports == [] && !out.synced
    ensures transferOk && FrameAccepted(frame) ==>
              out.synced && out.reports == ReportsOf(ParseEvent(frame).pkt, MAX_SUPPORTED_FINGER_NUM, maxX, maxY)
  {
    out := IrqOutcome([], false, IrqHandled);
    if !transferOk {
      return;
    }
    var ev := ParseEvent(frame);
    if ev.mode != MODE_DATA_RAW {
      return;
    }
    var c := MstarChecksum(frame, TOUCH_EVENT_SIZE - 1);
    if c != ev.checksum {
      return;
    }
    var reports: seq<FingerReport> := [];
    var i := 0;
    while i < MAX_SUPPORTED_FINGER_NUM
      invariant i <= MAX_SUPPORTED_FINGER_NUM
      invariant reports == ReportsOf(ev.pkt, i, maxX, maxY)
    {
      var p := ev.pkt[i];
      if !Unpressed(p) {
        var x := ScaleCoord(RawX(p), maxX, TPD_WIDTH);
        var y := ScaleCoord(RawY(p), maxY, TPD_HEIGHT);
        reports := reports + [FingerReport(i, x, y)];
      }
      i := i + 1;
    }
    out := IrqOutcome(reports, true, IrqHandled);
  }

  // ---- mstar_init_input_dev ----

  /** The return value of `mstar_init_input_dev`: `haveDev` is whether
      `devm_input_allocate_device` succeeded, `maxX`/`maxY` the parsed
      touchscreen size, `mtError` and `registerError` the results of
      `input_mt_init_slots` and `input_register_device`. */
  function MstarInitInputDev(haveDev: bool, maxX: U32, maxY: U32, mtError: int, registerError: int): (ret: int)
    ensures !haveDev ==> ret == -Errno.ENOMEM
    ensures haveDev && (maxX == 0 || maxY == 0) ==> ret == -Errno.EINVAL
    ensures ret == 0 <==> haveDev && maxX != 0 && maxY != 0 && mtError == 0 && registerError == 0
  {
    if !haveDev then -Errno.ENOMEM
    else if maxX == 0 || maxY == 0 then -Errno.EINVAL
    else if mtError != 0 then mtError
    else if registerError != 0 then registerError
    else 0
  }
}
