/** The ASUS P024 RM27013 800x1280 DSI panel driver,
    drivers/gpu/drm/panel/msm8916-generated/panel-asus-p024-rm27013.c.

    A DSI generic write is modelled by the value `mipi_dsi_generic_write`
    returns for it: the `i`-th write of a sequence returns `results[i]`.
    The panel keeps the writes it has issued, in order, and the values
    driven on its reset line. */
module Rm27013 {
  import opened Arith
  import Errno
  import opened Retvals

  // ---- command sequences ----

  /** The writes of `rm27013_800x1280_on`, in order. */
  const ON_SEQUENCE: seq<seq<bv8>> := [
    [0x50, 0x77], [0xe1, 0x66], [0xdc, 0x67], [0x50, 0x00], [0x35, 0x00], [0x58, 0x99],
    [0xcd, 0x4d], [0x58, 0x00], [0xf0, 0x5a, 0x5a], [0xc3, 0x40, 0x00, 0x28],
    [0x11, 0x00], [0x29, 0x00]]

  /** The writes of `rm27013_800x1280_off`, in order. */
  const OFF_SEQUENCE: seq<seq<bv8>> := [[0x28, 0x00], [0x10, 0x00], [0xf0, 0x5a, 0x5a], [0xc3, 0x40, 0x00, 0x20]]

  /** The DCS commands the sequences end with: exit sleep and display on,
      display off and enter sleep. */
  lemma SequenceCommands()
    ensures |ON_SEQUENCE| == 12 && |OFF_SEQUENCE| == 4
    ensures ON_SEQUENCE[10][0] == 0x11 && ON_SEQUENCE[11][0] == 0x29
    ensures OFF_SEQUENCE[0][0] == 0x28 && OFF_SEQUENCE[1][0] == 0x10
  {
  }

  /** The writes a sequence issues: up to and including the first failing one. */
  function Issued(cmds: seq<seq<bv8>>, results: seq<int>): (w: seq<seq<bv8>>)
    requires |results| == |cmds|
    ensures |w| <= |cmds| && w == cmds[..|w|]
    ensures |w| < |cmds| ==> 1 <= |w| && results[|w| - 1] < 0
    ensures forall j :: 0 <= j < |w| - 1 ==> results[j] >= 0
  {
    var k := FirstFailure(results, |cmds|);
    if k < |cmds| then cmds[..k + 1] else cmds
  }

  /** What a sequence returns: the first failing write's error, else 0. */
  function SequenceResult(results: seq<int>, n: nat): (ret: int)
    requires n <= |results|
    ensures ret <= 0
    ensures ret == 0 <==> forall j :: 0 <= j < n ==> results[j] >= 0
  {
    var k := FirstFailure(results, n);
    if k < n then results[k] else 0
  }

  /** A sequence whose writes all succeed issues all of them and returns 0;
      one that fails stops at the failing write and returns its error. */
  lemma SequenceAllOrPrefix(cmds: seq<seq<bv8>>, results: seq<int>)
    requires |results| == |cmds|
    ensures SequenceResult(results, |cmds|) == 0 ==> Issued(cmds, results) == cmds
    ensures SequenceResult(results, |cmds|) < 0 ==>
              |Issued(cmds, results)| >= 1 && results[|Issued(cmds, results)| - 1] == SequenceResult(results, |cmds|)
  {
  }

  // ---- the panel ----

  /** `struct rm27013_800x1280` with the DSI device's `mode_flags`. */
  class Panel {
    var prepared: bool
    var modeFlags: bv32
    /** `MIPI_DSI_MODE_LPM`. */
    const lpm: bv32
    var dsiWrites: seq<seq<bv8>>
    var resetLine: seq<int>

    constructor (lpmFlag: bv32, flags0: bv32)
      ensures !prepared && modeFlags == flags0 && lpm == lpmFlag && dsiWrites == [] && resetLine == []
    {
      prepared := false;
      modeFlags := flags0;
      lpm := lpmFlag;
      dsiWrites := [];
      resetLine := [];
    }

    /** A `dsi_generic_write_seq` run: the writes up to the first failing one
        are issued, and its error is returned. */
    method WriteSequence(cmds: seq<seq<bv8>>, results: seq<int>) returns (ret: int)
      requires |results| == |cmds|
      modifies this`dsiWrites
      ensures dsiWrites == old(dsiWrites) + Issued(cmds, results)
      ensures ret == SequenceResult(results, |cmds|)
    {
      dsiWrites := dsiWrites + Issued(cmds, results);
      ret := SequenceResult(results, |cmds|);
    }

    /** `rm27013_800x1280_on`: low-power mode on, then the on-sequence. */
    method On(results: seq<int>) returns (ret: int)
      requires |results| == |ON_SEQUENCE|
      modifies this`modeFlags, this`dsiWrites
      ensures modeFlags == SetBits32(old(modeFlags), lpm)
      ensures dsiWrites == old(dsiWrites) + Issued(ON_SEQUENCE, results)
      ensures ret == SequenceResult(results, |ON_SEQUENCE|)
    {
      modeFlags := SetBits32(modeFlags, lpm);
      ret := WriteSequence(ON_SEQUENCE, results);
    }

    /** `rm27013_800x1280_off`: low-power mode off, then the off-sequence. */
    method Off(results: seq<int>) returns (ret: int)
      requires |results| == |OFF_SEQUENCE|
      modifies this`modeFlags, this`dsiWrites
      ensures modeFlags == ClearBits32(old(modeFlags), lpm)
      ensures dsiWrites == old(dsiWrites) + Issued(OFF_SEQUENCE, results)
      ensures ret == SequenceResult(results, |OFF_SEQUENCE|)
    {
      modeFlags := ClearBits32(modeFlags, lpm);
      ret := WriteSequence(OFF_SEQUENCE, results);
    }

    /** `rm27013_800x1280_prepare`. */
    method Prepare(results: seq<int>) returns (ret: int)
      requires |results| == |ON_SEQUENCE|
      modifies this`prepared, this`modeFlags, this`dsiWrites, this`resetLine
      ensures old(prepared) ==>
        ret == 0 && prepared && modeFlags == old(modeFlags) && dsiWrites == old(dsiWrites) && resetLine == old(resetLine)
      ensures !old(prepared) ==>
        && dsiWrites == old(dsiWrites) + Issued(ON_SEQUENCE, results)
        && ret == SequenceResult(results, |ON_SEQUENCE|)
        && prepared == (ret == 0)
        && resetLine == old(resetLine) + [0, 1, 0] + (if ret < 0 then [1] else [])
        && modeFlags == SetBits32(old(modeFlags), lpm)
    {
      if prepared {
        return 0;
      }
      resetLine := resetLine + [0, 1, 0];
      ret := On(results);
      if ret < 0 {
        resetLine := resetLine + [1];
        return ret;
      }
      prepared := true;
      return 0;
    }

    /** `rm27013_800x1280_unprepare`: a failing off-sequence is only logged. */
    method Unprepare(results: seq<int>) returns (ret: int)
      requires |results| == |OFF_SEQUENCE|
      modifies this`prepared, this`modeFlags, this`dsiWrites, this`resetLine
      ensures ret == 0 && !prepared
      ensures !old(prepared) ==>
        modeFlags == old(modeFlags) && dsiWrites == old(dsiWrites) && resetLine == old(resetLine)
      ensures old(prepared) ==>
        && dsiWrites == old(dsiWrites) + Issued(OFF_SEQUENCE, results)
        && resetLine == old(resetLine) + [1]
        && modeFlags == ClearBits32(old(modeFlags), lpm)
    {
      if !prepared {
        return 0;
      }
      var _ := Off(results);
      resetLine := resetLine + [1];
      prepared := false;
      return 0;
    }
  }

  // ---- display mode ----

  datatype ModeType = ModeTypeDriver | ModeTypePreferred

  /** `struct drm_display_mode`, the fields the panel sets. */
  datatype DisplayMode = DisplayMode(
    clock: nat,
    hdisplay: nat, hsyncStart: nat, hsyncEnd: nat, htotal: nat,
    vdisplay: nat, vsyncStart: nat, vsyncEnd: nat, vtotal: nat,
    widthMm: nat, heightMm: nat, modeType: set<ModeType>)

  /** `rm27013_800x1280_mode`. */
  const RM27013_MODE: DisplayMode := DisplayMode(
    (800 + 100 + 24 + 80) * (1280 + 24 + 10 + 24) * 60 / 1000,
    800, 800 + 100, 800 + 100 + 24, 800 + 100 + 24 + 80,
    1280, 1280 + 24, 1280 + 24 + 10, 1280 + 24 + 10 + 24,
    107, 172, {})

  /** Sync pulses lie inside the blanking interval, and the pixel clock
      (kHz) refreshes the whole frame 60 times a second. */
  lemma ModeTimings()
    ensures var m := RM27013_MODE;
      && m.hdisplay < m.hsyncStart < m.hsyncEnd < m.htotal
      && m.vdisplay < m.vsyncStart < m.vsyncEnd < m.vtotal
      && m.htotal == 1004 && m.vtotal == 1338
      && m.clock == m.htotal * m.vtotal * 60 / 1000 == 80601
  {
  }

  /** `struct drm_connector`: the probed modes and the panel size. */
  class Connector {
    var modes: seq<DisplayMode>
    var widthMm: nat
    var heightMm: nat

    constructor ()
      ensures modes == [] && widthMm == 0 && heightMm == 0
    {
      modes := [];
      widthMm := 0;
      heightMm := 0;
    }
  }

  /** `rm27013_800x1280_get_modes`: `allocOk` is whether
      `drm_mode_duplicate` succeeded. */
  method GetModes(connector: Connector, allocOk: bool) returns (ret: int)
    modifies connector
    ensures !allocOk ==> ret == -Errno.ENOMEM && connector.modes == old(connector.modes)
    ensures !allocOk ==> connector.widthMm == old(connector.widthMm) && connector.heightMm == old(connector.heightMm)
    ensures allocOk ==>
      && ret == 1
      && connector.modes == old(connector.modes)
           + [RM27013_MODE.(modeType := {ModeTypeDriver, ModeTypePreferred})]
      && connector.widthMm == 107 && connector.heightMm == 172
  {
    if !allocOk {
      return -Errno.ENOMEM;
    }
    var mode := RM27013_MODE.(modeType := {ModeTypeDriver, ModeTypePreferred});
    connector.widthMm := mode.widthMm;
    connector.heightMm := mode.heightMm;
    connector.modes := connector.modes + [mode];
    return 1;
  }
}
