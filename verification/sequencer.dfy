/** The power-on sequence: `reset`, `_init` and `begin`, and `shutdown`. */
module Sequencer {
  import opened Optional
  import opened Bytes
  import opened Transport
  import opened Wire
  import opened St7789
  import opened Timeline

  /** `reset()`: nothing without a reset pin; otherwise high, low, high,
      each held for 100 ms. */
  function Reset(rst: Option<int>): seq<Event> {
    match rst
    case None => []
    case Some(pin) => Hold(pin, true) + Hold(pin, false) + Hold(pin, true)
  }

  /** One step of the reset pulse: drive the pin, then wait 100 ms. */
  function Hold(pin: int, level: bool): seq<Event> {
    [Pin(pin, level), Sleep(100)]
  }

  /** A step of the reset pulse is framed, latches nothing, and is observed
      as one pin change and one delay. */
  lemma HoldTrace(pin: int, level: bool, dc: bool)
    ensures Framed(Hold(pin, level)) && WireFrom(Hold(pin, level), dc) == [] && Written(Hold(pin, level)) == []
    ensures Delays(Hold(pin, level)) == [100] && PinChanges(Hold(pin, level)) == [(pin, level)]
  {
    var t := Hold(pin, level);
    QuietWire(t, dc);
    assert t[1..] == [Sleep(100)];
    assert t[1..][1..] == [];
    assert Delays(t[1..]) == [100] + Delays([]);
    assert PinChanges(t[1..]) == [] + PinChanges([]);
  }

  /** The register program of `_init` after sleep-out, in order: memory
      access control, 16-bit pixel format, porch, gate, VCOM, LCM, power
      settings, inversion on, the positive and negative gamma tables and
      display on. */
  const INIT_PROGRAM: seq<Register> := [
    Register(MADCTL, [0x00]),
    Register(COLMOD, [0x05]),
    Register(PORCTRL, [0x0C, 0x0C]),
    Register(GCTRL, [0x35]),
    Register(VCOMS, [0x1A]),
    Register(LCMCTRL, [0x2C]),
    Register(VDVVRHEN, [0x01]),
    Register(VRHS, [0x0B]),
    Register(VDVSET, [0x20]),
    Register(FRCTR2, [0x0F]),
    Register(PWCTRL1, [0xA4, 0xA1]),
    Register(INVON, []),
    Register(PVGAMCTRL, [0x00, 0x19, 0x1E, 0x0A, 0x09, 0x15, 0x3D, 0x44, 0x51, 0x12, 0x03, 0x00, 0x3F, 0x3F]),
    Register(NVGAMCTRL, [0x00, 0x18, 0x1E, 0x0A, 0x09, 0x25, 0x3F, 0x43, 0x52, 0x33, 0x03, 0x00, 0x3F, 0x3F]),
    Register(DISPON, [])
  ]

  /** `_init()`: 10 ms, sleep-out, 150 ms, the register program, 100 ms. */
  function Init(): seq<Event> {
    [Sleep(10)] + ProgramTrace([Register(SLPOUT, [])]) + [Sleep(150)] + ProgramTrace(INIT_PROGRAM) + [Sleep(100)]
  }

  /** The MADCTL byte `begin` chooses for a rotation; any other rotation
      gets the value of rotation 0. Of the controller's memory access bits,
      row/column exchange (bit 5) is set exactly on a quarter turn, which is
      when `begin` swaps the extents; column order (bit 6) and row order
      (bit 7) are mirrored as each turn needs; the lower bits stay clear. */
  function Madctl(rotation: int): (m: Byte)
    ensures m % 0x20 == 0
    ensures (m / 0x20 % 2 == 1) <==> (rotation == 90 || rotation == 270)
    ensures (m / 0x40 % 2 == 1) <==> (rotation == 90 || rotation == 180)
    ensures (m / 0x80 == 1) <==> (rotation == 180 || rotation == 270)
  {
    if rotation == 0 then 0x00
    else if rotation == 90 then 0x60
    else if rotation == 180 then 0xC0
    else if rotation == 270 then 0xA0
    else 0x00
  }

  /** The width `begin` programs: the native height at 90 and 270 degrees. */
  function DisplayWidth(lcd: Lcd): int {
    if lcd.rotation == 90 || lcd.rotation == 270 then lcd.height else lcd.width
  }

  /** The height `begin` programs: the native width at 90 and 270 degrees. */
  function DisplayHeight(lcd: Lcd): int {
    if lcd.rotation == 90 || lcd.rotation == 270 then lcd.width else lcd.height
  }

  /** What `begin` issues after `_init`: MADCTL, then CASET and RASET with
      the high bytes hard-coded to zero, every value through a scalar
      `data()` call. */
  function Orientation(lcd: Lcd): seq<Event> {
    var dw := DisplayWidth(lcd);
    var dh := DisplayHeight(lcd);
    RegisterTrace(Register(MADCTL, [Madctl(lcd.rotation)]))
    + RegisterTrace(Register(CASET, [0x00, lcd.offsetLeft, 0x00, dw + lcd.offsetLeft - 1]))
    + RegisterTrace(Register(RASET, [0x00, lcd.offsetTop, 0x00, dh + lcd.offsetTop - 1]))
  }

  /** `begin()`: reset, `_init`, then the orientation and window programming. */
  function Begin(lcd: Lcd): seq<Event> {
    Reset(lcd.rst) + Init() + Orientation(lcd)
  }

  /** `shutdown()`: the display-off command. */
  function Shutdown(): seq<Event> {
    Command(Scalar(DISPOFF))
  }

  /** The reset step toggles the reset pin high, low, high with 100 ms after
      each change, or does nothing without a reset pin; it never touches the
      D/C line or the bus. */
  lemma ResetTrace(rst: Option<int>, dc: bool)
    ensures Framed(Reset(rst)) && WireFrom(Reset(rst), dc) == [] && Written(Reset(rst)) == []
    ensures rst.None? ==> Delays(Reset(rst)) == [] && PinChanges(Reset(rst)) == []
    ensures rst.Some? ==> Delays(Reset(rst)) == [100, 100, 100]
    ensures rst.Some? ==> PinChanges(Reset(rst)) == [(rst.value, true), (rst.value, false), (rst.value, true)]
  {
    if rst.Some? {
      var pin := rst.value;
      HoldTrace(pin, true, dc);
      HoldTrace(pin, false, dc);
      Join(Hold(pin, true), Hold(pin, false), dc);
      Join(Hold(pin, true) + Hold(pin, false), Hold(pin, true), dc);
    }
  }

  /** A step of the reset pulse: the pin is driven, then held for 100 ms. */
  lemma HoldSteps(pin: int, level: bool, dc: bool)
    ensures Framed(Hold(pin, level)) && Steps(Hold(pin, level), dc) == [Drive(pin, level), Wait(100)]
  {
    var t := Hold(pin, level);
    HoldTrace(pin, level, dc);
    assert t[1..] == [Sleep(100)];
    assert t[1..][1..] == [];
    assert Steps(t[1..], dc) == [Wait(100)] + Steps([], dc);
  }

  /** The reset pulse in time order: high, 100 ms, low, 100 ms, high,
      100 ms, so each level is held for 100 ms before the next change. */
  lemma ResetSteps(rst: Option<int>, dc: bool)
    ensures rst.None? ==> Steps(Reset(rst), dc) == []
    ensures rst.Some? ==>
      Steps(Reset(rst), dc) ==
        [Drive(rst.value, true), Wait(100), Drive(rst.value, false), Wait(100), Drive(rst.value, true), Wait(100)]
  {
    if rst.Some? {
      var pin := rst.value;
      var hi, lo := Hold(pin, true), Hold(pin, false);
      HoldSteps(pin, true, dc);
      HoldSteps(pin, false, dc);
      StepsAppend(hi, lo, dc);
      StepsAppend(hi + lo, hi, dc);
    }
  }

  /** Two framed traces between three delays reach the wire one after the
      other. */
  lemma BetweenSleepsWire(d1: nat, d2: nat, d3: nat, ta: seq<Event>, tb: seq<Event>, dc: bool)
    requires Framed(ta) && Framed(tb)
    ensures var t := [Sleep(d1)] + ta + [Sleep(d2)] + tb + [Sleep(d3)];
      Framed(t) && WireFrom(t, dc) == WireFrom(ta, dc) + WireFrom(tb, dc)
  {
    var s1, s2, s3 := [Sleep(d1)], [Sleep(d2)], [Sleep(d3)];
    SleepWire(d1, dc);
    SleepWire(d2, dc);
    SleepWire(d3, dc);
    WireAppend(s1, ta, dc);
    FramedAppend(s1, ta);
    WireAppend(s1 + ta, s2, dc);
    FramedAppend(s1 + ta, s2);
    WireAppend(s1 + ta + s2, tb, dc);
    FramedAppend(s1 + ta + s2, tb);
    WireAppend(s1 + ta + s2 + tb, s3, dc);
    FramedAppend(s1 + ta + s2 + tb, s3);
  }

  /** Two traces between three delays are observed with the delays around
      their own. */
  lemma BetweenSleepsTiming(d1: nat, d2: nat, d3: nat, ta: seq<Event>, tb: seq<Event>)
    ensures var t := [Sleep(d1)] + ta + [Sleep(d2)] + tb + [Sleep(d3)];
      Delays(t) == [d1] + Delays(ta) + [d2] + Delays(tb) + [d3] &&
      PinChanges(t) == PinChanges(ta) + PinChanges(tb)
  {
    var s1, s2, s3 := [Sleep(d1)], [Sleep(d2)], [Sleep(d3)];
    SleepWire(d1, true);
    SleepWire(d2, true);
    SleepWire(d3, true);
    DelaysAppend(s1, ta);
    DelaysAppend(s1 + ta, s2);
    DelaysAppend(s1 + ta + s2, tb);
    DelaysAppend(s1 + ta + s2 + tb, s3);
    PinChangesAppend(s1, ta);
    assert [] + PinChanges(ta) == PinChanges(ta);
    PinChangesAppend(s1 + ta, s2);
    assert PinChanges(ta) + [] == PinChanges(ta);
    PinChangesAppend(s1 + ta + s2, tb);
    PinChangesAppend(s1 + ta + s2 + tb, s3);
    assert PinChanges(ta) + PinChanges(tb) + [] == PinChanges(ta) + PinChanges(tb);
  }

  /** Two register programs of octets between three delays: the wire
      carries the programs, and only the delays are observed. */
  lemma ProgramsBetweenSleepsWire(d1: nat, d2: nat, d3: nat, a: seq<Register>, b: seq<Register>, dc: bool)
    requires OctetRegisters(a) && OctetRegisters(b)
    ensures var t := [Sleep(d1)] + ProgramTrace(a) + [Sleep(d2)] + ProgramTrace(b) + [Sleep(d3)];
      Framed(t) && WireFrom(t, dc) == ProgramWire(a + b)
  {
    ProgramTraceWire(a, dc);
    ProgramTraceWire(b, dc);
    MaskOctetProgram(a);
    MaskOctetProgram(b);
    BetweenSleepsWire(d1, d2, d3, ProgramTrace(a), ProgramTrace(b), dc);
    ProgramWireAppend(a, b);
  }

  /** Two traces that neither wait nor change a pin, between three delays:
      only the three delays are observed. */
  lemma QuietBetweenSleeps(d1: nat, d2: nat, d3: nat, ta: seq<Event>, tb: seq<Event>)
    requires Delays(ta) == [] && Delays(tb) == [] && PinChanges(ta) == [] && PinChanges(tb) == []
    ensures var t := [Sleep(d1)] + ta + [Sleep(d2)] + tb + [Sleep(d3)];
      Delays(t) == [d1, d2, d3] && PinChanges(t) == []
  {
    BetweenSleepsTiming(d1, d2, d3, ta, tb);
    assert [d1] + [] + [d2] + [] + [d3] == [d1, d2, d3];
  }

  /** Two register programs between three delays wait only those delays
      and move no pin. */
  lemma ProgramsBetweenSleepsTiming(d1: nat, d2: nat, d3: nat, a: seq<Register>, b: seq<Register>)
    ensures var t := [Sleep(d1)] + ProgramTrace(a) + [Sleep(d2)] + ProgramTrace(b) + [Sleep(d3)];
      Delays(t) == [d1, d2, d3] && PinChanges(t) == []
  {
    ProgramTraceWire(a, true);
    ProgramTraceWire(b, true);
    QuietBetweenSleeps(d1, d2, d3, ProgramTrace(a), ProgramTrace(b));
  }

  /** Two register programs of octets between three delays, in time order:
      each program is latched whole between the delays around it. */
  lemma ProgramsBetweenSleepsSteps(d1: nat, d2: nat, d3: nat, a: seq<Register>, b: seq<Register>, dc: bool)
    requires OctetRegisters(a) && OctetRegisters(b)
    ensures Steps([Sleep(d1)] + ProgramTrace(a) + [Sleep(d2)] + ProgramTrace(b) + [Sleep(d3)], dc) ==
      [Wait(d1)] + Latches(ProgramWire(a)) + [Wait(d2)] + Latches(ProgramWire(b)) + [Wait(d3)]
  {
    ProgramTraceWire(a, dc);
    ProgramTraceWire(b, dc);
    MaskOctetProgram(a);
    MaskOctetProgram(b);
    StepsBetweenSleeps(d1, d2, d3, ProgramTrace(a), ProgramTrace(b), dc);
  }

  /** A single delay is framed, latches nothing and is observed as itself. */
  lemma SleepWire(d: nat, dc: bool)
    ensures Framed([Sleep(d)]) && WireFrom([Sleep(d)], dc) == []
    ensures Delays([Sleep(d)]) == [d] && PinChanges([Sleep(d)]) == []
  {
    QuietWire([Sleep(d)], dc);
  }

  /** Every command and parameter of `_init` is already a byte. */
  lemma InitProgramOctets()
    ensures OctetRegisters([Register(SLPOUT, [])]) && OctetRegisters(INIT_PROGRAM)
  {
  }

  /** `_init` issues sleep-out and then the fixed program, ending in
      display-on, with 10, 150 and 100 ms of delay around them. */
  lemma InitWire(dc: bool)
    ensures Framed(Init())
    ensures WireFrom(Init(), dc) == ProgramWire([Register(SLPOUT, [])] + INIT_PROGRAM)
    ensures Delays(Init()) == [10, 150, 100] && PinChanges(Init()) == []
  {
    InitProgramOctets();
    ProgramsBetweenSleepsWire(10, 150, 100, [Register(SLPOUT, [])], INIT_PROGRAM, dc);
    ProgramsBetweenSleepsTiming(10, 150, 100, [Register(SLPOUT, [])], INIT_PROGRAM);
  }

  /** `_init` in time order: 10 ms, SLPOUT, 150 ms before any other
      command, the register program ending in DISPON, then 100 ms. */
  lemma InitSteps(dc: bool)
    ensures Steps(Init(), dc) ==
      [Wait(10)] + Latches(ProgramWire([Register(SLPOUT, [])])) + [Wait(150)] +
      Latches(ProgramWire(INIT_PROGRAM)) + [Wait(100)]
  {
    InitProgramOctets();
    ProgramsBetweenSleepsSteps(10, 150, 100, [Register(SLPOUT, [])], INIT_PROGRAM, dc);
  }

  /** `begin`'s orientation step, read as a register program. */
  function OrientationProgram(lcd: Lcd): seq<Register> {
    [Register(MADCTL, [Madctl(lcd.rotation)]),
     Register(CASET, [0x00, lcd.offsetLeft, 0x00, DisplayWidth(lcd) + lcd.offsetLeft - 1]),
     Register(RASET, [0x00, lcd.offsetTop, 0x00, DisplayHeight(lcd) + lcd.offsetTop - 1])]
  }

  /** The orientation step issues exactly its register program. */
  lemma OrientationIsProgram(lcd: Lcd)
    ensures Orientation(lcd) == ProgramTrace(OrientationProgram(lcd))
  {
    var p := OrientationProgram(lcd);
    ProgramTrace3(p[0], p[1], p[2]);
    assert p == [p[0], p[1], p[2]];
  }

  /** The orientation program as the controller receives it: every value
      through `& 0xFF`, the high bytes zero. */
  lemma OrientationMasked(lcd: Lcd)
    ensures MaskProgram(OrientationProgram(lcd)) ==
      [Register(MADCTL, [Madctl(lcd.rotation)]),
       Register(CASET, [0x00, Mask(lcd.offsetLeft), 0x00, Mask(DisplayWidth(lcd) + lcd.offsetLeft - 1)]),
       Register(RASET, [0x00, Mask(lcd.offsetTop), 0x00, Mask(DisplayHeight(lcd) + lcd.offsetTop - 1)])]
  {
    var p := OrientationProgram(lcd);
    var m := MaskProgram(p);
    assert m[0].params == [Madctl(lcd.rotation)];
    assert m[1].params == [0x00, Mask(lcd.offsetLeft), 0x00, Mask(DisplayWidth(lcd) + lcd.offsetLeft - 1)];
    assert m[2].params == [0x00, Mask(lcd.offsetTop), 0x00, Mask(DisplayHeight(lcd) + lcd.offsetTop - 1)];
  }

  /** A trace that latches nothing, followed by two framed traces: only the
      two framed traces reach the wire. */
  lemma AfterQuiet(q: seq<Event>, a: seq<Event>, b: seq<Event>, dc: bool)
    requires WireFrom(q, dc) == [] && Framed(a) && Framed(b)
    ensures WireFrom(q + a + b, dc) == WireFrom(a, dc) + WireFrom(b, dc)
  {
    Join(q, a, dc);
    Join(q + a, b, dc);
  }

  /** `begin` puts on the wire: sleep-out, the `_init` program, then the
      orientation program; reset and delays contribute nothing. */
  lemma BeginWire(lcd: Lcd, dc: bool)
    ensures WireFrom(Begin(lcd), dc) ==
      ProgramWire([Register(SLPOUT, [])] + INIT_PROGRAM + MaskProgram(OrientationProgram(lcd)))
  {
    var p := OrientationProgram(lcd);
    OrientationIsProgram(lcd);
    ProgramTraceWire(p, dc);
    ResetTrace(lcd.rst, dc);
    InitWire(dc);
    AfterQuiet(Reset(lcd.rst), Init(), Orientation(lcd), dc);
    ProgramWireAppend([Register(SLPOUT, [])] + INIT_PROGRAM, MaskProgram(p));
  }

  /** The power-on trace as register writes: sleep-out, the fixed program
      ending in display-on, then MADCTL with the rotation's byte and the
      CASET/RASET extents, of which only the low byte survives. */
  lemma BeginRegisters(lcd: Lcd, dc: bool)
    ensures Registers(WireFrom(Begin(lcd), dc)) ==
      [Register(SLPOUT, [])] + INIT_PROGRAM +
      [Register(MADCTL, [Madctl(lcd.rotation)]),
       Register(CASET, [0x00, Mask(lcd.offsetLeft), 0x00, Mask(DisplayWidth(lcd) + lcd.offsetLeft - 1)]),
       Register(RASET, [0x00, Mask(lcd.offsetTop), 0x00, Mask(DisplayHeight(lcd) + lcd.offsetTop - 1)])]
  {
    BeginWire(lcd, dc);
    OrientationMasked(lcd);
    RegistersOfProgramWire([Register(SLPOUT, [])] + INIT_PROGRAM + MaskProgram(OrientationProgram(lcd)));
  }

  /** The delays and pin changes of `begin`: those of the reset pulse, then
      10, 150 and 100 ms from `_init`; the orientation step waits for nothing. */
  lemma BeginTiming(lcd: Lcd, dc: bool)
    ensures Delays(Begin(lcd)) == Delays(Reset(lcd.rst)) + [10, 150, 100]
    ensures PinChanges(Begin(lcd)) == PinChanges(Reset(lcd.rst))
  {
    var reset, init, orient := Reset(lcd.rst), Init(), Orientation(lcd);
    OrientationIsProgram(lcd);
    ProgramTraceWire(OrientationProgram(lcd), dc);
    InitWire(dc);
    ObserversAppend(reset, init);
    ObserversAppend(reset + init, orient);
    assert Delays(reset) + [10, 150, 100] + [] == Delays(reset) + [10, 150, 100];
    assert PinChanges(reset) + [] + [] == PinChanges(reset);
  }

  /** `begin` in time order: the whole reset pulse, then the whole of
      `_init`, then the orientation writes, with no delay among them. */
  lemma BeginSteps(lcd: Lcd, dc: bool)
    ensures Steps(Begin(lcd), dc) ==
      Steps(Reset(lcd.rst), dc) + Steps(Init(), dc) + Latches(ProgramWire(MaskProgram(OrientationProgram(lcd))))
  {
    var reset, init, orient := Reset(lcd.rst), Init(), Orientation(lcd);
    OrientationIsProgram(lcd);
    ProgramTraceWire(OrientationProgram(lcd), dc);
    InitWire(dc);
    StepsAppend(reset, init, dc);
    StepsAppend(reset + init, orient, dc);
    SilentSteps(orient, dc);
  }

  /** With the default 170 x 320 panel turned by 90 degrees, `begin` ends
      with MADCTL 0x60 and a 320-column, 170-row window, of which CASET keeps
      only the low byte 0x3F of 319. */
  lemma BeginRotatedColumns(lcd: Lcd, dc: bool)
    requires lcd.width == TFTWIDTH && lcd.height == TFTHEIGHT && lcd.rotation == 90
    requires lcd.offsetLeft == 0 && lcd.offsetTop == 0
    ensures Registers(WireFrom(Begin(lcd), dc)) ==
      [Register(SLPOUT, [])] + INIT_PROGRAM +
      [Register(MADCTL, [0x60]), Register(CASET, [0x00, 0x00, 0x00, 0x3F]), Register(RASET, [0x00, 0x00, 0x00, 0xA9])]
  {
    BeginRegisters(lcd, dc);
    RotatedExtents(lcd);
  }

  /** The orientation step's values for the default panel turned by 90
      degrees. */
  lemma RotatedExtents(lcd: Lcd)
    requires lcd.width == TFTWIDTH && lcd.height == TFTHEIGHT && lcd.rotation == 90
    requires lcd.offsetLeft == 0 && lcd.offsetTop == 0
    ensures Madctl(lcd.rotation) == 0x60 && Mask(lcd.offsetLeft) == 0 && Mask(lcd.offsetTop) == 0
    ensures Mask(DisplayWidth(lcd) + lcd.offsetLeft - 1) == 0x3F && Mask(DisplayHeight(lcd) + lcd.offsetTop - 1) == 0xA9
  {
  }

  /** `shutdown` is a single display-off command with no parameters. */
  lemma ShutdownRegisters(dc: bool)
    ensures Registers(WireFrom(Shutdown(), dc)) == [Register(DISPOFF, [])]
    ensures Delays(Shutdown()) == [] && PinChanges(Shutdown()) == []
  {
    var r := Register(DISPOFF, []);
    assert Shutdown() == RegisterTrace(r) by {
      assert DataBytes([]) == [];
      assert Shutdown() + [] == Shutdown();
    }
    RegisterTraceWire(r, dc);
    assert MaskProgram([r]) == [r] by {
      assert Mask(DISPOFF) == DISPOFF;
      assert MaskAll([]) == [];
    }
    RegistersOfProgramWire([r]);
  }
}
