/** `set_window`: the rotation remap of a drawing rectangle, the panel
    offsets, and the CASET / RASET / RAMWR writes that select it. */
module Window {
  import opened Optional
  import opened Bytes
  import opened Transport
  import opened Wire
  import opened St7789

  /** A pixel rectangle by its inclusive corners. */
  datatype Rect = Rect(x0: int, y0: int, x1: int, y1: int)

  /** The rectangle is non-empty and lies in a `width` x `height` frame. */
  predicate Within(r: Rect, width: int, height: int) {
    0 <= r.x0 <= r.x1 < width && 0 <= r.y0 <= r.y1 < height
  }

  /** A rotation by a quarter turn either way, which swaps the frame's axes. */
  predicate QuarterTurn(rotation: int) {
    rotation == 90 || rotation == 270
  }

  /** The rotation adjustment of `set_window`, on the native `width` and
      `height`; rotations other than 90, 180 and 270 leave the rectangle
      alone. Extents are kept, swapped on a quarter turn. */
  function Remap(rotation: int, width: int, height: int, r: Rect): (m: Rect)
    ensures rotation != 90 && rotation != 180 && rotation != 270 ==> m == r
    ensures QuarterTurn(rotation) ==> m.x1 - m.x0 == r.y1 - r.y0 && m.y1 - m.y0 == r.x1 - r.x0
    ensures !QuarterTurn(rotation) ==> m.x1 - m.x0 == r.x1 - r.x0 && m.y1 - m.y0 == r.y1 - r.y0
    ensures r.x0 <= r.x1 && r.y0 <= r.y1 <==> m.x0 <= m.x1 && m.y0 <= m.y1
  {
    if rotation == 90 then Rect(r.y0, width - 1 - r.x1, r.y1, width - 1 - r.x0)
    else if rotation == 180 then Rect(width - 1 - r.x1, height - 1 - r.y1, width - 1 - r.x0, height - 1 - r.y0)
    else if rotation == 270 then Rect(height - 1 - r.y1, r.x0, height - 1 - r.y0, r.x1)
    else r
  }

  /** The frame the remapped rectangle lives in: the native one, with its
      axes swapped on a quarter turn. */
  function FrameWidth(rotation: int, width: int, height: int): int {
    if QuarterTurn(rotation) then height else width
  }

  /** The height of the frame the remapped rectangle lives in. */
  function FrameHeight(rotation: int, width: int, height: int): int {
    if QuarterTurn(rotation) then width else height
  }

  /** A rectangle lies in the native frame exactly when its remap lies in
      the rotated frame. */
  lemma RemapWithin(rotation: int, width: int, height: int, r: Rect)
    ensures Within(r, width, height) <==>
      Within(Remap(rotation, width, height, r), FrameWidth(rotation, width, height), FrameHeight(rotation, width, height))
  {
  }

  /** The whole native frame, the default of `set_window`, becomes the whole
      rotated frame. */
  lemma RemapFullFrame(rotation: int, width: int, height: int)
    ensures Remap(rotation, width, height, Rect(0, 0, width - 1, height - 1)) ==
      Rect(0, 0, FrameWidth(rotation, width, height) - 1, FrameHeight(rotation, width, height) - 1)
  {
  }

  /** Two quarter turns, the second in the turned frame, make a half turn. */
  lemma QuarterTurnsCompose(width: int, height: int, r: Rect)
    ensures Remap(90, height, width, Remap(90, width, height, r)) == Remap(180, width, height, r)
  {
  }

  /** A half turn undoes itself. */
  lemma HalfTurnInvolution(width: int, height: int, r: Rect)
    ensures Remap(180, width, height, Remap(180, width, height, r)) == r
  {
  }

  /** Four quarter turns, each in the frame the previous one left, give
      back the rectangle. */
  lemma {:induction false} FourQuarterTurns(width: int, height: int, r: Rect)
    ensures Remap(90, height, width, Remap(90, width, height,
              Remap(90, height, width, Remap(90, width, height, r)))) == r
  {
    QuarterTurnsCompose(width, height, r);
    QuarterTurnsCompose(width, height, Remap(180, width, height, r));
    HalfTurnInvolution(width, height, r);
  }

  /** A turn of 270 degrees undoes a turn of 90 degrees, and the other way
      round, each in the frame the first one left. */
  lemma ThreeQuarterUndoesQuarter(width: int, height: int, r: Rect)
    ensures Remap(270, height, width, Remap(90, width, height, r)) == r
    ensures Remap(90, height, width, Remap(270, width, height, r)) == r
  {
  }

  /** The panel offsets added to both corners. */
  function Shift(r: Rect, left: int, top: int): Rect {
    Rect(r.x0 + left, r.y0 + top, r.x1 + left, r.y1 + top)
  }

  /** The controller RAM rectangle `set_window` selects: the missing far
      corner defaults to the native frame's, then the rotation remap, then
      the offsets. */
  function Target(lcd: Lcd, x0: int, y0: int, x1: Option<int>, y1: Option<int>): Rect {
    var r := Rect(x0, y0, Otherwise(x1, lcd.width - 1), Otherwise(y1, lcd.height - 1));
    Shift(Remap(lcd.rotation, lcd.width, lcd.height, r), lcd.offsetLeft, lcd.offsetTop)
  }

  /** `set_window`: CASET with the column corners and RASET with the row
      corners, each as `v >> 8` then `v`, every value through a scalar
      `data()` call, then RAMWR. */
  function SetWindow(lcd: Lcd, x0: int, y0: int, x1: Option<int>, y1: Option<int>): seq<Event> {
    var a := Target(lcd, x0, y0, x1, y1);
    RegisterTrace(Register(CASET, [a.x0 / 256, a.x0, a.x1 / 256, a.x1]))
    + RegisterTrace(Register(RASET, [a.y0 / 256, a.y0, a.y1 / 256, a.y1]))
    + RegisterTrace(Register(RAMWR, []))
  }

  /** The register program `set_window` issues, before masking. */
  function WindowProgram(a: Rect): seq<Register> {
    [Register(CASET, [a.x0 / 256, a.x0, a.x1 / 256, a.x1]),
     Register(RASET, [a.y0 / 256, a.y0, a.y1 / 256, a.y1]),
     Register(RAMWR, [])]
  }

  /** Each corner's pair of octets is its 16-bit big-endian encoding. */
  lemma MaskCorners(u: int, v: int)
    ensures MaskAll([u / 256, u, v / 256, v]) == Split16(u) + Split16(v)
  {
    var m := MaskAll([u / 256, u, v / 256, v]);
    assert m[0] == Mask(u / 256) && m[1] == Mask(u) && m[2] == Mask(v / 256) && m[3] == Mask(v);
  }

  /** `set_window` issues exactly its register program. */
  lemma SetWindowIsProgram(lcd: Lcd, x0: int, y0: int, x1: Option<int>, y1: Option<int>)
    ensures SetWindow(lcd, x0, y0, x1, y1) == ProgramTrace(WindowProgram(Target(lcd, x0, y0, x1, y1)))
  {
    var p := WindowProgram(Target(lcd, x0, y0, x1, y1));
    ProgramTrace3(p[0], p[1], p[2]);
    assert p == [p[0], p[1], p[2]];
  }

  /** The register writes the controller performs for a target rectangle:
      CASET with its column corners and RASET with its row corners, each as
      a high and a low octet, then RAMWR with no parameters. */
  function WindowRegisters(a: Rect): seq<Register> {
    [Register(CASET, Split16(a.x0) + Split16(a.x1)),
     Register(RASET, Split16(a.y0) + Split16(a.y1)),
     Register(RAMWR, [])]
  }

  /** `set_window` is framed and puts its register writes on the wire, each
      value masked to an octet, with no delays or pin changes. */
  lemma SetWindowWire(lcd: Lcd, x0: int, y0: int, x1: Option<int>, y1: Option<int>, dc: bool)
    ensures Framed(SetWindow(lcd, x0, y0, x1, y1))
    ensures WireFrom(SetWindow(lcd, x0, y0, x1, y1), dc) == ProgramWire(WindowRegisters(Target(lcd, x0, y0, x1, y1)))
    ensures Delays(SetWindow(lcd, x0, y0, x1, y1)) == [] && PinChanges(SetWindow(lcd, x0, y0, x1, y1)) == []
  {
    var a := Target(lcd, x0, y0, x1, y1);
    SetWindowIsProgram(lcd, x0, y0, x1, y1);
    ProgramTraceWire(WindowProgram(a), dc);
    MaskCorners(a.x0, a.x1);
    MaskCorners(a.y0, a.y1);
    var m := MaskProgram(WindowProgram(a));
    assert m[0].params == Split16(a.x0) + Split16(a.x1);
    assert m[1].params == Split16(a.y0) + Split16(a.y1);
    assert m[2].params == [];
    assert m == WindowRegisters(a);
  }

  /** What the controller receives from `set_window`: the window's register
      writes for the target rectangle, nothing else. */
  lemma SetWindowRegisters(lcd: Lcd, x0: int, y0: int, x1: Option<int>, y1: Option<int>, dc: bool)
    ensures var a := Target(lcd, x0, y0, x1, y1);
      Registers(WireFrom(SetWindow(lcd, x0, y0, x1, y1), dc)) ==
        [Register(CASET, Split16(a.x0) + Split16(a.x1)),
         Register(RASET, Split16(a.y0) + Split16(a.y1)),
         Register(RAMWR, [])]
  {
    SetWindowWire(lcd, x0, y0, x1, y1, dc);
    RegistersOfProgramWire(WindowRegisters(Target(lcd, x0, y0, x1, y1)));
  }

  /** A corner that fits in 16 bits reads back exactly from its two
      octets, wherever the pair sits among the parameters. */
  lemma CornersExact(u: int, v: int)
    requires 0 <= u < 0x10000 && 0 <= v < 0x10000
    ensures var p := Split16(u) + Split16(v);
      |p| == 4 && Join16(p[0..2]) == u && Join16(p[2..4]) == v
  {
    var p := Split16(u) + Split16(v);
    assert p[0..2] == Split16(u);
    assert p[2..4] == Split16(v);
  }

  /** A window whose corners each fit in 16 bits, in whatever order,
      comes back exactly from the CASET and RASET parameters. */
  lemma SetWindowCorners(lcd: Lcd, x0: int, y0: int, x1: Option<int>, y1: Option<int>, dc: bool)
    requires var a := Target(lcd, x0, y0, x1, y1);
      0 <= a.x0 < 0x10000 && 0 <= a.x1 < 0x10000 && 0 <= a.y0 < 0x10000 && 0 <= a.y1 < 0x10000
    ensures var a := Target(lcd, x0, y0, x1, y1);
      var regs := Registers(WireFrom(SetWindow(lcd, x0, y0, x1, y1), dc));
      |regs| == 3 && |regs[0].params| == 4 && |regs[1].params| == 4 &&
      var c, r := regs[0].params, regs[1].params;
      Join16(c[0..2]) == a.x0 && Join16(c[2..4]) == a.x1 && Join16(r[0..2]) == a.y0 && Join16(r[2..4]) == a.y1
  {
    var a := Target(lcd, x0, y0, x1, y1);
    SetWindowRegisters(lcd, x0, y0, x1, y1, dc);
    CornersExact(a.x0, a.x1);
    CornersExact(a.y0, a.y1);
  }

  /** The octets of a value that fits in 16 bits. */
  lemma SplitSmall(v: int)
    requires 0 <= v < 0x10000
    ensures Split16(v) == [v / 256, v % 256]
  {
  }

  /** On the default 170 x 320 panel without rotation or offsets, the
      default window is columns 0..0xA9 and rows 0..0x13F. */
  lemma DefaultWindow(lcd: Lcd, dc: bool)
    requires lcd.width == TFTWIDTH && lcd.height == TFTHEIGHT && lcd.rotation == 0
    requires lcd.offsetLeft == 0 && lcd.offsetTop == 0
    ensures Registers(WireFrom(SetWindow(lcd, 0, 0, None, None), dc)) ==
      [Register(CASET, [0x00, 0x00, 0x00, 0xA9]), Register(RASET, [0x00, 0x00, 0x01, 0x3F]), Register(RAMWR, [])]
  {
    SetWindowRegisters(lcd, 0, 0, None, None, dc);
    DefaultTarget(lcd);
    DefaultCorners();
  }

  /** The default window of the unrotated default panel, in controller RAM. */
  lemma DefaultTarget(lcd: Lcd)
    requires lcd.width == TFTWIDTH && lcd.height == TFTHEIGHT && lcd.rotation == 0
    requires lcd.offsetLeft == 0 && lcd.offsetTop == 0
    ensures Target(lcd, 0, 0, None, None) == Rect(0, 0, 169, 319)
  {
  }

  /** The CASET and RASET parameters of that window. */
  lemma DefaultCorners()
    ensures Split16(0) + Split16(169) == [0x00, 0x00, 0x00, 0xA9]
    ensures Split16(0) + Split16(319) == [0x00, 0x00, 0x01, 0x3F]
  {
    SplitSmall(0);
    SplitSmall(169);
    SplitSmall(319);
  }
}
