/** The drawing surface: `display` pushes an image into a window of the
    controller's RAM, `clear` fills the image buffer with one colour. */
module Surface {
  import opened Optional
  import opened Bytes
  import opened Pixel
  import opened Transport
  import opened Wire
  import opened St7789
  import opened Window

  /** The image's stream, as `display` sends it: the given image's, or the
      buffer's when none is given. */
  function Frame(lcd: Lcd, image: Option<Image>): seq<Byte> {
    ImageToData(Otherwise(image, lcd.buffer))
  }

  /** `display(image, x0, y0, x1, y1)`: the buffer when no image is given,
      the window's far corner defaulting to the native frame's, then
      `set_window` and the image's 565 stream in one `data()` call. */
  function Display(lcd: Lcd, image: Option<Image>, x0: int, y0: int, x1: Option<int>, y1: Option<int>): seq<Event> {
    SetWindow(lcd, x0, y0, Some(Otherwise(x1, lcd.width - 1)), Some(Otherwise(y1, lcd.height - 1)))
    + Data(Sequence(Frame(lcd, image)))
  }

  /** `display` fills in the far corner the same way `set_window` would, so
      the window it selects is the one `set_window` selects. */
  lemma DisplayTarget(lcd: Lcd, x0: int, y0: int, x1: Option<int>, y1: Option<int>)
    ensures Target(lcd, x0, y0, Some(Otherwise(x1, lcd.width - 1)), Some(Otherwise(y1, lcd.height - 1))) ==
      Target(lcd, x0, y0, x1, y1)
  {
  }

  /** Register writes followed by data octets: the octets become the
      parameters of the last register write. */
  lemma {:induction false} ProgramWireExtend(front: seq<Register>, command: int, ps: seq<int>)
    ensures ProgramWire(front + [Register(command, [])]) + Tag(ps, true) ==
      ProgramWire(front + [Register(command, ps)])
  {
    ProgramWireAppend(front, [Register(command, [])]);
    ProgramWireAppend(front, [Register(command, ps)]);
    assert [Register(command, [])][1..] == [] && [Register(command, ps)][1..] == [];
    assert Tag([], true) == [];
    var c := [WireByte(false, command)];
    assert ProgramWire([Register(command, [])]) == c + [] + [];
    assert ProgramWire([Register(command, ps)]) == c + Tag(ps, true) + [];
  }

  /** A window followed by one `data()` call: latched as the window's CASET
      and RASET writes, then RAMWR with the data as its parameters. */
  lemma WindowThenDataWire(lcd: Lcd, x0: int, y0: int, x1: Option<int>, y1: Option<int>, bytes: seq<Byte>, dc: bool)
    ensures var a := Target(lcd, x0, y0, x1, y1);
      WireFrom(SetWindow(lcd, x0, y0, x1, y1) + Data(Sequence(bytes)), dc) ==
        ProgramWire([Register(CASET, Split16(a.x0) + Split16(a.x1)),
                     Register(RASET, Split16(a.y0) + Split16(a.y1)),
                     Register(RAMWR, bytes)])
  {
    var a := Target(lcd, x0, y0, x1, y1);
    var window := SetWindow(lcd, x0, y0, x1, y1);
    var pixels := Data(Sequence(bytes));
    SetWindowWire(lcd, x0, y0, x1, y1, dc);
    SendWire(Sequence(bytes), true, CHUNK_SIZE, dc);
    WireAppend(window, pixels, dc);
    var front := [Register(CASET, Split16(a.x0) + Split16(a.x1)), Register(RASET, Split16(a.y0) + Split16(a.y1))];
    assert WindowRegisters(a) == front + [Register(RAMWR, [])];
    ProgramWireExtend(front, RAMWR, bytes);
  }

  /** A window followed by one `data()` call waits for nothing and changes
      no pin other than D/C. */
  lemma WindowThenDataTiming(lcd: Lcd, x0: int, y0: int, x1: Option<int>, y1: Option<int>, bytes: seq<Byte>)
    ensures var t := SetWindow(lcd, x0, y0, x1, y1) + Data(Sequence(bytes));
      Delays(t) == [] && PinChanges(t) == []
  {
    var window := SetWindow(lcd, x0, y0, x1, y1);
    var pixels := Data(Sequence(bytes));
    SetWindowWire(lcd, x0, y0, x1, y1, true);
    DelaysAppend(window, pixels);
    PinChangesAppend(window, pixels);
  }

  /** Any trace followed by one `data()` call writes the data last. */
  lemma ThenDataWritten(t: seq<Event>, bytes: seq<Byte>)
    ensures Written(t + Data(Sequence(bytes))) == Written(t) + bytes
  {
    WrittenAppend(t, Data(Sequence(bytes)));
  }

  /** The register writes the controller performs for a `display`: CASET
      and RASET for the window `set_window` would select, then RAMWR whose
      parameters are the image's whole 565 stream. */
  lemma DisplayRegisters(lcd: Lcd, image: Option<Image>, x0: int, y0: int, x1: Option<int>, y1: Option<int>, dc: bool)
    ensures var a := Target(lcd, x0, y0, x1, y1);
      Registers(WireFrom(Display(lcd, image, x0, y0, x1, y1), dc)) ==
        [Register(CASET, Split16(a.x0) + Split16(a.x1)),
         Register(RASET, Split16(a.y0) + Split16(a.y1)),
         Register(RAMWR, Frame(lcd, image))]
  {
    var a := Target(lcd, x0, y0, x1, y1);
    DisplayTarget(lcd, x0, y0, x1, y1);
    WindowThenDataWire(lcd, x0, y0, Some(Otherwise(x1, lcd.width - 1)), Some(Otherwise(y1, lcd.height - 1)), Frame(lcd, image), dc);
    RegistersOfProgramWire([Register(CASET, Split16(a.x0) + Split16(a.x1)),
                            Register(RASET, Split16(a.y0) + Split16(a.y1)),
                            Register(RAMWR, Frame(lcd, image))]);
  }

  /** `display` waits for nothing and changes no pin other than D/C. */
  lemma DisplayTiming(lcd: Lcd, image: Option<Image>, x0: int, y0: int, x1: Option<int>, y1: Option<int>)
    ensures Delays(Display(lcd, image, x0, y0, x1, y1)) == [] && PinChanges(Display(lcd, image, x0, y0, x1, y1)) == []
  {
    WindowThenDataTiming(lcd, x0, y0, Some(Otherwise(x1, lcd.width - 1)), Some(Otherwise(y1, lcd.height - 1)), Frame(lcd, image));
  }

  /** `display` writes the octets of `set_window`, then the image's whole
      stream. */
  lemma DisplayWritten(lcd: Lcd, image: Option<Image>, x0: int, y0: int, x1: Option<int>, y1: Option<int>)
    ensures Written(Display(lcd, image, x0, y0, x1, y1)) == Written(SetWindow(lcd, x0, y0, x1, y1)) + Frame(lcd, image)
  {
    DisplayTarget(lcd, x0, y0, x1, y1);
    ThenDataWritten(SetWindow(lcd, x0, y0, x1, y1), Frame(lcd, image));
  }

  /** `clear(color)`: every cell of the buffer becomes `color`; the buffer
      keeps its size and nothing else about the display changes. */
  function Clear(lcd: Lcd, color: Rgb): (r: Lcd)
    ensures r.buffer.width == lcd.buffer.width && r.buffer.height == lcd.buffer.height && Valid(r.buffer)
    ensures forall y, x :: 0 <= y < r.buffer.height && 0 <= x < r.buffer.width ==> r.buffer.rows[y][x] == color
    ensures r.(buffer := lcd.buffer) == lcd
  {
    lcd.(buffer := Solid(lcd.buffer.width, lcd.buffer.height, color))
  }

  /** Clearing twice with the same colour is clearing once. */
  lemma ClearIdempotent(lcd: Lcd, color: Rgb)
    ensures Clear(Clear(lcd, color), color) == Clear(lcd, color)
  {
  }

  /** After `clear(color)`, displaying the buffer sends two octets per
      cell, each pair the colour's 565 word. */
  lemma ClearThenDisplay(lcd: Lcd, color: Rgb, x0: int, y0: int, x1: Option<int>, y1: Option<int>, dc: bool)
    ensures var cleared := Clear(lcd, color);
      var regs := Registers(WireFrom(Display(cleared, None, x0, y0, x1, y1), dc));
      var data := ImageToData(cleared.buffer);
      |regs| == 3 && regs[2] == Register(RAMWR, data) && |data| == 2 * lcd.buffer.width * lcd.buffer.height &&
      forall k :: 0 <= k && 2 * k + 2 <= |data| ==> Join16(data[2 * k..2 * k + 2]) == Color(color)
  {
    var cleared := Clear(lcd, color);
    DisplayRegisters(cleared, None, x0, y0, x1, y1, dc);
    SolidData(lcd.buffer.width, lcd.buffer.height, color);
  }

  /** The full window of the default panel turned by 90 degrees with a
      35-row offset, in controller RAM. */
  lemma RotatedTarget(lcd: Lcd)
    requires lcd.width == TFTWIDTH && lcd.height == TFTHEIGHT && lcd.rotation == 90
    requires lcd.offsetLeft == 0 && lcd.offsetTop == 35
    ensures Target(lcd, 0, 0, None, None) == Rect(0, 35, 319, 204)
  {
  }

  /** The RASET parameters of that window; its CASET parameters, columns
      0..0x13F, are those of `Window.DefaultCorners`. */
  lemma RotatedCorners()
    ensures Split16(35) + Split16(204) == [0x00, 35, 0x00, 204]
  {
    SplitSmall(35);
    SplitSmall(204);
  }

  /** A full-screen frame on the default panel turned by 90 degrees with a
      35-row offset: CASET spans columns 0..0x13F, RASET rows 35..204, and
      RAMWR carries the frame's stream, which for a single-colour frame is
      2 x 320 x 170 octets of that colour by `SolidData`. */
  lemma DisplayRotatedFrame(lcd: Lcd, img: Image, dc: bool)
    requires lcd.width == TFTWIDTH && lcd.height == TFTHEIGHT && lcd.rotation == 90
    requires lcd.offsetLeft == 0 && lcd.offsetTop == 35
    ensures Registers(WireFrom(Display(lcd, Some(img), 0, 0, None, None), dc)) ==
      [Register(CASET, [0x00, 0x00, 0x01, 0x3F]), Register(RASET, [0x00, 35, 0x00, 204]), Register(RAMWR, ImageToData(img))]
  {
    DisplayRegisters(lcd, Some(img), 0, 0, None, None, dc);
    RotatedTarget(lcd);
    DefaultCorners();
    RotatedCorners();
  }
}
