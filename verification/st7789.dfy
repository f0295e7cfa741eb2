/** The panel's constants and the state of one `ST7789` instance, without
    its GPIO and SPI handles. */
module St7789 {
  import opened Optional
  import opened Pixel

  /** Native panel size. */
  const TFTWIDTH: nat := 170
  const TFTHEIGHT: nat := 320

  // The registers the driver writes.
  const SLPOUT := 0x11
  const INVON := 0x21
  const DISPOFF := 0x28
  const DISPON := 0x29
  const CASET := 0x2A
  const RASET := 0x2B
  const RAMWR := 0x2C
  const MADCTL := 0x36
  const COLMOD := 0x3A
  const PORCTRL := 0xB2
  const GCTRL := 0xB7
  const VCOMS := 0xBB
  const LCMCTRL := 0xC0
  const VDVVRHEN := 0xC2
  const VRHS := 0xC3
  const VDVSET := 0xC4
  const FRCTR2 := 0xC6
  const PWCTRL1 := 0xD0
  const PVGAMCTRL := 0xE0
  const NVGAMCTRL := 0xE1

  /** An `ST7789` instance: the optional reset pin, the native geometry, the
      rotation in degrees, the window offsets and the RGB image buffer. */
  datatype Lcd = Lcd(
    rst: Option<int>,
    width: nat,
    height: nat,
    rotation: int,
    offsetLeft: int,
    offsetTop: int,
    buffer: Image)

  /** The constructor's state: the buffer is a black `width` x `height`
      image, as `Image.new('RGB', (width, height))` creates. */
  function NewLcd(rst: Option<int>, width: nat, height: nat, rotation: int, offsetLeft: int, offsetTop: int): (lcd: Lcd)
    ensures lcd.width == width && lcd.height == height && lcd.rotation == rotation
    ensures lcd.offsetLeft == offsetLeft && lcd.offsetTop == offsetTop && lcd.rst == rst
    ensures Valid(lcd.buffer) && lcd.buffer.width == width && lcd.buffer.height == height
    ensures forall y, x :: 0 <= y < height && 0 <= x < width ==> lcd.buffer.rows[y][x] == Rgb(0, 0, 0)
  {
    Lcd(rst, width, height, rotation, offsetLeft, offsetTop, Solid(width, height, Rgb(0, 0, 0)))
  }
}
