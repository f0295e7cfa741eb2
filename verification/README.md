# ST7789 display driver, modelled in Dafny

A model of the Python driver for the Sitronix ST7789 IPS LCD controller,
`ST7789/ST7789.py`. It covers:

- the pixel codec, `color565` and `image_to_data`;
- the byte transport, `send`, `command` and `data`;
- the power-on sequence, `reset`, `_init` and `begin`, and `shutdown`;
- the address window engine, `set_window`;
- the drawing surface, `display` and `clear`.

Every driver operation that reaches the panel is a pure function that
returns an **event trace**; `clear` and the constructor return the
instance's new state instead (`Surface.Clear`, `St7789.NewLcd`). The events
are `SetDc(level)`, `SpiWrite(bytes)`, `Pin(pin, level)` and
`Sleep(ms)`. A trace is read in these ways:

- the **controller's view**. `Wire.WireFrom` tags every byte written on the
  bus with the D/C level at that moment. `Wire.Registers` groups each command
  byte with the data bytes that follow it, the way the controller latches a
  register write.
- its **delays**, `Transport.Delays`.
- its **pin changes** other than D/C, `Transport.PinChanges`.
- all three **in time order**, `Timeline.Steps`: pin changes, delays and
  latched octets interleaved as they happen. Keeping only one kind of step
  gives back each of the three views above (`Timeline.StepsProject`). Hold
  times and waits before a command are stated in this view.

The main results:

- A register program issued the driver's way reaches the controller as
  exactly that program, each value masked to eight bits
  (`Wire.ProgramRoundTrip`).
- `begin` therefore programs the controller with the full `_init` register
  list, then MADCTL, CASET and RASET (`Sequencer.BeginRegisters`).
- `display` programs CASET and RASET for the remapped, offset window. It then
  writes the image's whole 565 stream as the parameters of RAMWR
  (`Surface.DisplayRegisters`).

Modules, one per file, with the Dafny function that models each driver
function:

| file | module | models |
|---|---|---|
| optional.dfy | `Optional` | an argument left out (`None`): `Option`, `Otherwise` |
| bytes.dfy | `Bytes` | `& 0xFF` as `Mask`; the `(v >> 8, v)` octet pair as `Split16`, read back by `Join16` |
| pixel.dfy | `Pixel` | `color565` as `Color565`; the colour constants; `image_to_data` as `ImageToData`, over `EncodePixels` |
| transport.dfy | `Transport` | `send` as `Send`, `command` as `Command`, `data` as `Data`; the chunk loop as `Chunks` and `ChunkWrites` |
| wire.dfy | `Wire` | what the controller latches from a trace; a register write issued by `command` and `data` calls as `RegisterTrace` |
| timeline.dfy | `Timeline` | the ordered view `Steps` |
| st7789.dfy | `St7789` | the register constants; one driver instance as `Lcd`, built by `NewLcd` |
| sequencer.dfy | `Sequencer` | `reset` as `Reset`, `_init` as `Init`, `begin` as `Begin`, `shutdown` as `Shutdown` |
| window.dfy | `Window` | `set_window` as `SetWindow`, the window it selects as `Target`, the rotation adjustment as `Remap` |
| surface.dfy | `Surface` | `display` as `Display`, `clear` as `Clear` |

Python's `x & 0xFF` is `x % 256` here, and `x >> 8` is `x / 256`. Dafny's
Euclidean division agrees with Python's floor division for a positive
divisor, including for negative `x`.

`begin` is modelled as written. It hard-codes the high bytes of CASET and
RASET to zero and sends the masked low byte of `extent + offset - 1`. For the
native 320-row extent that byte is 0x3F, not 0x13F. Rotated by 90 degrees,
the 320 pixels become the column extent, so the column window `begin`
programs ends at 0x3F (`Sequencer.BeginRotatedColumns`). `set_window` sends
both bytes, so the first `display` programs the full window again
(`Surface.DisplayRotatedFrame`).

DISPON (0x29) is the last register of `_init` (`ST7789/ST7789.py:289`), so
it is sent before `begin` writes MADCTL, CASET and RASET.

## Model

| member | source | states |
|---|---|---|
| Pixel.Color565 | ST7789/ST7789.py:122-126 | The packed colour of three 8-bit channels is a 16-bit value. |
| Pixel.Color565Fields | ST7789/ST7789.py:122-126 | Bits 15-11 hold the top five bits of red, bits 10-5 the top six of green, bits 4-0 the top five of blue. |
| Pixel.Color565Truncates | ST7789/ST7789.py:122-126 | Unpacking a packed colour gives back the channels with their low 3, 2 and 3 bits cleared: exactly those bits are discarded. |
| Pixel.Color565OfExpand | ST7789/ST7789.py:122-126 | Every 16-bit value is the packing of its own expansion, so packing is onto the 16-bit range. |
| Pixel.Color565SameIff | ST7789/ST7789.py:122-126 | Two colours pack to the same word if and only if they agree in the kept high bits of every channel. |
| Pixel.PrimaryConstants | ST7789/ST7789.py:112-126 | Pure blue, green and red and black pack to the BLUE, GREEN, RED and BLACK constants. |
| Pixel.MixedConstants | ST7789/ST7789.py:112-126 | Cyan, magenta, yellow and white pack to the CYAN, MAGENTA, YELLOW and WHITE constants. |
| Pixel.EncodePixels | ST7789/ST7789.py:128-133 | A row-major pixel list becomes two octets per pixel; pair k, read high byte first, is pixel k's 565 word. |
| Pixel.ImageToDataLength | ST7789/ST7789.py:128-133 | The stream of a W x H image has exactly 2·W·H octets. |
| Pixel.ImageToDataPixel | ST7789/ST7789.py:128-133 | The pair at row-major index y·W + x is the big-endian 565 word of the pixel at row y, column x. |
| Pixel.SolidData | ST7789/ST7789.py:128-133 | A one-colour W x H image streams 2·W·H octets, every pair that colour's 565 word. |
| Bytes.Split16 | ST7789/ST7789.py:363-373 | The (v >> 8, v) pair sent for a coordinate, both masked to octets, recovers v modulo 2^16, and exactly for a 16-bit v. |
| Bytes.Split16Join16 | ST7789/ST7789.py:363-373 | Splitting the word of an octet pair gives the pair back. |
| Transport.Chunks | ST7789/ST7789.py:186-189 | Every chunk is non-empty and at most chunk_size long; for a positive size they concatenate to the payload; an empty payload or a negative size gives no chunk. |
| Transport.ChunkCount | ST7789/ST7789.py:186-189 | A positive chunk size gives ceil(len / chunk_size) chunks. |
| Transport.ChunkWrites | ST7789/ST7789.py:186-189 | The `range(0, len, chunk_size)` loop writes exactly the chunks, which concatenate to the payload. |
| Transport.Send | ST7789/ST7789.py:175-189 | One D/C event at level is_data comes first, then only SPI writes of 1..chunk_size values; the values written are the payload, a number masked to the one octet `data & 0xFF`; nothing waits and no other pin moves. |
| Wire.SendWire | ST7789/ST7789.py:175-197 | Every octet `send` writes reaches the controller tagged with is_data: low for `command`, high for `data`. |
| Wire.RegistersOfProgramWire | ST7789/ST7789.py:191-197 | A command octet followed by its data octets is latched back as that register write: decoding inverts encoding. |
| Wire.ProgramRoundTrip | ST7789/ST7789.py:191-197 | A register program issued as one `command` and one `data` per value is latched as the program with every value masked, and as the program itself when all values are octets. |
| Sequencer.ResetTrace | ST7789/ST7789.py:199-207 | `Reset` never uses the bus; without a reset pin nothing happens; with one there are three 100 ms delays and the pin goes high, low, high. |
| Sequencer.ResetSteps | ST7789/ST7789.py:199-207 | In time order, `Reset` with a pin drives it high, waits 100 ms, low, 100 ms, high, 100 ms, so each level is held 100 ms; without a pin it does nothing. |
| Sequencer.InitWire | ST7789/ST7789.py:213-291 | `Init` latches SLPOUT, then the fixed 15-register program ending in DISPON, waiting 10, 150 and 100 ms and moving no pin. |
| Sequencer.InitSteps | ST7789/ST7789.py:213-291 | In time order, `Init` waits 10 ms, latches SLPOUT, waits 150 ms before any other command, latches the program ending in DISPON, then waits 100 ms. |
| Sequencer.Madctl | ST7789/ST7789.py:309-319 | The MADCTL byte sets row/column exchange exactly at 90 and 270 degrees, column mirroring at 90 and 180, row mirroring at 180 and 270, and nothing for any other rotation. |
| Sequencer.BeginRegisters | ST7789/ST7789.py:293-335 | `begin` latches SLPOUT, the `_init` program, MADCTL for the rotation, then CASET and RASET as [0, offset & 0xFF, 0, (extent + offset - 1) & 0xFF], extents swapped on a quarter turn. |
| Sequencer.BeginTiming | ST7789/ST7789.py:199-298 | `Begin` waits the reset's delays then 10, 150 and 100 ms, and moves only the reset pin. |
| Sequencer.BeginSteps | ST7789/ST7789.py:293-335 | In time order, `Begin` is the whole reset pulse, then the whole of `_init`, then the MADCTL, CASET and RASET writes with no delay among them. |
| Sequencer.BeginRotatedColumns | ST7789/ST7789.py:301-335 | The 170 x 320 panel at 90 degrees gets MADCTL 0x60, CASET [0, 0, 0, 0x3F] and RASET [0, 0, 0, 0xA9]: the 320 column extent loses its high byte. |
| Sequencer.ShutdownRegisters | ST7789/ST7789.py:209-211 | `shutdown` latches DISPOFF with no parameters, waits for nothing and moves no pin. |
| Window.Remap | ST7789/ST7789.py:349-355 | Any rotation other than 90, 180 and 270 leaves the rectangle alone; a quarter turn swaps its extents, a half turn keeps them; corner order is kept. |
| Window.RemapWithin | ST7789/ST7789.py:349-355 | A rectangle lies in the native W x H frame if and only if its remap lies in the rotated frame, H x W on a quarter turn. |
| Window.RemapFullFrame | ST7789/ST7789.py:343-355 | The default full rectangle maps to the full rotated frame, (0, 0, H-1, W-1) on a quarter turn. |
| Window.QuarterTurnsCompose | ST7789/ST7789.py:349-355 | Two 90-degree remaps, the second in the turned frame, are one 180-degree remap. |
| Window.HalfTurnInvolution | ST7789/ST7789.py:352-353 | The 180-degree remap undoes itself. |
| Window.FourQuarterTurns | ST7789/ST7789.py:349-351 | Four 90-degree remaps, each in the frame the last one left, are the identity. |
| Window.ThreeQuarterUndoesQuarter | ST7789/ST7789.py:349-355 | The 270-degree remap undoes the 90-degree one and the other way round. |
| Window.SetWindowWire | ST7789/ST7789.py:337-373 | `set_window` reaches the controller as the CASET, RASET and RAMWR writes of its target window, waits for nothing and moves no pin. |
| Window.SetWindowRegisters | ST7789/ST7789.py:337-373 | `set_window` latches CASET with the high and low octets of both remapped, offset x corners, RASET likewise for y, then RAMWR without parameters. |
| Window.SetWindowCorners | ST7789/ST7789.py:357-373 | When each corner coordinate fits in 16 bits, in whatever order, the four latched CASET and RASET words are exactly the remapped, offset corners. |
| Window.DefaultWindow | ST7789/ST7789.py:337-373 | At 170 x 320, rotation 0 and no offsets, the default window is CASET [0, 0, 0, 0xA9], RASET [0, 0, 1, 0x3F], RAMWR. |
| Surface.DisplayTarget | ST7789/ST7789.py:387-391 | The far corner `display` fills in is the one `set_window` would, so both select the same window. |
| Surface.DisplayRegisters | ST7789/ST7789.py:376-399 | `display` latches CASET and RASET of the window, then RAMWR whose parameters are the whole 565 stream of the image, or of the buffer when none is given. |
| Surface.DisplayTiming | ST7789/ST7789.py:376-399 | `display` waits for nothing and moves no pin other than D/C. |
| Surface.DisplayWritten | ST7789/ST7789.py:376-399 | `display` writes the `set_window` octets, then the image stream and nothing else. |
| Surface.Clear | ST7789/ST7789.py:401-404 | `clear` keeps the buffer's size, sets every cell to the colour and changes nothing else. |
| Surface.ClearIdempotent | ST7789/ST7789.py:401-404 | Clearing twice with one colour is clearing once. |
| Surface.ClearThenDisplay | ST7789/ST7789.py:376-404 | Displaying a cleared buffer sends RAMWR with 2·W·H octets, every pair the colour's 565 word. |
| Surface.DisplayRotatedFrame | ST7789/ST7789.py:376-399 | A full frame on the 170 x 320 panel at 90 degrees with a 35-row offset latches CASET [0, 0, 1, 0x3F], RASET [0, 35, 0, 204] and the frame's stream. |
| Timeline.StepsProject | ST7789/ST7789.py:175-207 | Keeping only the latches, delays or pin changes of the ordered view gives exactly the latched octets, the delays and the pin changes of the trace. |
| Timeline.StepsAppend | ST7789/ST7789.py:293-298 | A trace followed by one that sets D/C before writing is observed as the first, then the second, which is how `begin` composes its steps. |
| St7789.NewLcd | ST7789/ST7789.py:139-173 | A new instance keeps its geometry, rotation, offsets and reset pin, and its buffer is a black image of the native size. |

## Left out

- The constructor's hardware setup: GPIO platform detection, pin setup, the backlight pin, and SPI mode, bit order and clock. This is foreign I/O. `St7789.NewLcd` keeps only the state later operations read.
- The D/C pin number, the SPI handle and the GPIO handle. A trace records the D/C level as `SetDc`, so the D/C pin's identity is not needed.
- `time.sleep` runs in real time; a trace records only `Sleep(ms)` in milliseconds.
- PIL and NumPy: `Image.new`, `image.convert('RGB')`, the `uint16` array and `draw()`. An image is a row-major `seq<seq<Rgb>>` whose channels are octets. `convert('RGB')` guarantees octet channels; the model takes them as given.
- `send` with `chunk_size == 0` raises a `ValueError` from `range`. The model requires a non-zero chunk size instead of modelling the exception. Every caller in the driver uses 4096.
- `send` of a list writes the list as given, unmasked, and so does the model. What the SPI layer does with a value outside 0..255 is not part of this model. The only list the driver sends is the image stream, whose values are octets.
- `display` does not check that the image matches the window. Neither does the model: the stream is written whatever the image's size.
- `Transport.ChunkCount`: stated for a positive chunk size only; a negative size gives no chunk by `Transport.Chunks`.
- `Window.SetWindowCorners`: stated only when each corner coordinate fits in 16 bits; the corners need not be ordered. Outside that range, `Bytes.Split16` gives the words modulo 2^16.
- `Sequencer.BeginRotatedColumns`, `Window.DefaultWindow` and `Surface.DisplayRotatedFrame` state one concrete configuration each. `Sequencer.BeginRegisters`, `Window.SetWindowRegisters` and `Surface.DisplayRegisters` give the general case.
- Default arguments: `clear(color=(0,0,0))` and the constructor's `rst=27`, `width=170`, `height=320`, `rotation=0` and zero offsets. `Surface.Clear` and `St7789.NewLcd` take every argument explicitly, so a default is modelled by passing its constant.
- The register and colour constants the traced code does not use, and the read commands.
- The demo script and the packaging metadata. They have no driver logic.
