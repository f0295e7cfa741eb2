/** The pixel codec: 8-bit RGB to the controller's 16-bit RGB565 and the
    big-endian byte stream `image_to_data` produces from an image. */
module Pixel {
  import opened Bytes

  /** One RGB pixel; each channel is 0..255, as in a PIL `RGB` image. */
  datatype Rgb = Rgb(r: Byte, g: Byte, b: Byte)

  // The colour constants of the driver module, as 565 words.
  const BLACK: int := 0x0000
  const BLUE: int := 0x001F
  const GREEN: int := 0x07E0
  const RED: int := 0xF800
  const CYAN: int := 0x07FF
  const MAGENTA: int := 0xF81F
  const YELLOW: int := 0xFFE0
  const WHITE: int := 0xFFFF

  /** `color565(r, g, b)`: `((r & 0xF8) << 8) | ((g & 0xFC) << 3) | (b >> 3)`.
      On octets `r & 0xF8` is `r / 8 * 8`, a shift left is a multiplication,
      and the three fields do not overlap, so `|` is `+`. */
  function Color565(r: Byte, g: Byte, b: Byte): (c: int)
    ensures 0 <= c < 0x10000
  {
    (r / 8 * 8) * 256 + (g / 4 * 4) * 8 + b / 8
  }

  /** The word holds red's top five bits in bits 11..15, green's top six in
      bits 5..10 and blue's top five in bits 0..4. */
  lemma Color565Fields(r: Byte, g: Byte, b: Byte)
    ensures Color565(r, g, b) / 2048 == r / 8
    ensures Color565(r, g, b) / 32 % 64 == g / 4
    ensures Color565(r, g, b) % 32 == b / 8
  {
    var c := Color565(r, g, b);
    var rr, gg, bb := r / 8, g / 4, b / 8;
    assert c == rr * 2048 + gg * 32 + bb;
    DivModOf(c, 2048, rr, gg * 32 + bb);
    DivModOf(c, 32, rr * 64 + gg, bb);
    DivModOf(rr * 64 + gg, 64, rr, gg);
  }

  /** The 565 word of one pixel. */
  function Color(p: Rgb): int {
    Color565(p.r, p.g, p.b)
  }

  /** The inverse direction: a 565 word widened back to 8-bit channels, each
      field shifted into the top bits of its channel. */
  function Expand565(c: int): (p: Rgb)
    requires 0 <= c < 0x10000
  {
    Rgb(c / 2048 * 8, c / 32 % 64 * 4, c % 32 * 8)
  }

  /** Packing keeps the top 5/6/5 bits of red/green/blue and discards the
      low 3/2/3 bits: widening the word back gives the channels with those
      bits cleared. */
  lemma {:induction false} Color565Truncates(r: Byte, g: Byte, b: Byte)
    ensures Expand565(Color565(r, g, b)) == Rgb(r - r % 8, g - g % 4, b - b % 8)
  {
    var c := Color565(r, g, b);
    Color565Fields(r, g, b);
    assert c / 2048 * 8 == r - r % 8;
    assert c / 32 % 64 * 4 == g - g % 4;
    assert c % 32 * 8 == b - b % 8;
  }

  /** Every 16-bit word is the packing of its widening: no word is lost. */
  lemma {:induction false} Color565OfExpand(c: int)
    requires 0 <= c < 0x10000
    ensures Color(Expand565(c)) == c
  {
    var p := Expand565(c);
    var d := Color(p);
    Color565Fields(p.r, p.g, p.b);
    assert d / 2048 == c / 2048;
    assert d / 32 % 64 == c / 32 % 64;
    assert d % 32 == c % 32;
    assert d == d / 2048 * 2048 + d / 32 % 64 * 32 + d % 32;
    assert c == c / 2048 * 2048 + c / 32 % 64 * 32 + c % 32;
  }

  /** Two pixels pack to the same word exactly when their top 5/6/5 bits agree. */
  lemma {:induction false} Color565SameIff(p: Rgb, q: Rgb)
    ensures Color(p) == Color(q) <==> (p.r / 8 == q.r / 8 && p.g / 4 == q.g / 4 && p.b / 8 == q.b / 8)
  {
    var c, d := Color(p), Color(q);
    Color565Fields(p.r, p.g, p.b);
    Color565Fields(q.r, q.g, q.b);
    if p.r / 8 == q.r / 8 && p.g / 4 == q.g / 4 && p.b / 8 == q.b / 8 {
      assert c == c / 2048 * 2048 + c / 32 % 64 * 32 + c % 32;
      assert d == d / 2048 * 2048 + d / 32 % 64 * 32 + d % 32;
    }
  }

  /** The primaries and black: the colour constants are the packings of the
      saturated channels. */
  lemma PrimaryConstants()
    ensures Color565(0, 0, 255) == BLUE
    ensures Color565(0, 255, 0) == GREEN
    ensures Color565(255, 0, 0) == RED
    ensures Color565(0, 0, 0) == BLACK
  {
  }

  /** The mixes and white. */
  lemma MixedConstants()
    ensures Color565(0, 255, 255) == CYAN
    ensures Color565(255, 0, 255) == MAGENTA
    ensures Color565(255, 255, 0) == YELLOW
    ensures Color565(255, 255, 255) == WHITE
  {
  }

  /** An RGB image: `rows` holds `height` rows of `width` pixels when the
      image is well formed (a PIL image always is). */
  datatype Image = Image(width: nat, height: nat, rows: seq<seq<Rgb>>)

  /** A well-formed image: `height` rows of `width` cells each. */
  predicate Valid(img: Image) {
    |img.rows| == img.height && forall y :: 0 <= y < |img.rows| ==> |img.rows[y]| == img.width
  }

  /** The pixels of `rows` in row-major order. */
  function Pixels(rows: seq<seq<Rgb>>): seq<Rgb>
    decreases |rows|
  {
    if |rows| == 0 then [] else rows[0] + Pixels(rows[1..])
  }

  /** `y * w + x` for the row-major position of `(x, y)` in rows of width `w`;
      moving down one row adds `w`. */
  lemma RowStep(y: int, w: int, x: int)
    ensures y * w + x == w + ((y - 1) * w + x)
  {
  }

  /** A grid of `|rows|` rows of width `w` has `|rows| * w` pixels. */
  lemma {:induction false} PixelsCount(rows: seq<seq<Rgb>>, w: nat)
    requires forall y :: 0 <= y < |rows| ==> |rows[y]| == w
    ensures |Pixels(rows)| == |rows| * w
  {
    if |rows| > 0 {
      var rest := rows[1..];
      assert forall y :: 0 <= y < |rest| ==> |rest[y]| == w by {
        forall y | 0 <= y < |rest| ensures |rest[y]| == w {
          assert rest[y] == rows[y + 1];
        }
      }
      PixelsCount(rest, w);
      assert Pixels(rows) == rows[0] + Pixels(rest);
      RowStep(|rows|, w, 0);
    }
  }

  /** In a grid of rows of equal length `w`, pixel `(x, y)` sits at
      row-major index `y * w + x`. */
  lemma {:induction false} PixelAt(rows: seq<seq<Rgb>>, w: nat, y: nat, x: nat)
    requires forall j :: 0 <= j < |rows| ==> |rows[j]| == w
    requires y < |rows| && x < w
    ensures y * w + x < |Pixels(rows)|
    ensures Pixels(rows)[y * w + x] == rows[y][x]
  {
    var rest := rows[1..];
    assert Pixels(rows) == rows[0] + Pixels(rest);
    if y > 0 {
      assert forall j :: 0 <= j < |rest| ==> |rest[j]| == w by {
        forall j | 0 <= j < |rest| ensures |rest[j]| == w {
          assert rest[j] == rows[j + 1];
        }
      }
      PixelAt(rest, w, y - 1, x);
      RowStep(y, w, x);
      assert rest[y - 1] == rows[y];
    }
  }

  /** Each pixel becomes two octets, high byte first. */
  function EncodePixels(ps: seq<Rgb>): (bs: seq<Byte>)
    ensures |bs| == 2 * |ps|
    ensures forall k :: 0 <= k < |ps| ==> Join16(bs[2 * k..2 * k + 2]) == Color(ps[k])
    decreases |ps|
  {
    if |ps| == 0 then []
    else
      var c := Color(ps[0]);
      var rest := EncodePixels(ps[1..]);
      var bs := [Mask(c / 256), Mask(c)] + rest;
      assert forall k :: 1 <= k < |ps| ==> bs[2 * k..2 * k + 2] == rest[2 * (k - 1)..2 * (k - 1) + 2] && ps[k] == ps[1..][k - 1];
      assert Join16(bs[0..2]) == c by {
        assert bs[0..2] == Split16(c);
      }
      bs
  }

  /** `image_to_data`: the 565 words of the image in row-major order, each as
      its big-endian pair of octets. */
  function ImageToData(img: Image): seq<Byte> {
    EncodePixels(Pixels(img.rows))
  }

  /** For a well-formed image the stream holds exactly two octets per pixel. */
  lemma ImageToDataLength(img: Image)
    requires Valid(img)
    ensures |ImageToData(img)| == 2 * img.width * img.height
  {
    PixelsCount(img.rows, img.width);
    DoubleProduct(img.width, img.height);
  }

  /** Twice a product does not depend on the order of its factors. */
  lemma DoubleProduct(a: int, b: int)
    ensures 2 * a * b == 2 * (b * a)
  {
  }

  /** The pair at row-major position `y * width + x` of a well-formed image's
      stream is the 565 word of pixel `(x, y)`, high byte first. */
  lemma ImageToDataPixel(img: Image, y: nat, x: nat)
    requires Valid(img)
    requires y < img.height && x < img.width
    ensures 2 * (y * img.width + x) + 2 <= |ImageToData(img)|
    ensures Join16(ImageToData(img)[2 * (y * img.width + x)..2 * (y * img.width + x) + 2]) == Color(img.rows[y][x])
  {
    var k := y * img.width + x;
    PixelAt(img.rows, img.width, y, x);
    var ps := Pixels(img.rows);
    assert Join16(EncodePixels(ps)[2 * k..2 * k + 2]) == Color(ps[k]);
  }

  /** Rows whose every cell is `c` flatten to pixels that are all `c`. */
  lemma {:induction false} PixelsUniform(rows: seq<seq<Rgb>>, c: Rgb)
    requires forall y, x :: 0 <= y < |rows| && 0 <= x < |rows[y]| ==> rows[y][x] == c
    ensures forall k :: 0 <= k < |Pixels(rows)| ==> Pixels(rows)[k] == c
    decreases |rows|
  {
    if |rows| > 0 {
      PixelsUniform(rows[1..], c);
      var ps := Pixels(rows);
      forall k | 0 <= k < |ps| ensures ps[k] == c {
        if k >= |rows[0]| {
          assert ps[k] == Pixels(rows[1..])[k - |rows[0]|];
        }
      }
    }
  }

  /** The stream of a single-colour image: two octets per cell, every pair
      the colour's 565 word. */
  lemma SolidData(width: nat, height: nat, c: Rgb)
    ensures |ImageToData(Solid(width, height, c))| == 2 * width * height
    ensures var data := ImageToData(Solid(width, height, c));
      forall k :: 0 <= k && 2 * k + 2 <= |data| ==> Join16(data[2 * k..2 * k + 2]) == Color(c)
  {
    var img := Solid(width, height, c);
    ImageToDataLength(img);
    PixelsUniform(img.rows, c);
    var ps := Pixels(img.rows);
    var data := ImageToData(img);
    forall k | 0 <= k && 2 * k + 2 <= |data|
      ensures Join16(data[2 * k..2 * k + 2]) == Color(c)
    {
      assert ps[k] == c;
    }
  }

  /** A `width` x `height` image with every cell `c`. */
  function Solid(width: nat, height: nat, c: Rgb): (img: Image)
    ensures Valid(img) && img.width == width && img.height == height
    ensures forall y, x :: 0 <= y < height && 0 <= x < width ==> img.rows[y][x] == c
  {
    Image(width, height, seq(height, _ => seq(width, _ => c)))
  }
}
