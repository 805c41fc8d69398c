/** The field evaluator: pixel coordinates to the complex plane, the escape
    count to a palette index, and the row-major pixel buffer. */
module Field {
  import opened Rescale
  import opened Pixels
  import opened Escape

  /** The renderer's settings, fixed at build time in the program. */
  datatype Config = Config(
    width: nat, height: nat,
    palette: seq<Pixel>,
    iterations: nat,
    ca: real, cb: real,
    scale: real, xOff: real, yOff: real)
  {
    /** A palette to index into (it is a Rust array, so its length fits a
        `usize`) and at least one pass of the escape loop. */
    predicate Valid()
    {
      1 <= |palette| <= UsizeMax && 1 <= iterations
    }
  }

  /** The real part for pixel column x: [0, width) onto the window of width
      `scale` centred on `xOff`.  Column 0 lands on the left edge, and every
      column lies in the window, strictly left of its right edge. */
  function PlaneRe(cfg: Config, x: nat): (re: real)
    requires cfg.width > 0
    ensures x == 0 ==> re == -(cfg.scale / 2.0) + cfg.xOff
    ensures x < cfg.width && cfg.scale > 0.0 ==>
      -(cfg.scale / 2.0) + cfg.xOff <= re < cfg.scale / 2.0 + cfg.xOff
  {
    var lo, hi := -(cfg.scale / 2.0) + cfg.xOff, cfg.scale / 2.0 + cfg.xOff;
    MapEndpoints(0.0, cfg.width as real, lo, hi);
    if x < cfg.width && cfg.scale > 0.0 then
      MapBelowMax(x as real, 0.0, cfg.width as real, lo, hi);
      Map(x as real, 0.0, cfg.width as real, lo, hi)
    else
      Map(x as real, 0.0, cfg.width as real, lo, hi)
  }

  /** The imaginary part for pixel row y, the same way with `yOff`: row 0 lands
      on the lower edge, and every row lies in the window, strictly below its
      upper edge. */
  function PlaneIm(cfg: Config, y: nat): (im: real)
    requires cfg.height > 0
    ensures y == 0 ==> im == -(cfg.scale / 2.0) + cfg.yOff
    ensures y < cfg.height && cfg.scale > 0.0 ==>
      -(cfg.scale / 2.0) + cfg.yOff <= im < cfg.scale / 2.0 + cfg.yOff
  {
    var lo, hi := -(cfg.scale / 2.0) + cfg.yOff, cfg.scale / 2.0 + cfg.yOff;
    MapEndpoints(0.0, cfg.height as real, lo, hi);
    if y < cfg.height && cfg.scale > 0.0 then
      MapBelowMax(y as real, 0.0, cfg.height as real, lo, hi);
      Map(y as real, 0.0, cfg.height as real, lo, hi)
    else
      Map(y as real, 0.0, cfg.height as real, lo, hi)
  }

  /** The palette index for an escape count: the count mapped from
      [0, iterations) onto [0, len - 1] and cast with `as usize`.  Over exact
      arithmetic this is floor division, and the last entry is out of reach. */
  function PaletteIndex(amount: nat, iterations: nat, len: nat): (k: nat)
    requires amount < iterations && len <= UsizeMax
    ensures len >= 1 ==> k == (amount * (len - 1)) / iterations
    ensures len <= 1 ==> k == 0
    ensures len >= 2 ==> k < len - 1
  {
    var x := Map(amount as real, 0.0, iterations as real, 0.0, len as real - 1.0);
    if len == 0 then
      assert x <= 0.0 by {
        assert x == (amount as real) * (-1.0) / (iterations as real);
      }
      CastUsize(x)
    else
      assert x == ((amount * (len - 1)) as real) / (iterations as real);
      FloorOfQuotient(amount * (len - 1), iterations);
      QuotientBelow(amount, iterations, len - 1);
      CastUsize(x)
  }

  /** a*m / n < m for a < n and m > 0. */
  lemma QuotientBelow(a: nat, n: nat, m: nat)
    requires a < n
    ensures m > 0 ==> (a * m) / n < m
  {
    if m > 0 {
      var q: nat := (a * m) / n;
      assert q * n <= a * m;
      assert a * m < n * m;
      if q >= m {
        MulMono(m, q, n);
      }
    }
  }

  /** When the palette is no longer than the loop (len - 1 <= iterations), the
      count recorded for a point that never escapes selects entry len - 2. */
  lemma PaletteIndexLargest(iterations: nat, len: nat)
    requires 2 <= len <= UsizeMax && len - 1 <= iterations
    ensures PaletteIndex(iterations - 1, iterations, len) == len - 2
  {
    var a := (iterations - 1) * (len - 1);
    assert a == (len - 2) * iterations + (iterations - (len - 1));
    DivUnique(a, iterations, len - 2, iterations - (len - 1));
  }

  lemma DivUnique(a: nat, b: nat, q: nat, r: nat)
    requires 0 <= r < b && a == q * b + r
    ensures a / b == q
  {
    var q': nat, r': nat := a / b, a % b;
    assert a == q' * b + r';
    if q' < q {
      MulMono(q' + 1, q, b);
    } else if q' > q {
      MulMono(q + 1, q', b);
    }
  }

  lemma MulMono(a: nat, b: nat, c: nat)
    requires a <= b
    ensures a * c <= b * c
  {
  }

  /** A larger escape count never selects an earlier palette entry. */
  lemma PaletteIndexMonotone(a1: nat, a2: nat, iterations: nat, len: nat)
    requires a1 <= a2 < iterations && len <= UsizeMax
    ensures PaletteIndex(a1, iterations, len) <= PaletteIndex(a2, iterations, len)
  {
    if len >= 1 {
      var m := len - 1;
      MulMono(a1, a2, m);
      DivMono(a1 * m, a2 * m, iterations);
    }
  }

  lemma DivMono(x1: nat, x2: nat, n: nat)
    requires x1 <= x2 && n > 0
    ensures x1 / n <= x2 / n
  {
    var q1: nat, q2: nat := x1 / n, x2 / n;
    assert q1 * n <= x1;
    assert x2 < (q2 + 1) * n;
    if q1 > q2 {
      MulMono(q2 + 1, q1, n);
    }
  }

  /** The colour of pixel (x, y): the palette entry for the escape count of its point. */
  function PixelColor(cfg: Config, x: nat, y: nat): (p: Pixel)
    requires cfg.Valid() && cfg.width > 0 && cfg.height > 0
    ensures p in cfg.palette
    ensures |cfg.palette| >= 2 ==> p in cfg.palette[..|cfg.palette| - 1]
  {
    var amount := EscapeTime((PlaneRe(cfg, x), PlaneIm(cfg, y)), (cfg.ca, cfg.cb), cfg.iterations);
    var k := PaletteIndex(amount, cfg.iterations, |cfg.palette|);
    assert |cfg.palette| >= 2 ==> cfg.palette[k] == cfg.palette[..|cfg.palette| - 1][k];
    cfg.palette[k]
  }

  /** The per-pixel body of the render loop: map the coordinates, run the
      escape loop, bucket the count and copy the palette entry. */
  method ShadePixel(cfg: Config, x: nat, y: nat) returns (pixel: Pixel)
    requires cfg.Valid() && x < cfg.width && y < cfg.height
    ensures pixel == PixelColor(cfg, x, y)
    ensures pixel in cfg.palette
  {
    var re := PlaneRe(cfg, x);
    var im := PlaneIm(cfg, y);
    var amount := EscapeCount(re, im, cfg.ca, cfg.cb, cfg.iterations);
    var cIndex := PaletteIndex(amount, cfg.iterations, |cfg.palette|);
    pixel := cfg.palette[cIndex];
  }

  /** The whole image in row-major order: entry i is pixel (i % width, i / width). */
  function Image(cfg: Config): (img: seq<Pixel>)
    requires cfg.Valid()
    ensures |img| == cfg.width * cfg.height
    ensures forall i :: 0 <= i < |img| ==> img[i] in cfg.palette
    ensures |cfg.palette| >= 2 ==>
      forall i :: 0 <= i < |img| ==> img[i] in cfg.palette[..|cfg.palette| - 1]
  {
    if cfg.width == 0 || cfg.height == 0 then []
    else seq(cfg.width * cfg.height, i requires 0 <= i => PixelColor(cfg, i % cfg.width, i / cfg.width))
  }

  /** Position y*width + x of a width-by-height grid is inside it and decodes back to (x, y). */
  lemma RowMajorIndex(width: nat, height: nat, x: nat, y: nat)
    requires x < width && y < height
    ensures y * width + x < width * height
    ensures (y * width + x) % width == x && (y * width + x) / width == y
  {
    assert (y + 1) * width <= height * width;
    DivUnique(y * width + x, width, y, x);
  }

  /** Pixel (x, y) sits at position y*width + x of the image. */
  lemma ImageRowMajor(cfg: Config, x: nat, y: nat)
    requires cfg.Valid() && x < cfg.width && y < cfg.height
    ensures y * cfg.width + x < |Image(cfg)|
    ensures Image(cfg)[y * cfg.width + x] == PixelColor(cfg, x, y)
  {
    RowMajorIndex(cfg.width, cfg.height, x, y);
  }

  /** The nested render loop: rows top to bottom, columns left to right, one
      pushed pixel per (x, y). */
  method BuildImage(cfg: Config) returns (pixels: seq<Pixel>)
    requires cfg.Valid()
    ensures pixels == Image(cfg)
    ensures |pixels| == cfg.width * cfg.height
  {
    var width, height := cfg.width, cfg.height;
    ghost var img := Image(cfg);
    pixels := [];
    var y := 0;
    while y < height
      invariant y <= height
      invariant y * width <= |img|
      invariant pixels == img[..y * width]
    {
      var x := 0;
      while x < width
        invariant x <= width
        invariant y * width + x <= |img|
        invariant pixels == img[..y * width + x]
      {
        var pixel := ShadePixel(cfg, x, y);
        ghost var i := y * width + x;
        ImageRowMajor(cfg, x, y);
        assert img[..i + 1] == img[..i] + [img[i]];
        pixels := pixels + [pixel];
        x := x + 1;
      }
      assert y * width + width == (y + 1) * width;
      y := y + 1;
    }
    assert |img| == height * width;
  }
}
