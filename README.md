# julia-rs, modelled in Dafny

julia-rs renders a Julia set of the map z ← z² + c into a 2000 × 2000 RGBA
image and writes it as `output.png`. Every pixel goes through the same steps:

- its column and row are mapped linearly onto a window of the complex plane;
- the point is iterated for up to 1000 passes, and the loop records the index
  of its last pass: one less than the passes taken, so 999 for a point that
  never escapes;
- that count is bucketed into one of the first four of the five palette
  colours, which are decoded from hex values.

The pixels are pushed onto a buffer in row-major order, and the buffer is
flattened into four bytes per pixel and handed to a PNG encoder.

This project models that pipeline over exact reals (`f32` is treated as exact)
and proves its structural laws. It has one file per component:

- `rescale.dfy` (module `Rescale`): the linear rescale `map` and its laws. It
  also holds the saturating casts `as u8` and `as usize`, and the fact that
  truncating an exact quotient is integer division.
- `pixel.dfy` (module `Pixels`): the `Pixel` colour. It covers `new`, `to_u8`
  and `from_hex` with its unmasked shifts.
- `escape.dfy` (module `Escape`): the step `f` and the orbit of a point. The
  escape count is given twice: as a function, and as the imperative loop
  `EscapeCount` proved equal to it.
- `field.dfy` (module `Field`): the configuration, the coordinate mapping and
  palette bucketing, the per-pixel body `ShadePixel`, and the image as a
  function `Image`. The nested render loop `BuildImage` is proved to produce
  exactly `Image`.
- `writer.dfy` (module `Writer`): the byte flattening done by `save_image`.
- `program.dfy` (module `Program`): the shipped constants, and the program
  run up to the encoder call.

The constants of `main` are gathered in a `Config` value, so the laws are
stated for any configuration. `Program.Shipped` is the configuration the
program actually uses.

Behaviour of the code that the model keeps as written:

- The escape loop records the pass number before it steps. A point that
  never escapes therefore gets `iterations - 1`, not `iterations`.
- The palette index truncates `amount * (len - 1) / iterations`. Since
  `amount < iterations`, the index never reaches `len - 1`: the last palette
  entry (white, 0xFFFFFF) is never selected, and with the shipped constants
  the largest index is 3. A reading of the palette in which its last entry
  marks points that never escape does not match the code, and the model
  follows the code.
- `from_hex` shifts without masking. Green and blue therefore carry the
  higher bytes and exceed 1.0 whenever a higher byte is non-zero. After
  `to_u8` they saturate at 255, so 0x9B1D1D reaches the encoder as
  (0x9B, 0xFF, 0xFF, 0xFF). A decode/encode round trip of the hex value
  holds unconditionally only for the red byte. Green also survives it when
  the colour is below 0x10000, and all three bytes survive it when the colour
  is below 0x100 (0x000000, for instance).
- `map(0.5, 0, 1, 0, 255)` is 127.5, since `map` does not truncate. The unit
  test's third assertion (127.0) contradicts the code.

## Model

| member | source | states |
|---|---|---|
| `Rescale.Map` | src/main.rs:7-9 | the result divides [from, to] in the ratio in which `val` divides [min, max]: (r − from)·(max − min) = (val − min)·(to − from) |
| `Rescale.MapEndpoints` | src/main.rs:7-9 | the lower end of the source range maps exactly to `from` and the upper end exactly to `to` |
| `Rescale.MapMidpoint` | src/main.rs:7-9 | the midpoint of the source range maps to the midpoint of the destination range |
| `Rescale.MapWithin` | src/main.rs:7-9 | a value inside [min, max] maps inside [from, to] when from <= to |
| `Rescale.MapBelowMax` | src/main.rs:7-9 | a value in [min, max) maps into [from, to), strictly below `to`, when from < to |
| `Rescale.MapRoundTrip` | src/main.rs:7-9 | mapping [min, max] onto [from, to] and back is the identity when both ranges are non-degenerate |
| `Rescale.MapChannelScale` | src/main.rs:127-138 | `map` over [0,1]→[0,255] gives 0 at 0 and 255 at 1, as the unit test asserts, and 127.5 (not 127) at 0.5 |
| `Rescale.CastU8` | src/main.rs:26-29 | `as u8` truncates a value in [0, 256), and values below 1 give 0 and values of 255 or more give 255 |
| `Rescale.CastUsize` | src/main.rs:105 | `as usize` truncates a non-negative value below the 64-bit limit, values below 1 give 0, and the result never exceeds the limit |
| `Rescale.FloorOfQuotient` | src/main.rs:105 | truncating the exact quotient of two naturals equals their integer division |
| `Pixels.New` | src/main.rs:20-22 | the red, green and blue components are kept and alpha is fully opaque (1.0) |
| `Pixels.ChannelByte` | src/main.rs:26-29 | one channel after `map` onto [0, 255] and `as u8`: floor(255·c) for c in [0, 1], 255 for c >= 1, 0 for c <= 0 |
| `Pixels.ToU8` | src/main.rs:24-31 | four bytes in r, g, b, a order; a channel in [0,1] becomes floor(255·channel), a channel >= 1 gives 255, a channel <= 0 gives 0 |
| `Pixels.FromHex` | src/main.rs:34-40 | alpha is 1, and 255 times red, green and blue equals `col >> 16`, `col >> 8` and `col >> 0`, with no mask |
| `Pixels.ChannelRoundTrip` | src/main.rs:26-37 | a channel stored as n/255 is converted back to n, saturated at 255 |
| `Pixels.FromHexBytes` | src/main.rs:24-40 | `to_u8(from_hex(col))` is the three shifted values each saturated at 255, then 255 for alpha |
| `Pixels.FromHexUnmaskedChannels` | src/main.rs:34-40 | for a 24-bit colour red stays in [0,1]; green exceeds 1 exactly when the red byte is non-zero; blue exceeds 1 exactly when red or green is non-zero |
| `Pixels.DarkRedSaturates` | src/main.rs:73 | the palette colour 0x9B1D1D has green above 1 and reaches the encoder as (0x9B, 255, 255, 255), not (0x9B, 0x1D, 0x1D, 255) |
| `Escape.F` | src/main.rs:114-119 | `f(za, zb, ca, cb)` equals the complex product z·z plus c, computed through an independent `Complex` multiplication and addition |
| `Escape.Orbit` | src/main.rs:93-98 | the point after n steps of `f` from z0; a fixed point of `f` is its own orbit for every n |
| `Escape.Escaped` | src/main.rs:100 | the test za²+zb² > 100: a point that has not escaped lies in [-10, 10] × [-10, 10], and an escaped one has a component whose square exceeds 50 |
| `Escape.EscapeFrom` | src/main.rs:93-103 | the count recorded from pass n onward lies in [n, iterations) |
| `Escape.EscapeTime` | src/main.rs:88-103 | the recorded count is below `iterations` when there is at least one pass, and 0 when there is none |
| `Escape.EscapeFromIsLeast` | src/main.rs:93-103 | from pass n on, no step before the recorded one escapes, and the recorded step escapes unless it is the last pass |
| `Escape.EscapeTimeIsLeast` | src/main.rs:91-103 | the count is the least n whose (n+1)-th step has za²+zb² > 100, or `iterations - 1` when no earlier step escapes |
| `Escape.EscapeCount` | src/main.rs:88-103 | the loop's `amount` equals `EscapeTime`; it is below `iterations`, no step up to `amount` escaped, and step `amount + 1` escaped or `amount` is `iterations - 1` |
| `Field.PlaneRe` | src/main.rs:82-85 | column 0 maps to the left edge `-(scale/2) + x_off`, and for scale > 0 every column below `width` lies in the window, strictly left of its right edge |
| `Field.PlaneIm` | src/main.rs:82-86 | row 0 maps to the lower edge `-(scale/2) + y_off`, and for scale > 0 every row below `height` lies in the window, strictly below its upper edge |
| `Field.PaletteIndex` | src/main.rs:105 | the index is `(amount * (len - 1)) / iterations` in integer division; it is 0 for a palette of at most one entry and below `len - 1` otherwise, so the lookup never panics and the last entry is never chosen |
| `Field.QuotientBelow` | src/main.rs:105 | a·m / n < m whenever a < n and m > 0, the bound behind the index range |
| `Field.PaletteIndexLargest` | src/main.rs:91-106 | when `len - 1 <= iterations`, a point that never escapes (count `iterations - 1`) gets index `len - 2` |
| `Field.PaletteIndexMonotone` | src/main.rs:105 | a larger escape count never selects an earlier palette entry |
| `Field.PixelColor` | src/main.rs:82-106 | the colour of a pixel is a palette entry, and not the last one when the palette has two or more entries |
| `Field.ShadePixel` | src/main.rs:82-107 | the per-pixel loop body yields exactly `PixelColor(cfg, x, y)`, which is a palette entry |
| `Field.Image` | src/main.rs:79-109 | the image has `width * height` entries, all palette entries, none of them the last entry when the palette has two or more |
| `Field.RowMajorIndex` | src/main.rs:80-81 | position `y*width + x` of the grid is in range and decodes back to column x and row y |
| `Field.ImageRowMajor` | src/main.rs:79-109 | entry `y*width + x` of the image is the colour computed for pixel (x, y) |
| `Field.BuildImage` | src/main.rs:79-109 | the nested loops push exactly `Image(cfg)`, `width * height` pixels in y-major, x-minor order |
| `Writer.FlattenPixels` | src/main.rs:49-57 | the flattened byte vector is four times as long as the pixel buffer |
| `Writer.FlattenLayout` | src/main.rs:49-57 | bytes 4i..4i+3 are `to_u8(pixels[i])` in r, g, b, a order |
| `Writer.FlattenOpaque` | src/main.rs:49-57 | when every pixel has alpha 1, every fourth byte (index 4i+3) is 255 |
| `Program.ShippedPalette` | src/main.rs:71-77 | five colours, all with alpha 1 |
| `Program.Shipped` | src/main.rs:68-91 | the shipped constants form a valid configuration |
| `Program.ShippedIndexRange` | src/main.rs:91-106 | with 1000 passes and five entries every index is at most 3, and count 999 gives exactly 3 |
| `Program.ShippedNeverWhite` | src/main.rs:71-109 | no pixel of the rendered image is the white entry 0xFFFFFF |
| `Program.RedDiffers` | src/main.rs:34-40 | two hex colours whose red bytes differ decode to different pixels |
| `Program.ImageOpaque` | src/main.rs:71-107 | an image drawn from a palette of opaque colours is opaque |
| `Program.RenderBytes` | src/main.rs:67-111 | the program hands the encoder the flattened shipped image: 16,000,000 bytes, every fourth one 255 |
| `Program.TwoPixelScenario` | src/main.rs:79-109 | a 2×1 image with a black/white palette and two passes gives the bytes [0,0,0,255, 0,0,0,255] for any constant and window: white never appears |

## Left out

- PNG encoding and file output are not modelled. That covers `Path`, `File::create`, `BufWriter`, the `png` encoder, `write_header` and `write_image_data` (src/main.rs:45-47, 60-64). They are calls into a library with no logic of their own. `Program.RenderBytes` stops at the byte vector passed to the encoder.
- The `unwrap` panics on I/O failure are not modelled, for the same reason.
- `f32` rounding is not modelled: all arithmetic, including the `as f32` conversions of integers, is exact over reals. Which points escape in floating point can therefore differ from the model.
- Which particular points of the shipped window escape is not proved. The model proves only structural facts about the iteration.
- `Rescale.Map` requires `max != min`. In `f32`, equal bounds divide by zero and give an infinity or NaN, which reals cannot express. Every call site in the program passes distinct bounds.
- `Field.PaletteIndex` requires `amount < iterations`, so it needs at least one pass. With zero passes the source would compute 0/0 = NaN, which casts to index 0; that case is not modelled. The shipped value is 1000.
- `Rescale.CastU8`, `Rescale.CastUsize`: follow the saturating float-to-integer `as` of Rust 1.45 and later (truncate toward zero, clamp to the target range). NaN inputs cannot arise over reals and are not modelled. `usize` is taken to be 64 bits wide.
- The `i32` type of `width`, `height` and the loop counters, and the `u32` type of hex colours, are modelled as naturals. Hex colours are bounded by a requires below 2³².
- The third assertion of the `map` unit test (src/main.rs:136-138) expects 127.0, but the code gives 127.5. `Rescale.MapChannelScale` proves 127.5 instead.
- The test `hex_test` (src/main.rs:141-147) names an undefined variable, does not compile and asserts nothing. It is not modelled.
