/** The program's fixed configuration and its run from palette to encoder bytes. */
module Program {
  import opened Rescale
  import opened Pixels
  import opened Field
  import opened Writer

  /** The five palette colours, decoded from their hex values. */
  function ShippedPalette(): (palette: seq<Pixel>)
    ensures |palette| == 5
    ensures forall i :: 0 <= i < 5 ==> palette[i].a == 1.0
  {
    [FromHex(0x000000), FromHex(0x9B1D1D), FromHex(0x3D2A2A), FromHex(0x635C5C), FromHex(0xFFFFFF)]
  }

  /** A 2000 by 2000 image, 1000 passes, c = -0.7269 + 0.1889i, a window of
      width 0.5 centred on 0.15 + 0.25i. */
  function Shipped(): (cfg: Config)
    ensures cfg.Valid()
  {
    Config(2000, 2000, ShippedPalette(), 1000, -0.7269, 0.1889, 0.5, 0.15, 0.25)
  }

  /** With 1000 passes and five entries the index never exceeds 3, and 3 is
      reached by a point that never escapes. */
  lemma ShippedIndexRange()
    ensures forall amount: nat :: amount < 1000 ==> PaletteIndex(amount, 1000, 5) <= 3
    ensures PaletteIndex(999, 1000, 5) == 3
  {
    PaletteIndexLargest(1000, 5);
  }

  /** The last palette entry, white, never appears in the rendered image. */
  lemma ShippedNeverWhite()
    ensures forall i :: 0 <= i < |Image(Shipped())| ==> Image(Shipped())[i] != FromHex(0xFFFFFF)
  {
    var img := Image(Shipped());
    var white := FromHex(0xFFFFFF);
    var darker := ShippedPalette()[..4];
    assert darker == [FromHex(0x000000), FromHex(0x9B1D1D), FromHex(0x3D2A2A), FromHex(0x635C5C)];
    RedDiffers(0x000000, 0xFFFFFF);
    RedDiffers(0x9B1D1D, 0xFFFFFF);
    RedDiffers(0x3D2A2A, 0xFFFFFF);
    RedDiffers(0x635C5C, 0xFFFFFF);
    assert white !in darker;
    forall i | 0 <= i < |img|
      ensures img[i] != white
    {
      assert img[i] in darker;
    }
  }

  /** Two colours whose red bytes differ decode to different pixels. */
  lemma RedDiffers(c1: nat, c2: nat)
    requires c1 < 0x1_0000_0000 && c2 < 0x1_0000_0000 && c1 / 0x1_0000 != c2 / 0x1_0000
    ensures FromHex(c1) != FromHex(c2)
  {
    assert FromHex(c1).r * 255.0 != FromHex(c2).r * 255.0;
  }

  /** The program without its file output: build the palette and the image,
      then flatten it into the bytes handed to the encoder. */
  method RenderBytes() returns (bytes: seq<byte>)
    ensures bytes == FlattenPixels(Image(Shipped()))
    ensures |bytes| == 4 * 2000 * 2000
    ensures forall i :: 0 <= i < 2000 * 2000 ==> bytes[4 * i + 3] == 255
  {
    var cfg := Shipped();
    var pixels := BuildImage(cfg);
    ImageOpaque(cfg);
    FlattenOpaque(pixels);
    bytes := FlattenPixels(pixels);
  }

  /** An image drawn from an opaque palette is opaque. */
  lemma ImageOpaque(cfg: Config)
    requires cfg.Valid()
    requires forall i :: 0 <= i < |cfg.palette| ==> cfg.palette[i].a == 1.0
    ensures forall i :: 0 <= i < |Image(cfg)| ==> Image(cfg)[i].a == 1.0
  {
    var img := Image(cfg);
    forall i | 0 <= i < |img|
      ensures img[i].a == 1.0
    {
      var j :| 0 <= j < |cfg.palette| && cfg.palette[j] == img[i];
    }
  }

  /** A two-pixel image with a black and white palette and two passes: both
      pixels are black, whatever the constant and window, so the encoder
      receives eight bytes and no white. */
  lemma TwoPixelScenario(ca: real, cb: real, scale: real, xOff: real, yOff: real)
    ensures var cfg := Config(2, 1, [FromHex(0x000000), FromHex(0xFFFFFF)], 2, ca, cb, scale, xOff, yOff);
      FlattenPixels(Image(cfg)) == [0, 0, 0, 255, 0, 0, 0, 255]
  {
    var cfg := Config(2, 1, [FromHex(0x000000), FromHex(0xFFFFFF)], 2, ca, cb, scale, xOff, yOff);
    var black := FromHex(0x000000);
    var img := Image(cfg);
    assert cfg.palette[..1] == [black];
    assert img == [black, black];
    assert black == Pixel(0.0, 0.0, 0.0, 1.0);
    assert Channels(black) == [0.0, 0.0, 0.0, 1.0];
    assert ToU8(black) == [0, 0, 0, 255];
    assert FlattenPixels(img) == ToU8(black) + FlattenPixels([black]);
    assert FlattenPixels([black]) == ToU8(black) + FlattenPixels([]);
  }
}
