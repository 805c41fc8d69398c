/** RGBA colours: construction from components or from a packed hex value,
    and conversion to the four 8-bit channel values the encoder receives. */
module Pixels {
  import opened Rescale

  /** A colour with normalised channels; the source stores them as `f32`. */
  datatype Pixel = Pixel(r: real, g: real, b: real, a: real)

  /** The channels in the order the encoder wants them: red, green, blue, alpha. */
  function Channels(p: Pixel): (cs: seq<real>)
    ensures |cs| == 4
  {
    [p.r, p.g, p.b, p.a]
  }

  /** A colour from explicit components; alpha is always fully opaque. */
  function New(r: real, g: real, b: real): (p: Pixel)
    ensures p.a == 1.0
    ensures Channels(p)[..3] == [r, g, b]
  {
    Pixel(r, g, b, 1.0)
  }

  /** One channel scaled from [0, 1] to [0, 255] and cast with `as u8`: inside
      [0, 1] the truncation of 255 times the channel, saturating outside. */
  function ChannelByte(c: real): (b: byte)
    ensures 0.0 <= c <= 1.0 ==> b as int == (c * 255.0).Floor
    ensures c >= 1.0 ==> b == 255
    ensures c <= 0.0 ==> b == 0
  {
    var x := Map(c, 0.0, 1.0, 0.0, 255.0);
    assert x == c * 255.0;
    CastU8(x)
  }

  /** The four channel bytes of a colour.  A channel inside [0, 1] becomes the
      truncation of 255 times its value; a channel outside saturates. */
  function ToU8(p: Pixel): (bytes: seq<byte>)
    ensures |bytes| == 4
    ensures forall k :: 0 <= k < 4 && 0.0 <= Channels(p)[k] <= 1.0 ==>
      bytes[k] as int == (Channels(p)[k] * 255.0).Floor
    ensures forall k :: 0 <= k < 4 && Channels(p)[k] >= 1.0 ==> bytes[k] == 255
    ensures forall k :: 0 <= k < 4 && Channels(p)[k] <= 0.0 ==> bytes[k] == 0
  {
    var bytes := [ChannelByte(p.r), ChannelByte(p.g), ChannelByte(p.b), ChannelByte(p.a)];
    assert forall k :: 0 <= k < 4 ==> bytes[k] == ChannelByte(Channels(p)[k]);
    bytes
  }

  /** A colour from a packed `u32` such as 0xRRGGBB.  Each channel is the value
      shifted right by 16, 8 or 0 bits, with no mask, divided by 255; alpha is 1. */
  function FromHex(col: nat): (p: Pixel)
    requires col < 0x1_0000_0000
    ensures p.a == 1.0
    ensures p.r * 255.0 == (col / 0x1_0000) as real
    ensures p.g * 255.0 == (col / 0x100) as real
    ensures p.b * 255.0 == col as real
  {
    var r := Map((col / 0x1_0000) as real, 0.0, 255.0, 0.0, 1.0);   // col >> 16
    var g := Map((col / 0x100) as real, 0.0, 255.0, 0.0, 1.0);      // col >> 8
    var b := Map(col as real, 0.0, 255.0, 0.0, 1.0);                // col >> 0
    New(r, g, b)
  }

  /** A shifted channel value cast to a byte: values above 255 saturate. */
  function Saturate(n: nat): (b: byte)
    ensures n <= 255 ==> b as int == n
    ensures n >= 255 ==> b == 255
  {
    if n <= 255 then n as byte else 255
  }

  /** Decoding a hex colour and converting it back to bytes gives the three
      shifted values, each saturated at 255, and an opaque alpha byte.  Only the
      red byte of a 24-bit colour survives the round trip unconditionally. */
  lemma FromHexBytes(col: nat)
    requires col < 0x1_0000_0000
    ensures ToU8(FromHex(col)) ==
      [Saturate(col / 0x1_0000), Saturate(col / 0x100), Saturate(col), 255]
  {
    var p := FromHex(col);
    ChannelRoundTrip(col / 0x1_0000, p.r);
    ChannelRoundTrip(col / 0x100, p.g);
    ChannelRoundTrip(col, p.b);
  }

  /** A channel stored as n/255 converts back to n, saturated at 255. */
  lemma ChannelRoundTrip(n: nat, c: real)
    requires c * 255.0 == n as real
    ensures ChannelByte(c) == Saturate(n)
  {
    assert Map(c, 0.0, 1.0, 0.0, 255.0) == n as real;
  }

  /** The unmasked shifts: for a 24-bit colour red stays within [0, 1], but
      green exceeds 1 exactly when the red byte is non-zero, and blue exceeds 1
      exactly when the red or green byte is non-zero. */
  lemma FromHexUnmaskedChannels(col: nat)
    requires col < 0x100_0000
    ensures 0.0 <= FromHex(col).r <= 1.0
    ensures FromHex(col).g > 1.0 <==> col >= 0x1_0000
    ensures FromHex(col).b > 1.0 <==> col >= 0x100
  {
    var p := FromHex(col);
    assert col / 0x1_0000 <= 255;
    assert col / 0x100 > 255 <==> col >= 0x1_0000;
    assert p.g > 1.0 <==> p.g * 255.0 > 255.0;
    assert p.b > 1.0 <==> p.b * 255.0 > 255.0;
  }

  /** The second palette colour, 0x9B1D1D, reaches the encoder as
      (0x9B, 0xFF, 0xFF, 0xFF), not (0x9B, 0x1D, 0x1D, 0xFF). */
  lemma DarkRedSaturates()
    ensures FromHex(0x9B1D1D).g > 1.0
    ensures ToU8(FromHex(0x9B1D1D)) == [0x9B, 255, 255, 255]
    ensures ToU8(FromHex(0x9B1D1D)) != [0x9B, 0x1D, 0x1D, 255]
  {
    FromHexUnmaskedChannels(0x9B1D1D);
    FromHexBytes(0x9B1D1D);
  }
}
