/** The byte-flattening step of the image writer: every pixel becomes its four
    channel bytes, concatenated in buffer order.  The encoder and the file it
    writes are outside this model. */
module Writer {
  import opened Rescale
  import opened Pixels

  /** The bytes handed to the encoder, four per pixel in r, g, b, a order. */
  function FlattenPixels(pixels: seq<Pixel>): (bytes: seq<byte>)
    ensures |bytes| == 4 * |pixels|
  {
    if |pixels| == 0 then [] else ToU8(pixels[0]) + FlattenPixels(pixels[1..])
  }

  /** Bytes 4i .. 4i+3 are the channel bytes of pixel i. */
  lemma {:induction false} FlattenLayout(pixels: seq<Pixel>)
    ensures forall i, k :: 0 <= i < |pixels| && 0 <= k < 4 ==>
      FlattenPixels(pixels)[4 * i + k] == ToU8(pixels[i])[k]
  {
    if |pixels| > 0 {
      var rest := pixels[1..];
      FlattenLayout(rest);
      forall i, k | 0 <= i < |pixels| && 0 <= k < 4
        ensures FlattenPixels(pixels)[4 * i + k] == ToU8(pixels[i])[k]
      {
        if i > 0 {
          assert 4 * i + k == 4 + (4 * (i - 1) + k);
          assert pixels[i] == rest[i - 1];
        }
      }
    }
  }

  /** When every pixel is opaque, every fourth byte, starting at index 3, is 255. */
  lemma FlattenOpaque(pixels: seq<Pixel>)
    requires forall i :: 0 <= i < |pixels| ==> pixels[i].a == 1.0
    ensures forall i :: 0 <= i < |pixels| ==> FlattenPixels(pixels)[4 * i + 3] == 255
  {
    FlattenLayout(pixels);
    forall i | 0 <= i < |pixels|
      ensures FlattenPixels(pixels)[4 * i + 3] == 255
    {
      var p := pixels[i];
      assert Channels(p)[3] == 1.0;
      assert ToU8(p)[3] == 255;
      assert FlattenPixels(pixels)[4 * i + 3] == ToU8(p)[3];
    }
  }
}
