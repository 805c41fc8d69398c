/** The linear rescale `map` that the renderer reuses for coordinate mapping,
    palette bucketing and channel conversion, and the float-to-integer casts
    (`as u8`, `as usize`) that follow it.  The source computes in `f32`; this
    model computes over exact reals. */
module Rescale {

  /** An 8-bit channel value, the element type of the encoder's byte buffer. */
  newtype byte = b: int | 0 <= b < 256

  /** Largest value of a 64-bit `usize`. */
  const UsizeMax: int := 0xFFFF_FFFF_FFFF_FFFF

  /** Maps `val` linearly from the range [min, max] onto [from, to]: the result
      divides [from, to] in the ratio in which `val` divides [min, max].  Its
      laws are the lemmas below. */
  function Map(val: real, min: real, max: real, from: real, to: real): (r: real)
    requires max != min
    ensures (r - from) * (max - min) == (val - min) * (to - from)
  {
    (val - min) * (to - from) / (max - min) + from
  }

  /** The ends of the source range land exactly on the ends of the destination range. */
  lemma MapEndpoints(min: real, max: real, from: real, to: real)
    requires max != min
    ensures Map(min, min, max, from, to) == from
    ensures Map(max, min, max, from, to) == to
  {
    assert (min - min) * (to - from) == 0.0;
    assert (max - min) * (to - from) / (max - min) == to - from;
  }

  /** The midpoint of the source range lands on the midpoint of the destination range. */
  lemma MapMidpoint(min: real, max: real, from: real, to: real)
    requires max != min
    ensures Map((min + max) / 2.0, min, max, from, to) == (from + to) / 2.0
  {
    var d := max - min;
    assert (min + max) / 2.0 - min == d / 2.0;
    assert (d / 2.0) * (to - from) / d == (to - from) / 2.0;
  }

  /** A value inside the source range lands inside the destination range. */
  lemma MapWithin(val: real, min: real, max: real, from: real, to: real)
    requires min <= val <= max && min != max && from <= to
    ensures from <= Map(val, min, max, from, to) <= to
  {
    var t := (val - min) / (max - min);
    var w := max - min;
    assert 0.0 < w && t * w == val - min;
    assert 0.0 <= t <= 1.0;
    assert (val - min) * (to - from) / (max - min) == t * (to - from);
    var d, u := to - from, 1.0 - t;
    assert 0.0 <= t * d && 0.0 <= u && 0.0 <= u * d;
    assert t * d + u * d == d;
  }

  /** A value below the upper end of the source range lands strictly below the
      upper end of the destination range. */
  lemma MapBelowMax(val: real, min: real, max: real, from: real, to: real)
    requires min <= val < max && from < to
    ensures from <= Map(val, min, max, from, to) < to
  {
    MapWithin(val, min, max, from, to);
  }

  /** Mapping back from [from, to] to [min, max] recovers the original value. */
  lemma MapRoundTrip(val: real, min: real, max: real, from: real, to: real)
    requires max != min && to != from
    ensures Map(Map(val, min, max, from, to), from, to, min, max) == val
  {
    var t := (val - min) / (max - min);
    assert Map(val, min, max, from, to) - from == t * (to - from);
    assert (t * (to - from)) * (max - min) / (to - from) == t * (max - min);
  }

  /** The first two assertions of the unit test for channel scaling, and what the
      formula yields at one half: 127.5, since `map` itself does not truncate. */
  lemma MapChannelScale()
    ensures Map(0.0, 0.0, 1.0, 0.0, 255.0) == 0.0
    ensures Map(1.0, 0.0, 1.0, 0.0, 255.0) == 255.0
    ensures Map(0.5, 0.0, 1.0, 0.0, 255.0) == 127.5
  {
    MapEndpoints(0.0, 1.0, 0.0, 255.0);
    MapMidpoint(0.0, 1.0, 0.0, 255.0);
  }

  /** Rust's saturating `x as u8`: truncate toward zero, then clamp to 0..255. */
  function CastU8(x: real): (b: byte)
    ensures 0.0 <= x < 256.0 ==> b as int == x.Floor
    ensures x < 1.0 ==> b == 0
    ensures x >= 255.0 ==> b == 255
  {
    if x <= 0.0 then 0 else if x >= 255.0 then 255 else x.Floor as byte
  }

  /** Rust's saturating `x as usize`: truncate toward zero, then clamp to the 64-bit range. */
  function CastUsize(x: real): (n: nat)
    ensures 0.0 <= x && x < UsizeMax as real ==> n == x.Floor
    ensures x < 1.0 ==> n == 0
    ensures n <= UsizeMax
  {
    if x <= 0.0 then 0 else if x >= UsizeMax as real then UsizeMax else x.Floor
  }

  /** Truncating an exact quotient of naturals is integer division. */
  lemma FloorOfQuotient(a: nat, b: nat)
    requires b > 0
    ensures ((a as real) / (b as real)).Floor == a / b
  {
    var q, r := a / b, a % b;
    assert a == q * b + r;
    assert (a as real) / (b as real) == q as real + (r as real) / (b as real);
    assert 0.0 <= (r as real) / (b as real) < 1.0;
  }
}
