/** The pixel rule of `thresh` in the CSS analyzer: a pixel becomes white when
    its squared RGB distance from the reference colour is below a fraction `t`
    of the largest possible one, 3·255². */
module Threshold {

  /** An 8-bit channel value (icl8u). */
  newtype byte = x: int | 0 <= x < 256

  /** The reference colour; component c of the source's Color is `At(c)`. */
  datatype Color = Color(red: byte, green: byte, blue: byte)
  {
    function At(c: nat): byte
      requires c < 3
    {
      if c == 0 then red else if c == 1 then green else blue
    }
  }

  /** The largest squared distance two colours can have: 3·255². */
  const MaxSqDist: int := 3 * 255 * 255

  /** Three equally long channels, as the first three channels of an image are;
      the image may hold more channels, which are not read. */
  predicate WellFormed(channels: seq<seq<byte>>)
  {
    |channels| >= 3 && |channels[1]| == |channels[0]| && |channels[2]| == |channels[0]|
  }

  function Square(v: int): nat
  {
    if v < 0 then (-v) * (-v) else v * v
  }

  /** Σ_{c<3} (channel c at pixel i − ref[c])². Each term is an exact integer
      square, so accumulating the `pow` results in an `int` loses nothing. */
  function SqDist(channels: seq<seq<byte>>, ref: Color, i: nat): nat
    requires WellFormed(channels) && i < |channels[0]|
  {
    Square(channels[0][i] as int - ref.At(0) as int)
    + Square(channels[1][i] as int - ref.At(1) as int)
    + Square(channels[2][i] as int - ref.At(2) as int)
  }

  /** `255 * (d < t)`, with `t` already multiplied by 3·255². */
  function Pixel(d: nat, t: real): byte
  {
    if (d as real) < t * (MaxSqDist as real) then 255 else 0
  }

  /** The single channel `thresh` produces, one pixel per input pixel. */
  function Thresholded(channels: seq<seq<byte>>, ref: Color, t: real): (r: seq<byte>)
    requires WellFormed(channels)
    ensures |r| == |channels[0]|
  {
    seq(|channels[0]|, i requires 0 <= i < |channels[0]| => Pixel(SqDist(channels, ref, i), t))
  }

  /** thresh: the result buffer becomes one channel of the input's size and
      pixel i is written from the three input channels at i. */
  method Thresh(channels: seq<seq<byte>>, ref: Color, t: real) returns (dst: array<byte>)
    requires WellFormed(channels)
    ensures fresh(dst)
    ensures dst[..] == Thresholded(channels, ref, t)
  {
    dst := new byte[|channels[0]|];
    var scaled := t * (MaxSqDist as real);
    var i := 0;
    while i < |channels[0]|
      invariant 0 <= i <= |channels[0]|
      invariant dst[..i] == Thresholded(channels, ref, t)[..i]
    {
      var d := 0;
      var c := 0;
      while c < 3
        invariant 0 <= c <= 3
        invariant d == PartialSqDist(channels, ref, i, c)
      {
        d := d + Square(channels[c][i] as int - ref.At(c) as int);
        c := c + 1;
      }
      FullSqDist(channels, ref, i);
      dst[i] := if (d as real) < scaled then 255 else 0;
      i := i + 1;
    }
  }

  /** The sum of the first `c` squared channel differences at pixel `i`. */
  function PartialSqDist(channels: seq<seq<byte>>, ref: Color, i: nat, c: nat): nat
    requires WellFormed(channels) && i < |channels[0]| && c <= 3
  {
    if c == 0 then 0
    else PartialSqDist(channels, ref, i, c - 1) + Square(channels[c - 1][i] as int - ref.At(c - 1) as int)
  }

  lemma FullSqDist(channels: seq<seq<byte>>, ref: Color, i: nat)
    requires WellFormed(channels) && i < |channels[0]|
    ensures PartialSqDist(channels, ref, i, 3) == SqDist(channels, ref, i)
  {
    assert PartialSqDist(channels, ref, i, 1) == Square(channels[0][i] as int - ref.At(0) as int);
  }

  /** Every pixel of the result is 0 or 255, and it is 255 exactly when the
      squared distance is below t·3·255². */
  lemma ThreshPixelRule(channels: seq<seq<byte>>, ref: Color, t: real, i: nat)
    requires WellFormed(channels) && i < |channels[0]|
    ensures Thresholded(channels, ref, t)[i] == 0 || Thresholded(channels, ref, t)[i] == 255
    ensures Thresholded(channels, ref, t)[i] == 255 <==> (SqDist(channels, ref, i) as real) < t * 195075.0
  {
  }

  /** Raising the threshold never turns a white pixel black. */
  lemma ThreshMonotone(channels: seq<seq<byte>>, ref: Color, t1: real, t2: real, i: nat)
    requires WellFormed(channels) && i < |channels[0]|
    requires t1 <= t2
    requires Thresholded(channels, ref, t1)[i] == 255
    ensures Thresholded(channels, ref, t2)[i] == 255
  {
  }

  /** A threshold of zero or below makes every pixel black. */
  lemma NonPositiveThresholdAllBlack(channels: seq<seq<byte>>, ref: Color, t: real)
    requires WellFormed(channels)
    requires t <= 0.0
    ensures forall i :: 0 <= i < |channels[0]| ==> Thresholded(channels, ref, t)[i] == 0
  {
  }

  /** A pixel of exactly the reference colour is white iff the threshold is positive. */
  lemma ReferencePixel(channels: seq<seq<byte>>, ref: Color, t: real, i: nat)
    requires WellFormed(channels) && i < |channels[0]|
    requires channels[0][i] == ref.red && channels[1][i] == ref.green && channels[2][i] == ref.blue
    ensures Thresholded(channels, ref, t)[i] == 255 <==> t > 0.0
  {
  }

  /** The difference of two channel values squares to at most 255². */
  lemma SquareOfByteDifference(a: byte, b: byte)
    ensures Square(a as int - b as int) <= 255 * 255
  {
    var v: int := if a >= b then a as int - b as int else b as int - a as int;
    assert Square(a as int - b as int) == v * v;
    ProductBound(v, v);
  }

  lemma ProductBound(u: int, v: int)
    requires 0 <= u <= 255 && 0 <= v <= 255
    ensures u * v <= 255 * 255
  {
  }

  /** No pixel is farther than 3·255² from any reference colour. */
  lemma SqDistBounded(channels: seq<seq<byte>>, ref: Color, i: nat)
    requires WellFormed(channels) && i < |channels[0]|
    ensures SqDist(channels, ref, i) <= MaxSqDist
  {
    SquareOfByteDifference(channels[0][i], ref.red);
    SquareOfByteDifference(channels[1][i], ref.green);
    SquareOfByteDifference(channels[2][i], ref.blue);
  }

  /** A threshold above 1 makes every pixel white. */
  lemma ThresholdAboveOneAllWhite(channels: seq<seq<byte>>, ref: Color, t: real)
    requires WellFormed(channels)
    requires t > 1.0
    ensures forall i :: 0 <= i < |channels[0]| ==> Thresholded(channels, ref, t)[i] == 255
  {
    forall i | 0 <= i < |channels[0]|
      ensures Thresholded(channels, ref, t)[i] == 255
    {
      SqDistBounded(channels, ref, i);
      assert (MaxSqDist as real) < t * (MaxSqDist as real);
    }
  }
}
