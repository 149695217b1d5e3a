/**
 * The effect hooks the clock calls around drawing a frame: `pre` before the
 * digits are drawn, `recolorPixel` for every LED drawn, `post` after, which
 * returns extra pixels to draw. The base effect does nothing in each hook;
 * Flicker overrides `recolorPixel`, Bleed overrides `post`.
 */
module Effects {
  import opened LedColor
  import opened MatrixPixels
  import BleedEffect
  import FlickerEffect

  datatype EffectKind =
    | Base
    | Flicker(flickerSize: int)
    | Bleed(factors: BleedEffect.BleedFactors)

  /** An effect and its `enabled` flag, which starts out false. */
  datatype Effect = Effect(enabled: bool, kind: EffectKind)

  const NewFlicker: Effect := Effect(false, Flicker(FlickerEffect.DefaultFlickerSize))
  const NewBleed: Effect := Effect(false, Bleed(BleedEffect.DefaultFactors))

  /** A Flicker effect must not have a zero band width (`rand() % 0` is undefined). */
  predicate WellFormed(e: Effect)
  {
    e.kind.Flicker? ==> e.kind.flickerSize != 0
  }

  /** `pre`: no effect changes the strip before drawing. */
  method Pre(e: Effect, lights: array<Color>)
    modifies lights
    ensures lights[..] == old(lights[..])
  {
  }

  /**
   * `recolorPixel`: the colour an LED is drawn with. `rnd` is the value of
   * `rand()` for this call.
   */
  function RecolorPixel(e: Effect, ledStripPosition: int, color: Color, rnd: nat): (r: Color)
    requires WellFormed(e)
    ensures !e.kind.Flicker? ==> r == color
    ensures e.kind.Flicker? && !FlickerEffect.IsPrimary(color) ==> r == color
  {
    match e.kind
    case Flicker(size) => FlickerEffect.Recolor(color, size, rnd)
    case _ => color
  }

  /** Only a Flicker effect of a sane width changes colours, and never brightens them. */
  lemma RecolorNeverBrightens(e: Effect, ledStripPosition: int, color: Color, rnd: nat)
    requires WellFormed(e)
    requires e.kind.Flicker? ==> e.kind.flickerSize <= 255
    requires e.kind.Flicker? ==> e.kind.flickerSize > 0
    ensures var r := RecolorPixel(e, ledStripPosition, color, rnd);
      r.red <= color.red && r.green <= color.green && r.blue <= color.blue
  {
    if e.kind.Flicker? {
      FlickerEffect.RecolorFacts(color, e.kind.flickerSize, rnd);
    }
  }

  /** `post`: the extra pixels to draw; none, except for Bleed. */
  method Post(e: Effect, strip: array<Color>, pixelsSet: array<bool>, rows: nat, columns: nat)
    returns (extra: seq<Pixel>)
    requires BleedEffect.FrameFits(strip[..], pixelsSet[..], rows, columns)
    ensures !e.kind.Bleed? ==> extra == []
    ensures e.kind.Bleed? ==> extra == BleedEffect.BleedPixels(strip[..], pixelsSet[..], e.kind.factors, rows, columns)
  {
    match e.kind {
      case Bleed(factors) =>
        extra := BleedEffect.Post(strip, pixelsSet, factors, rows, columns);
      case _ =>
        extra := [];
    }
  }

  /** The colours of the on-matrix pixels among pps, read from the strip, in order. */
  function OnMatrixColors(lights: seq<Color>, pps: seq<Pixel>): (cs: seq<Color>)
    requires forall i :: 0 <= i < |pps| && pps[i].onMatrix ==> 0 <= pps[i].position < |lights|
    ensures |cs| <= |pps|
  {
    if pps == [] then []
    else
      var last := pps[|pps| - 1];
      OnMatrixColors(lights, pps[..|pps| - 1]) + (if last.onMatrix then [lights[last.position]] else [])
  }

  datatype Hue = Red | Green | Blue

  function ChannelOf(c: Color, h: Hue): Channel
  {
    match h
    case Red => c.red
    case Green => c.green
    case Blue => c.blue
  }

  /** The sum of one channel over a list of colours. */
  function ChannelSum(cs: seq<Color>, h: Hue): (s: nat)
    ensures s <= 255 * |cs|
  {
    if cs == [] then 0 else ChannelSum(cs[..|cs| - 1], h) + ChannelOf(cs[|cs| - 1], h)
  }

  /** The integer mean of one channel over one or more colours (the sum and count are ints, so `/` truncates). */
  function MeanChannel(cs: seq<Color>, h: Hue): (m: Channel)
    requires |cs| > 0
    ensures m == ChannelSum(cs, h) / |cs|
  {
    DivBounds(ChannelSum(cs, h), |cs|, 0, 255);
    ChannelSum(cs, h) / |cs|
  }

  /** The per-channel mean, black for no colours. */
  function Average(cs: seq<Color>): Color
  {
    if |cs| == 0 then Black
    else Color(MeanChannel(cs, Red), MeanChannel(cs, Green), MeanChannel(cs, Blue))
  }

  /** The loop of `averageColors`: the count and the channel sums of the pixels on the matrix. */
  method SumOnMatrix(lights: array<Color>, pixelPositions: seq<Pixel>)
    returns (count: nat, redSum: nat, greenSum: nat, blueSum: nat)
    requires forall i :: 0 <= i < |pixelPositions| && pixelPositions[i].onMatrix ==>
      0 <= pixelPositions[i].position < lights.Length
    ensures var colors := OnMatrixColors(lights[..], pixelPositions);
      count == |colors| && redSum == ChannelSum(colors, Red) &&
      greenSum == ChannelSum(colors, Green) && blueSum == ChannelSum(colors, Blue)
  {
    ghost var strip := lights[..];
    ghost var colors: seq<Color> := [];
    count, redSum, greenSum, blueSum := 0, 0, 0, 0;
    for i := 0 to |pixelPositions|
      invariant colors == OnMatrixColors(strip, pixelPositions[..i])
      invariant count == |colors|
      invariant redSum == ChannelSum(colors, Red)
      invariant greenSum == ChannelSum(colors, Green)
      invariant blueSum == ChannelSum(colors, Blue)
    {
      var pp := pixelPositions[i];
      assert pixelPositions[..i + 1][..i] == pixelPositions[..i];
      if pp.onMatrix {
        var color := lights[pp.position];
        ChannelSumAppend(colors, color, Red);
        ChannelSumAppend(colors, color, Green);
        ChannelSumAppend(colors, color, Blue);
        colors := colors + [color];
        count := count + 1;
        redSum := redSum + color.red;
        greenSum := greenSum + color.green;
        blueSum := blueSum + color.blue;
      }
    }
    assert pixelPositions[..|pixelPositions|] == pixelPositions;
  }

  /**
   * `averageColors`: sum the channels of the pixels that are on the matrix,
   * count them, and divide; black when none is on the matrix.
   */
  method AverageColors(lights: array<Color>, pixelPositions: seq<Pixel>) returns (averageColor: Color)
    requires forall i :: 0 <= i < |pixelPositions| && pixelPositions[i].onMatrix ==>
      0 <= pixelPositions[i].position < lights.Length
    ensures averageColor == Average(OnMatrixColors(lights[..], pixelPositions))
  {
    var count, redSum, greenSum, blueSum := SumOnMatrix(lights, pixelPositions);
    if count == 0 {
      averageColor := Color(0, 0, 0);
    } else {
      DivBounds(redSum, count, 0, 255);
      DivBounds(greenSum, count, 0, 255);
      DivBounds(blueSum, count, 0, 255);
      averageColor := Color(redSum / count, greenSum / count, blueSum / count);
    }
  }

  /** Appending a colour adds its channels to the sums. */
  lemma ChannelSumAppend(cs: seq<Color>, c: Color, h: Hue)
    ensures ChannelSum(cs + [c], h) == ChannelSum(cs, h) + ChannelOf(c, h)
  {
    assert (cs + [c])[..|cs|] == cs;
  }

  /** Bounds on every colour bound the sum. */
  lemma {:induction false} ChannelSumBounds(cs: seq<Color>, h: Hue, lo: int, hi: int)
    requires forall i :: 0 <= i < |cs| ==> lo <= ChannelOf(cs[i], h) <= hi
    ensures lo * |cs| <= ChannelSum(cs, h) <= hi * |cs|
  {
    if cs != [] {
      var n := |cs|;
      ChannelSumBounds(cs[..n - 1], h, lo, hi);
      assert ChannelSum(cs, h) == ChannelSum(cs[..n - 1], h) + ChannelOf(cs[n - 1], h);
      MulSucc(lo, n - 1);
      MulSucc(hi, n - 1);
    }
  }

  /**
   * The average lies between the least and the greatest of the averaged
   * colours, channel by channel; in particular the average of equal colours
   * is that colour.
   */
  lemma AverageWithin(cs: seq<Color>, h: Hue, lo: int, hi: int)
    requires |cs| > 0
    requires forall i :: 0 <= i < |cs| ==> lo <= ChannelOf(cs[i], h) <= hi
    ensures lo <= ChannelOf(Average(cs), h) <= hi
  {
    ChannelSumBounds(cs, h, lo, hi);
    DivBounds(ChannelSum(cs, h), |cs|, lo, hi);
  }

  /** Only on-matrix pixels count: with none of them the average is black. */
  lemma NoPixelsOnMatrixIsBlack(lights: seq<Color>, pps: seq<Pixel>)
    requires forall i :: 0 <= i < |pps| ==> !pps[i].onMatrix
    ensures OnMatrixColors(lights, pps) == []
    ensures Average(OnMatrixColors(lights, pps)) == Black
  {
    if pps != [] {
      NoPixelsOnMatrixIsBlack(lights, pps[..|pps| - 1]);
      assert OnMatrixColors(lights, pps) == OnMatrixColors(lights, pps[..|pps| - 1]) + [];
    }
  }
}
