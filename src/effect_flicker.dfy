/**
 * The Flicker effect: a pure red, green or blue LED is redrawn at a slightly
 * random lower brightness each frame, so the digits shimmer.
 */
module FlickerEffect {
  import opened LedColor

  /** The default width of the brightness band. */
  const DefaultFlickerSize: int := 30

  function Abs(x: int): nat
  {
    if x < 0 then -x else x
  }

  /**
   * `(255 - flickerSize) + (rand() % flickerSize)`, with the random number
   * `rnd` (never negative, as `rand()` is) supplied by the caller. C++ `%`
   * takes the sign of the dividend, so for a negative size the remainder is
   * taken modulo its magnitude.
   */
  function Subcolor(flickerSize: int, rnd: nat): (s: int)
    requires flickerSize != 0
    ensures flickerSize > 0 ==> 255 - flickerSize <= s < 255
    ensures flickerSize < 0 ==> 255 < s < 255 - 2 * flickerSize
  {
    (255 - flickerSize) + rnd % Abs(flickerSize)
  }

  /** The three colours the effect redraws. */
  predicate IsPrimary(c: Color)
  {
    c == Color(255, 0, 0) || c == Color(0, 255, 0) || c == Color(0, 0, 255)
  }

  /** `EffectFlicker::recolorPixel`: the subcolor replaces the one full channel of a pure primary. */
  function Recolor(color: Color, flickerSize: int, rnd: nat): Color
    requires flickerSize != 0
  {
    var subcolor := ToChannel(Subcolor(flickerSize, rnd));
    if color == Color(255, 0, 0) then Color(subcolor, 0, 0)
    else if color == Color(0, 255, 0) then Color(0, subcolor, 0)
    else if color == Color(0, 0, 255) then Color(0, 0, subcolor)
    else color
  }

  /**
   * For a band width of 1 to 255, any colour but a pure primary is returned
   * untouched; a pure primary keeps its hue, and its full channel drops into
   * [255 - flickerSize, 254], so it never gets brighter and never reaches 255.
   */
  lemma RecolorFacts(color: Color, flickerSize: int, rnd: nat)
    requires 0 < flickerSize <= 255
    ensures !IsPrimary(color) ==> Recolor(color, flickerSize, rnd) == color
    ensures var r := Recolor(color, flickerSize, rnd);
      r.red <= color.red && r.green <= color.green && r.blue <= color.blue
    ensures color == Color(255, 0, 0) ==>
      var r := Recolor(color, flickerSize, rnd);
      r.green == 0 && r.blue == 0 && 255 - flickerSize <= r.red < 255
    ensures color == Color(0, 255, 0) ==>
      var r := Recolor(color, flickerSize, rnd);
      r.red == 0 && r.blue == 0 && 255 - flickerSize <= r.green < 255
    ensures color == Color(0, 0, 255) ==>
      var r := Recolor(color, flickerSize, rnd);
      r.red == 0 && r.green == 0 && 255 - flickerSize <= r.blue < 255
  {
  }

  /** Every brightness in [255 - flickerSize, 254] is produced by some random number. */
  lemma SubcolorReachable(flickerSize: int, v: int)
    requires 0 < flickerSize && 255 - flickerSize <= v < 255
    ensures exists rnd: nat :: Subcolor(flickerSize, rnd) == v
  {
    var rnd: nat := v - (255 - flickerSize);
    assert Subcolor(flickerSize, rnd) == v;
  }

  /** With the default size the band is [225, 254]: 255 itself is never drawn. */
  lemma DefaultBand(color: Color, rnd: nat)
    requires IsPrimary(color)
    ensures var r := Recolor(color, DefaultFlickerSize, rnd);
      225 <= r.red + r.green + r.blue <= 254
  {
    RecolorFacts(color, DefaultFlickerSize, rnd);
  }
}
