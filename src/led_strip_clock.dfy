/**
 * The LED-strip BCD clock: the six digit columns are contiguous runs of LEDs
 * on one strip, given by a start index and a count per column.
 */
module LedStripClock {
  import opened LedColor
  import opened Bcd

  const HoursCol0Start: int := 0
  const HoursCol0Count: int := 2
  const HoursCol1Start: int := 2
  const HoursCol1Count: int := 4

  const MinutesCol0Start: int := 6
  const MinutesCol0Count: int := 3
  const MinutesCol1Start: int := 9
  const MinutesCol1Count: int := 4

  const SecondsCol0Start: int := 13
  const SecondsCol0Count: int := 3
  const SecondsCol1Start: int := 16
  const SecondsCol1Count: int := 4

  /** The columns in strip order, as (start, count) pairs. */
  const Columns: seq<(int, int)> := [
    (HoursCol0Start, HoursCol0Count), (HoursCol1Start, HoursCol1Count),
    (MinutesCol0Start, MinutesCol0Count), (MinutesCol1Start, MinutesCol1Count),
    (SecondsCol0Start, SecondsCol0Count), (SecondsCol1Start, SecondsCol1Count)]

  /** LED k is lit by the column starting at `start`: it is bit k - start, that bit is set, and k - start < count. */
  predicate LitBy(bits: Nibble, start: int, count: int, k: int)
    requires count <= 4
  {
    start <= k < start + count && Bit(bits, k - start)
  }

  /** The buffer after `turnOnLEDs`: lit LEDs take `onColor`, every other LED keeps its colour. */
  function TurnedOn(s: seq<Color>, bits: Nibble, start: int, count: int, onColor: Color): (r: seq<Color>)
    requires count <= 4
    ensures |r| == |s|
  {
    seq(|s|, k requires 0 <= k < |s| => if LitBy(bits, start, count, k) then onColor else s[k])
  }

  /**
   * `turnOnLEDs`: for each i < numLEDs whose bit is set, write `onColor` at
   * startLED + i. The bitset has four bits, so numLEDs is at most 4.
   */
  method TurnOnLeds(lights: array<Color>, bits: Nibble, startLED: int, numLEDs: int, onColor: Color)
    requires numLEDs <= 4
    requires forall i :: 0 <= i < numLEDs && Bit(bits, i) ==> 0 <= startLED + i < lights.Length
    modifies lights
    ensures lights[..] == TurnedOn(old(lights[..]), bits, startLED, numLEDs, onColor)
  {
    var i := 0;
    while i < numLEDs
      invariant 0 <= i && (i <= numLEDs || i == 0)
      invariant forall k :: 0 <= k < lights.Length ==>
        lights[k] == if LitBy(bits, startLED, i, k) then onColor else old(lights[k])
    {
      if Bit(bits, i) {
        lights[startLED + i] := onColor;
      }
      i := i + 1;
    }
  }

  /** Every set bit i < numLEDs lights startLED + i, and no LED outside [startLED, startLED + numLEDs) changes. */
  lemma TurnedOnStaysInRange(s: seq<Color>, bits: Nibble, start: int, count: int, onColor: Color)
    requires count <= 4
    requires forall i :: 0 <= i < count && Bit(bits, i) ==> 0 <= start + i < |s|
    ensures forall i :: 0 <= i < count && Bit(bits, i) ==> TurnedOn(s, bits, start, count, onColor)[start + i] == onColor
    ensures forall k :: 0 <= k < |s| && !(start <= k < start + count) ==> TurnedOn(s, bits, start, count, onColor)[k] == s[k]
    ensures forall k :: 0 <= k < |s| ==> TurnedOn(s, bits, start, count, onColor)[k] in {s[k], onColor}
  {
    forall i | 0 <= i < count && Bit(bits, i)
      ensures TurnedOn(s, bits, start, count, onColor)[start + i] == onColor
    {
      assert LitBy(bits, start, count, start + i);
    }
  }

  /**
   * The six columns are contiguous and do not overlap: each start is the
   * previous start plus count, the first starts at 0, together they cover
   * LEDs 0..19, and no column needs more than the bitset's four bits.
   */
  lemma ColumnsTileTheStrip()
    ensures Columns[0].0 == 0
    ensures forall j :: 0 < j < |Columns| ==> Columns[j].0 == Columns[j - 1].0 + Columns[j - 1].1
    ensures Columns[|Columns| - 1].0 + Columns[|Columns| - 1].1 == 20
    ensures forall j :: 0 <= j < |Columns| ==> 0 < Columns[j].1 <= 4
  {
  }

  /** Every LED 0..19 belongs to exactly one column. */
  lemma EachLedInOneColumn(k: int)
    requires 0 <= k < 20
    ensures exists j :: 0 <= j < |Columns| && Columns[j].0 <= k < Columns[j].0 + Columns[j].1
    ensures forall j, j' ::
      (0 <= j < |Columns| && 0 <= j' < |Columns| &&
       Columns[j].0 <= k < Columns[j].0 + Columns[j].1 &&
       Columns[j'].0 <= k < Columns[j'].0 + Columns[j'].1) ==> j == j'
  {
    ColumnsTileTheStrip();
    var j := if k < 2 then 0 else if k < 6 then 1 else if k < 9 then 2 else if k < 13 then 3 else if k < 16 then 4 else 5;
    assert Columns[j].0 <= k < Columns[j].0 + Columns[j].1;
  }

  /** A tens digit of at most 5 (any minute or second) sets no bit beyond the 3 LEDs of its column, and of at most 2 (any hour) beyond 2. */
  lemma TensDigitFitsColumn(v: int)
    requires 10 <= v <= 59
    ensures forall i :: 3 <= i < 4 ==> !Bit(Digits(v)[0], i)
    ensures v <= 23 ==> forall i :: 2 <= i < 4 ==> !Bit(Digits(v)[0], i)
  {
    TwoDigitGroups(v);
    HighBitsClear(Digits(v)[0], 3);
    if v <= 23 {
      HighBitsClear(Digits(v)[0], 2);
    }
  }
}
