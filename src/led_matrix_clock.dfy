/**
 * The LED-matrix BCD clock: each of hours, minutes and seconds is drawn as two
 * columns of LEDs (tens and ones), one LED per BCD bit, through a fixed wiring
 * table of strip indices.
 */
module LedMatrixClock {
  import opened LedColor
  import opened Bcd
  import MatrixPixels

  /** The wiring table: strip index of each bit, least significant bit first. */
  const HoursCol0: seq<int> := [0, 11]
  const HoursCol1: seq<int> := [1, 10, 13, 22]
  const MinsCol0: seq<int> := [2, 9, 14]
  const MinsCol1: seq<int> := [3, 8, 15, 20]
  const SecsCol0: seq<int> := [4, 7, 16]
  const SecsCol1: seq<int> := [5, 6, 17, 18]

  /** The matrix the table is wired into: 4 rows of 6 LEDs, wired as a serpentine. */
  const MatrixLeds: int := 24
  const MatrixColumns: int := 6

  datatype Group = Hours | Minutes | Seconds

  /** The tens column of a group. */
  function Col0(g: Group): seq<int>
  {
    match g
    case Hours => HoursCol0
    case Minutes => MinsCol0
    case Seconds => SecsCol0
  }

  /** The ones column of a group. */
  function Col1(g: Group): seq<int>
  {
    match g
    case Hours => HoursCol1
    case Minutes => MinsCol1
    case Seconds => SecsCol1
  }

  /** The largest value a group shows: 23 hours, 59 minutes, 59 seconds. */
  function MaxValue(g: Group): int
  {
    if g == Hours then 23 else 59
  }

  /** LED k is driven by a set bit: some i < |col| has bit i set and col[i] == k. */
  predicate Drives(bits: Nibble, col: seq<int>, k: int)
    requires |col| <= 4
  {
    exists i :: 0 <= i < |col| && Bit(bits, i) && col[i] == k
  }

  /** Every LED a set bit drives is inside a buffer of n LEDs. */
  predicate FitsBuffer(bits: Nibble, col: seq<int>, n: int)
  {
    |col| <= 4 && forall i :: 0 <= i < |col| && Bit(bits, i) ==> 0 <= col[i] < n
  }

  /** The buffer after one column is drawn: driven LEDs take `color`, all others keep theirs. */
  function Painted(s: seq<Color>, bits: Nibble, col: seq<int>, color: Color): (r: seq<Color>)
    requires |col| <= 4
    ensures |r| == |s|
  {
    seq(|s|, k requires 0 <= k < |s| => if Drives(bits, col, k) then color else s[k])
  }

  /**
   * `setBCDLEDs`: for each i < col.size() whose bit is set, write `color` at
   * col[i]. The bitset has four bits, so col holds at most four entries.
   */
  method SetBcdLeds(lights: array<Color>, bits: Nibble, col: seq<int>, color: Color)
    requires FitsBuffer(bits, col, lights.Length)
    modifies lights
    ensures lights[..] == Painted(old(lights[..]), bits, col, color)
  {
    for i := 0 to |col|
      invariant forall k :: 0 <= k < lights.Length ==>
        lights[k] == if Drives(bits, col[..i], k) then color else old(lights[k])
    {
      if Bit(bits, i) {
        lights[col[i]] := color;
      }
      forall k | 0 <= k < lights.Length
        ensures Drives(bits, col[..i + 1], k) <==> Drives(bits, col[..i], k) || (Bit(bits, i) && col[i] == k)
      {
        if Drives(bits, col[..i + 1], k) {
          var j :| 0 <= j < i + 1 && Bit(bits, j) && col[..i + 1][j] == k;
          if j < i {
            assert col[..i][j] == k;
          }
        }
        if Drives(bits, col[..i], k) {
          var j :| 0 <= j < i && Bit(bits, j) && col[..i][j] == k;
          assert col[..i + 1][j] == k;
        }
        if Bit(bits, i) && col[i] == k {
          assert col[..i + 1][i] == k;
        }
      }
    }
    assert col[..|col|] == col;
  }

  /** The buffer after one group is drawn from its BCD groups. */
  function GroupPainted(s: seq<Color>, bcd: seq<Nibble>, col0: seq<int>, col1: seq<int>, color: Color): seq<Color>
    requires |col0| <= 4 && |col1| <= 4
  {
    if |bcd| == 1 then Painted(s, bcd[0], col1, color)
    else if |bcd| == 2 then Painted(Painted(s, bcd[0], col0, color), bcd[1], col1, color)
    else s
  }

  /** The groups `setLEDGroup` draws fit the buffer. */
  predicate GroupFits(bcd: seq<Nibble>, col0: seq<int>, col1: seq<int>, n: int)
  {
    |col0| <= 4 && |col1| <= 4 &&
    (|bcd| == 1 ==> FitsBuffer(bcd[0], col1, n)) &&
    (|bcd| == 2 ==> FitsBuffer(bcd[0], col0, n) && FitsBuffer(bcd[1], col1, n))
  }

  /**
   * `setLEDGroup`: one group goes to the ones column, two groups go to the
   * tens and ones columns, any other count draws nothing.
   */
  method SetLedGroup(lights: array<Color>, bcd: seq<Nibble>, col0: seq<int>, col1: seq<int>, color: Color)
    requires GroupFits(bcd, col0, col1, lights.Length)
    modifies lights
    ensures lights[..] == GroupPainted(old(lights[..]), bcd, col0, col1, color)
  {
    if |bcd| == 1 {
      SetBcdLeds(lights, bcd[0], col1, color);
    } else if |bcd| == 2 {
      SetBcdLeds(lights, bcd[0], col0, color);
      SetBcdLeds(lights, bcd[1], col1, color);
    }
  }

  /** Each set bit i < |col| lights col[i]; drawing never turns an LED off or to another colour. */
  lemma PaintedWritesSetBits(s: seq<Color>, bits: Nibble, col: seq<int>, color: Color)
    requires FitsBuffer(bits, col, |s|)
    ensures forall i :: 0 <= i < |col| && Bit(bits, i) ==> Painted(s, bits, col, color)[col[i]] == color
    ensures forall k :: 0 <= k < |s| ==> Painted(s, bits, col, color)[k] in {s[k], color}
    ensures forall k :: 0 <= k < |s| && k !in col ==> Painted(s, bits, col, color)[k] == s[k]
  {
    forall i | 0 <= i < |col| && Bit(bits, i)
      ensures Painted(s, bits, col, color)[col[i]] == color
    {
      assert Drives(bits, col, col[i]);
    }
  }

  /** Bits at index |col| or above are never read: two nibbles agreeing below |col| draw the same. */
  lemma HighBitsIgnored(s: seq<Color>, a: Nibble, b: Nibble, col: seq<int>, color: Color)
    requires |col| <= 4
    requires forall i :: 0 <= i < |col| ==> (Bit(a, i) <==> Bit(b, i))
    ensures Painted(s, a, col, color) == Painted(s, b, col, color)
  {
    forall k | 0 <= k < |s|
      ensures Drives(a, col, k) <==> Drives(b, col, k)
    {
      if Drives(a, col, k) {
        var i :| 0 <= i < |col| && Bit(a, i) && col[i] == k;
        assert Bit(b, i);
      }
      if Drives(b, col, k) {
        var i :| 0 <= i < |col| && Bit(b, i) && col[i] == k;
        assert Bit(a, i);
      }
    }
  }

  /** A group draws only into its own two columns: any LED outside them keeps its colour. */
  lemma GroupTouchesOnlyItsColumns(s: seq<Color>, bcd: seq<Nibble>, col0: seq<int>, col1: seq<int>, color: Color, k: int)
    requires |col0| <= 4 && |col1| <= 4
    requires 0 <= k < |s|
    requires k !in col1
    requires |bcd| == 2 ==> k !in col0
    ensures GroupPainted(s, bcd, col0, col1, color)[k] == s[k]
  {
  }

  /** With one group only the ones column is touched; with none, nothing is. */
  lemma ShortGroupsTouchOnlyOnes(s: seq<Color>, bcd: seq<Nibble>, col0: seq<int>, col1: seq<int>, color: Color)
    requires |col0| <= 4 && |col1| <= 4
    requires |bcd| <= 1
    ensures forall k :: 0 <= k < |s| && k !in col1 ==> GroupPainted(s, bcd, col0, col1, color)[k] == s[k]
    ensures |bcd| == 0 ==> GroupPainted(s, bcd, col0, col1, color) == s
  {
  }

  /** Hours, minutes and seconds from left to right. */
  function GroupIndex(g: Group): int
  {
    match g
    case Hours => 0
    case Minutes => 1
    case Seconds => 2
  }

  /** The matrix column of a strip index, through the serpentine wiring. */
  function MatrixColumn(k: int): int
  {
    MatrixPixels.ColumnForPosition(MatrixPixels.RowForPosition(k, MatrixColumns), k, MatrixColumns)
  }

  /**
   * What the wiring table means: bit i of a group's tens digit is the LED in
   * row i of the group's left matrix column, bit i of its ones digit the LED
   * in row i of its right column.
   */
  lemma WiringFollowsSerpentine(g: Group, i: int)
    ensures 0 <= i < |Col0(g)| ==>
      Col0(g)[i] == MatrixPixels.PositionForRowAndColumn(i, 2 * GroupIndex(g), MatrixColumns)
    ensures 0 <= i < |Col1(g)| ==>
      Col1(g)[i] == MatrixPixels.PositionForRowAndColumn(i, 2 * GroupIndex(g) + 1, MatrixColumns)
  {
  }

  /** Every tens LED of a group lies on the matrix, in the group's left matrix column. */
  lemma TensColumn(g: Group, k: int)
    requires k in Col0(g)
    ensures 0 <= k < MatrixLeds
    ensures MatrixColumn(k) == 2 * GroupIndex(g)
  {
    var i :| 0 <= i < |Col0(g)| && Col0(g)[i] == k;
    WiringFollowsSerpentine(g, i);
    MatrixPixels.RowColumnRoundTrip(i, 2 * GroupIndex(g), MatrixColumns);
    MatrixPixels.PositionInBounds(i, 2 * GroupIndex(g), 4, MatrixColumns);
  }

  /** Every ones LED of a group lies on the matrix, in the group's right matrix column. */
  lemma OnesColumn(g: Group, k: int)
    requires k in Col1(g)
    ensures 0 <= k < MatrixLeds
    ensures MatrixColumn(k) == 2 * GroupIndex(g) + 1
  {
    var i :| 0 <= i < |Col1(g)| && Col1(g)[i] == k;
    WiringFollowsSerpentine(g, i);
    MatrixPixels.RowColumnRoundTrip(i, 2 * GroupIndex(g) + 1, MatrixColumns);
    MatrixPixels.PositionInBounds(i, 2 * GroupIndex(g) + 1, 4, MatrixColumns);
  }

  /** Every LED of a group lies on the matrix, in one of the group's two matrix columns. */
  lemma WiredInGroupColumns(g: Group, k: int)
    requires k in Col0(g) + Col1(g)
    ensures 0 <= k < MatrixLeds
    ensures MatrixColumn(k) == 2 * GroupIndex(g) || MatrixColumn(k) == 2 * GroupIndex(g) + 1
  {
    if k in Col0(g) {
      TensColumn(g, k);
    } else {
      OnesColumn(g, k);
    }
  }

  /** A group's tens and ones columns share no LED. */
  lemma TensAndOnesDisjoint(g: Group, k: int)
    requires k in Col0(g)
    ensures k !in Col1(g)
  {
    TensColumn(g, k);
    if k in Col1(g) {
      OnesColumn(g, k);
    }
  }

  /** Two different groups share no LED. */
  lemma GroupsDisjoint(g: Group, h: Group, k: int)
    requires g != h && k in Col0(g) + Col1(g)
    ensures k !in Col0(h) + Col1(h)
  {
    WiredInGroupColumns(g, k);
    if k in Col0(h) + Col1(h) {
      WiredInGroupColumns(h, k);
    }
  }

  /** Drawing one group never changes an LED wired to a different group. */
  lemma OtherGroupsUntouched(s: seq<Color>, bcd: seq<Nibble>, g: Group, other: Group, color: Color, k: int)
    requires g != other
    requires 0 <= k < |s|
    requires k in Col0(other) + Col1(other)
    ensures GroupPainted(s, bcd, Col0(g), Col1(g), color)[k] == s[k]
  {
    GroupsDisjoint(other, g, k);
    assert k !in Col0(g) && k !in Col1(g);
    GroupTouchesOnlyItsColumns(s, bcd, Col0(g), Col1(g), color, k);
  }

  /**
   * For every value a group shows, every set bit of every group has an LED:
   * the tens digit of at most 23 needs 2 LEDs, of at most 59 needs 3.
   */
  lemma NoBitDropped(g: Group, v: int)
    requires 0 <= v <= MaxValue(g)
    ensures |Digits(v)| == 2 ==> forall i :: 0 <= i < 4 && Bit(Digits(v)[0], i) ==> i < |Col0(g)|
    ensures |Col1(g)| == 4
  {
    DigitsLength(v);
    if |Digits(v)| == 2 {
      TwoDigitGroups(v);
      if g == Hours {
        HighBitsClear(Digits(v)[0], 2);
      } else {
        HighBitsClear(Digits(v)[0], 3);
      }
    }
  }

  /** Hours, minutes and seconds always fit the 24-LED matrix through the wiring table. */
  lemma ClockGroupFits(g: Group, v: int, n: int)
    requires 0 <= v <= MaxValue(g)
    requires n >= MatrixLeds
    ensures GroupFits(Digits(v), Col0(g), Col1(g), n)
  {
    NoBitDropped(g, v);
    DigitsLength(v);
    forall k | k in Col0(g) + Col1(g)
      ensures 0 <= k < MatrixLeds
    {
      WiredInGroupColumns(g, k);
    }
  }
}
