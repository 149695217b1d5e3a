/**
 * The Bleed effect: after the digits are drawn, every matrix cell left unset
 * takes a dimmed copy of the colour of its first lit neighbour.
 */
module BleedEffect {
  import opened LedColor
  import opened MatrixPixels
  import opened Wrappers

  /** A bleed factor in tenths: 3 stands for the source's 0.3. */
  type Tenths = t: int | 0 <= t <= 10

  datatype BleedFactors = BleedFactors(red: Tenths, green: Tenths, blue: Tenths)

  /** The tunable defaults: red 0.3, green 0.3, blue 0.4. */
  const DefaultFactors: BleedFactors := BleedFactors(3, 3, 4)

  /** `round(v * factor)` with factor = t / 10: the nearest integer, halves rounded up. */
  function ScaleChannel(v: Channel, t: Tenths): (r: Channel)
    ensures r <= v
    ensures 10 * r - 5 <= v * t < 10 * r + 5
  {
    if v == 0 then 0
    else
      MulMonotone(v, t, 10);
      (2 * v * t + 10) / 20
  }

  /** A colour scaled channel by channel; no channel grows. */
  function Scale(c: Color, f: BleedFactors): (r: Color)
    ensures r.red <= c.red && r.green <= c.green && r.blue <= c.blue
  {
    Color(ScaleChannel(c.red, f.red), ScaleChannel(c.green, f.green), ScaleChannel(c.blue, f.blue))
  }

  /** A neighbour the bleed may take its colour from: on the matrix and not black. */
  predicate Candidate(p: Pixel)
  {
    p.onMatrix && IsLit(p.color)
  }

  /** The index of the first candidate, if any. */
  function FirstCandidate(consider: seq<Pixel>): (r: Option<nat>)
    ensures r.None? <==> forall i :: 0 <= i < |consider| ==> !Candidate(consider[i])
    ensures r.Some? ==>
      r.value < |consider| && Candidate(consider[r.value]) &&
      forall i :: 0 <= i < r.value ==> !Candidate(consider[i])
  {
    if consider == [] then None
    else if Candidate(consider[0]) then Some(0)
    else
      match FirstCandidate(consider[1..])
      case None => None
      case Some(i) => Some(i + 1)
  }

  /** The bleed colour: the first candidate's colour scaled, or black when there is none. */
  function BleedColor(consider: seq<Pixel>, f: BleedFactors): Color
  {
    match FirstCandidate(consider)
    case None => Black
    case Some(i) => Scale(consider[i].color, f)
  }

  /** `selectBleedColor`: a linear search that returns at the first on-matrix, non-black entry. */
  method SelectBleedColor(consider: seq<Pixel>, f: BleedFactors) returns (color: Color)
    ensures color == BleedColor(consider, f)
    ensures (forall i :: 0 <= i < |consider| ==> !Candidate(consider[i])) ==> color == Black
    ensures forall i ::
      (0 <= i < |consider| && Candidate(consider[i]) && forall j :: 0 <= j < i ==> !Candidate(consider[j]))
      ==> color == Scale(consider[i].color, f)
  {
    for i := 0 to |consider|
      invariant forall j :: 0 <= j < i ==> !Candidate(consider[j])
    {
      var mp := consider[i];
      if mp.onMatrix {
        var c := mp.color;
        if c.red + c.green + c.blue > 0 {
          return Scale(c, f);
        }
      }
    }
    return Black;
  }

  /** The strip and the was-set flags cover the whole rows x columns matrix. */
  predicate FrameFits(strip: seq<Color>, pixelsSet: seq<bool>, rows: nat, columns: nat)
  {
    columns > 0 && |strip| >= rows * columns && |pixelsSet| >= rows * columns
  }

  /** The neighbours considered, in priority order: row + 1, row - 1, column - 1, column + 1. */
  function Neighbours(strip: seq<Color>, row: int, column: int, rows: nat, columns: nat): seq<Pixel>
    requires columns > 0 && |strip| >= rows * columns
  {
    [FromRowColumnIn(strip, row + 1, column, rows, columns),
     FromRowColumnIn(strip, row - 1, column, rows, columns),
     FromRowColumnIn(strip, row, column - 1, rows, columns),
     FromRowColumnIn(strip, row, column + 1, rows, columns)]
  }

  /** Cell (row, column) bleeds: it was not set this frame and its bleed colour is not black. */
  predicate CellBleeds(strip: seq<Color>, pixelsSet: seq<bool>, f: BleedFactors, rows: nat, columns: nat, row: int, column: int)
    requires FrameFits(strip, pixelsSet, rows, columns)
    requires 0 <= row < rows && 0 <= column < columns
  {
    var base := FromRowColumn(row, column, rows, columns);
    !pixelsSet[base.position] && IsLit(BleedColor(Neighbours(strip, row, column, rows, columns), f))
  }

  /**
   * What one cell contributes to the result: itself with its bleed colour when
   * it bleeds, otherwise nothing (and nothing off the matrix).
   */
  function BleedCell(strip: seq<Color>, pixelsSet: seq<bool>, f: BleedFactors, rows: nat, columns: nat, row: int, column: int): seq<Pixel>
  {
    if FrameFits(strip, pixelsSet, rows, columns) && 0 <= row < rows && 0 <= column < columns &&
       CellBleeds(strip, pixelsSet, f, rows, columns, row, column)
    then
      [FromRowColumn(row, column, rows, columns).(color := BleedColor(Neighbours(strip, row, column, rows, columns), f))]
    else []
  }

  /** The per-cell contributions of one frame, as a function of (row, column). */
  function BleedCells(strip: seq<Color>, pixelsSet: seq<bool>, f: BleedFactors, rows: nat, columns: nat): (int, int) -> seq<Pixel>
  {
    (row, column) => BleedCell(strip, pixelsSet, f, rows, columns, row, column)
  }

  /** Rows 0..k-1 of one column, top to bottom. */
  function ScanRows(cell: (int, int) -> seq<Pixel>, column: int, k: nat): seq<Pixel>
  {
    if k == 0 then [] else ScanRows(cell, column, k - 1) + cell(k - 1, column)
  }

  /** Columns 0..j-1, each scanned over all rows: the loop nest of the pass. */
  function ScanColumns(cell: (int, int) -> seq<Pixel>, rows: nat, j: nat): seq<Pixel>
  {
    if j == 0 then [] else ScanColumns(cell, rows, j - 1) + ScanRows(cell, j - 1, rows)
  }

  /** The pixels the Bleed pass returns, in column-major scan order. */
  function BleedPixels(strip: seq<Color>, pixelsSet: seq<bool>, f: BleedFactors, rows: nat, columns: nat): seq<Pixel>
  {
    ScanColumns(BleedCells(strip, pixelsSet, f, rows, columns), rows, columns)
  }

  /** p is the bleed pixel of its own cell: an unset on-matrix cell with its non-black bleed colour. */
  predicate BleedsInto(strip: seq<Color>, pixelsSet: seq<bool>, f: BleedFactors, rows: nat, columns: nat, p: Pixel)
    requires FrameFits(strip, pixelsSet, rows, columns)
  {
    0 <= p.row < rows && 0 <= p.column < columns &&
    p.(color := Black) == FromRowColumn(p.row, p.column, rows, columns) &&
    CellBleeds(strip, pixelsSet, f, rows, columns, p.row, p.column) &&
    p.color == BleedColor(Neighbours(strip, p.row, p.column, rows, columns), f)
  }

  /** Column-major order: an earlier column, or the same column and an earlier row. */
  predicate ColumnMajorBefore(a: Pixel, b: Pixel)
  {
    a.column < b.column || (a.column == b.column && a.row < b.row)
  }

  /** ps lists its pixels in strictly increasing column-major order. */
  predicate ColumnMajorSorted(ps: seq<Pixel>)
  {
    forall i, j :: 0 <= i < j < |ps| ==> ColumnMajorBefore(ps[i], ps[j])
  }

  /** ps holds a pixel at (row, column). */
  predicate HasCell(ps: seq<Pixel>, row: int, column: int)
  {
    exists i :: 0 <= i < |ps| && ps[i].row == row && ps[i].column == column
  }

  /** Every cell of the matrix contributes at most one pixel, and only one at its own coordinates. */
  predicate CellsShaped(cell: (int, int) -> seq<Pixel>, rows: nat, columns: nat)
  {
    forall r, c :: 0 <= r < rows && 0 <= c < columns ==>
      |cell(r, c)| <= 1 && forall p :: p in cell(r, c) ==> p.row == r && p.column == c
  }

  lemma {:induction false} ScanRowsFacts(cell: (int, int) -> seq<Pixel>, rows: nat, columns: nat, column: int, k: nat)
    requires CellsShaped(cell, rows, columns)
    requires 0 <= column < columns && k <= rows
    ensures ColumnMajorSorted(ScanRows(cell, column, k))
    ensures forall p :: p in ScanRows(cell, column, k) ==>
      p.column == column && 0 <= p.row < k && p in cell(p.row, column)
    ensures forall r, p :: 0 <= r < k && p in cell(r, column) ==> p in ScanRows(cell, column, k)
    decreases k
  {
    if k > 0 {
      ScanRowsFacts(cell, rows, columns, column, k - 1);
      var prev := ScanRows(cell, column, k - 1);
      var last := cell(k - 1, column);
      var ps := ScanRows(cell, column, k);
      assert ps == prev + last;
      forall i, j | 0 <= i < j < |ps|
        ensures ColumnMajorBefore(ps[i], ps[j])
      {
        if j < |prev| {
          assert ps[i] == prev[i] && ps[j] == prev[j];
        } else {
          assert ps[i] == prev[i] && prev[i] in prev;
          assert ps[j] == last[j - |prev|] && last[j - |prev|] in last;
        }
      }
    }
  }

  lemma {:induction false} ScanColumnsFacts(cell: (int, int) -> seq<Pixel>, rows: nat, columns: nat, j: nat)
    requires CellsShaped(cell, rows, columns)
    requires j <= columns
    ensures ColumnMajorSorted(ScanColumns(cell, rows, j))
    ensures forall p :: p in ScanColumns(cell, rows, j) ==>
      0 <= p.column < j && 0 <= p.row < rows && p in cell(p.row, p.column)
    ensures forall r, c, p :: 0 <= r < rows && 0 <= c < j && p in cell(r, c) ==> p in ScanColumns(cell, rows, j)
    decreases j
  {
    if j > 0 {
      ScanColumnsFacts(cell, rows, columns, j - 1);
      ScanRowsFacts(cell, rows, columns, j - 1, rows);
      var prev := ScanColumns(cell, rows, j - 1);
      var last := ScanRows(cell, j - 1, rows);
      var ps := ScanColumns(cell, rows, j);
      assert ps == prev + last;
      forall i, i' | 0 <= i < i' < |ps|
        ensures ColumnMajorBefore(ps[i], ps[i'])
      {
        if i' < |prev| {
          assert ps[i] == prev[i] && ps[i'] == prev[i'];
        } else if i < |prev| {
          assert ps[i] == prev[i] && prev[i] in prev;
          assert ps[i'] == last[i' - |prev|] && last[i' - |prev|] in last;
        } else {
          assert ps[i] == last[i - |prev|] && ps[i'] == last[i' - |prev|];
        }
      }
    }
  }

  /** A cell contributes one pixel, its own bleed pixel, exactly when it bleeds. */
  lemma BleedCellFacts(strip: seq<Color>, pixelsSet: seq<bool>, f: BleedFactors, rows: nat, columns: nat, row: int, column: int)
    requires FrameFits(strip, pixelsSet, rows, columns)
    requires 0 <= row < rows && 0 <= column < columns
    ensures |BleedCell(strip, pixelsSet, f, rows, columns, row, column)| ==
      (if CellBleeds(strip, pixelsSet, f, rows, columns, row, column) then 1 else 0)
    ensures forall p :: p in BleedCell(strip, pixelsSet, f, rows, columns, row, column) ==>
      p.row == row && p.column == column && BleedsInto(strip, pixelsSet, f, rows, columns, p)
  {
  }

  /**
   * The Bleed pass returns exactly the unset cells whose bleed colour is not
   * black, each once, in column-major order, each with the dimmed colour of its
   * first lit neighbour.
   */
  lemma BleedPixelsCharacterised(strip: seq<Color>, pixelsSet: seq<bool>, f: BleedFactors, rows: nat, columns: nat)
    requires FrameFits(strip, pixelsSet, rows, columns)
    ensures forall p :: p in BleedPixels(strip, pixelsSet, f, rows, columns) ==>
      BleedsInto(strip, pixelsSet, f, rows, columns, p)
    ensures ColumnMajorSorted(BleedPixels(strip, pixelsSet, f, rows, columns))
    ensures forall r, c :: 0 <= r < rows && 0 <= c < columns ==>
      (CellBleeds(strip, pixelsSet, f, rows, columns, r, c) <==> HasCell(BleedPixels(strip, pixelsSet, f, rows, columns), r, c))
  {
    var cell := BleedCells(strip, pixelsSet, f, rows, columns);
    var ps := BleedPixels(strip, pixelsSet, f, rows, columns);
    forall r, c | 0 <= r < rows && 0 <= c < columns
      ensures |cell(r, c)| <= 1 && forall p :: p in cell(r, c) ==> p.row == r && p.column == c
    {
      BleedCellFacts(strip, pixelsSet, f, rows, columns, r, c);
    }
    ScanColumnsFacts(cell, rows, columns, columns);
    forall p | p in ps
      ensures BleedsInto(strip, pixelsSet, f, rows, columns, p)
    {
      BleedCellFacts(strip, pixelsSet, f, rows, columns, p.row, p.column);
    }
    forall r, c | 0 <= r < rows && 0 <= c < columns
      ensures CellBleeds(strip, pixelsSet, f, rows, columns, r, c) <==> HasCell(ps, r, c)
    {
      BleedCellFacts(strip, pixelsSet, f, rows, columns, r, c);
      if HasCell(ps, r, c) {
        var i :| 0 <= i < |ps| && ps[i].row == r && ps[i].column == c;
        assert ps[i] in ps;
      }
      if CellBleeds(strip, pixelsSet, f, rows, columns, r, c) {
        var p := cell(r, c)[0];
        assert p in cell(r, c) && p in ps;
        var i :| 0 <= i < |ps| && ps[i] == p;
      }
    }
  }

  /** Every pixel the pass returns is on the matrix, was not set this frame, and is lit. */
  lemma BleedPixelsUnsetAndLit(strip: seq<Color>, pixelsSet: seq<bool>, f: BleedFactors, rows: nat, columns: nat)
    requires FrameFits(strip, pixelsSet, rows, columns)
    ensures forall p :: p in BleedPixels(strip, pixelsSet, f, rows, columns) ==>
      p.onMatrix && 0 <= p.position < rows * columns && !pixelsSet[p.position] && IsLit(p.color)
  {
    BleedPixelsCharacterised(strip, pixelsSet, f, rows, columns);
    forall p | p in BleedPixels(strip, pixelsSet, f, rows, columns)
      ensures p.onMatrix && 0 <= p.position < rows * columns && !pixelsSet[p.position] && IsLit(p.color)
    {
      assert BleedsInto(strip, pixelsSet, f, rows, columns, p);
    }
  }

  /** The contribution of one cell, step by step as the pass computes it. */
  lemma BleedCellUnfolded(strip: seq<Color>, pixelsSet: seq<bool>, f: BleedFactors, rows: nat, columns: nat, row: int, column: int)
    requires FrameFits(strip, pixelsSet, rows, columns)
    requires 0 <= row < rows && 0 <= column < columns
    ensures var base := FromRowColumn(row, column, rows, columns);
      var color := BleedColor(Neighbours(strip, row, column, rows, columns), f);
      BleedCell(strip, pixelsSet, f, rows, columns, row, column) ==
        if pixelsSet[base.position] || !IsLit(color) then [] else [base.(color := color)]
  {
  }

  /** The body of the pass for one cell: the cell with its bleed colour, or nothing. */
  method BleedAt(strip: array<Color>, pixelsSet: array<bool>, f: BleedFactors, rows: nat, columns: nat, r: int, c: int)
    returns (kept: seq<Pixel>)
    requires FrameFits(strip[..], pixelsSet[..], rows, columns)
    requires 0 <= r < rows && 0 <= c < columns
    ensures kept == BleedCell(strip[..], pixelsSet[..], f, rows, columns, r, c)
  {
    BleedCellUnfolded(strip[..], pixelsSet[..], f, rows, columns, r, c);
    kept := [];
    var base := FromRowColumn(r, c, rows, columns);
    if !pixelsSet[base.position] {
      var pixelPositionsToConsider := Neighbours(strip[..], base.row, base.column, rows, columns);
      var color := SelectBleedColor(pixelPositionsToConsider, f);
      base := base.(color := color);
      if base.color.red + base.color.green + base.color.blue != 0 {
        kept := [base];
      }
    }
  }

  /** The inner loop of the pass: one column, top to bottom. */
  method BleedColumn(strip: array<Color>, pixelsSet: array<bool>, f: BleedFactors, rows: nat, columns: nat, c: int)
    returns (kept: seq<Pixel>)
    requires FrameFits(strip[..], pixelsSet[..], rows, columns)
    requires 0 <= c < columns
    ensures kept == ScanRows(BleedCells(strip[..], pixelsSet[..], f, rows, columns), c, rows)
  {
    ghost var cell := BleedCells(strip[..], pixelsSet[..], f, rows, columns);
    kept := [];
    for r := 0 to rows
      invariant kept == ScanRows(cell, c, r)
    {
      var one := BleedAt(strip, pixelsSet, f, rows, columns, r, c);
      kept := kept + one;
    }
  }

  /**
   * `EffectBleed::post`: scan columns, then rows; for each cell not set this
   * frame, take the bleed colour of its four neighbours and keep the cell when
   * that colour is not black. Neither the strip nor the flags are written.
   */
  method Post(strip: array<Color>, pixelsSet: array<bool>, f: BleedFactors, rows: nat, columns: nat)
    returns (bleedPixels: seq<Pixel>)
    requires FrameFits(strip[..], pixelsSet[..], rows, columns)
    ensures bleedPixels == BleedPixels(strip[..], pixelsSet[..], f, rows, columns)
    ensures forall p :: p in bleedPixels ==>
      p.onMatrix && 0 <= p.position < rows * columns && !pixelsSet[p.position] && IsLit(p.color)
  {
    ghost var cell := BleedCells(strip[..], pixelsSet[..], f, rows, columns);
    bleedPixels := [];
    for c := 0 to columns
      invariant bleedPixels == ScanColumns(cell, rows, c)
    {
      var column := BleedColumn(strip, pixelsSet, f, rows, columns, c);
      bleedPixels := bleedPixels + column;
    }
    BleedPixelsUnsetAndLit(strip[..], pixelsSet[..], f, rows, columns);
  }

  /** One red neighbour and nothing else lit: the cell bleeds (77, 0, 0) with the default factors. */
  lemma SingleRedNeighbour(consider: seq<Pixel>, i: int)
    requires 0 <= i < |consider|
    requires consider[i].onMatrix && consider[i].color == Color(255, 0, 0)
    requires forall j :: 0 <= j < |consider| && j != i ==> !Candidate(consider[j])
    ensures BleedColor(consider, DefaultFactors) == Color(77, 0, 0)
  {
    assert FirstCandidate(consider) == Some(i);
  }
}
