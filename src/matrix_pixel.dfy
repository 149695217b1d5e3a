/**
 * Serpentine addressing of an LED matrix wired row by row: row 0 runs left to
 * right, row 1 right to left, and so on. A pixel is known either by its strip
 * position or by its (row, column), and may carry a colour.
 */
module MatrixPixels {
  import opened LedColor

  /** C++ `/` on int: the quotient truncated toward zero. */
  function CppDiv(a: int, b: int): int
    requires b > 0
  {
    if a >= 0 then a / b else -((-a) / b)
  }

  /** C++ `%` on int: the remainder takes the sign of the dividend. */
  function CppRem(a: int, b: int): int
    requires b > 0
  {
    a - b * CppDiv(a, b)
  }

  /** `rowForPosition`: integer division by the number of columns (the `floor` of an int is the int). */
  function RowForPosition(position: int, columns: int): int
    requires columns > 0
  {
    CppDiv(position, columns)
  }

  /** Whether the source's `row % 2 == 1` test takes the reversed branch. */
  predicate ReversedRow(row: int)
  {
    CppRem(row, 2) == 1
  }

  /** `columnForPosition`: the offset into the row, reflected on odd rows. */
  function ColumnForPosition(row: int, position: int, columns: int): int
    requires columns > 0
  {
    var column := CppRem(position, columns);
    if ReversedRow(row) then (columns - 1) - column else column
  }

  /** `positionForRowAndColumn`: row start plus the column, reflected on odd rows. */
  function PositionForRowAndColumn(row: int, column: int, columns: int): int
    requires columns > 0
  {
    var actualColumn := if ReversedRow(row) then columns - 1 - column else column;
    columns * row + actualColumn
  }

  /** Euclidean division is unique: p == c * q + a with 0 <= a < c fixes q and a. */
  lemma DivModUnique(p: int, c: int, q: int, a: int)
    requires c > 0 && 0 <= a < c && p == c * q + a
    ensures p / c == q && p % c == a
  {
    var q', a' := p / c, p % c;
    assert p == c * q' + a';
    if q' > q {
      assert c * q' >= c * (q + 1) by { MulMonotone(c, q + 1, q'); }
    } else if q' < q {
      assert c * q >= c * (q' + 1) by { MulMonotone(c, q' + 1, q); }
    }
  }

  /** Multiplication by a positive number keeps order. */
  lemma MulMonotone(c: int, x: int, y: int)
    requires c > 0 && x <= y
    ensures c * x <= c * y
  {
    assert c * y - c * x == c * (y - x);
  }

  /** Multiplying by one more adds one more factor. */
  lemma MulSucc(a: int, n: int)
    ensures a * (n + 1) == a * n + a
  {
  }

  /** A quotient lies between the bounds of the mean: lo * n <= s <= hi * n gives lo <= s / n <= hi. */
  lemma DivBounds(s: int, n: int, lo: int, hi: int)
    requires n > 0 && lo * n <= s <= hi * n
    ensures lo <= s / n <= hi
  {
    var q, r := s / n, s % n;
    assert s == n * q + r && 0 <= r < n;
    if q < lo {
      MulSucc(n, q);
      MulMonotone(n, q + 1, lo);
    }
    if q > hi {
      MulSucc(n, hi);
      MulMonotone(n, hi + 1, q);
    }
  }

  /** For non-negative positions the row is the floor of position / columns. */
  lemma RowIsFloor(position: int, columns: int)
    requires columns > 0 && position >= 0
    ensures RowForPosition(position, columns) == position / columns
    ensures ColumnForPosition(RowForPosition(position, columns), position, columns) ==
      if (position / columns) % 2 == 1 then columns - 1 - position % columns else position % columns
  {
  }

  /** On a row r >= 0 the position is C*r + c on even rows and C*r + (C-1-c) on odd rows. */
  lemma Serpentine(row: int, column: int, columns: int)
    requires columns > 0 && row >= 0
    ensures PositionForRowAndColumn(row, column, columns) ==
      if row % 2 == 0 then columns * row + column else columns * row + (columns - 1 - column)
  {
  }

  /** Every in-bounds (row, column) lands on the strip: 0 <= position < rows * columns. */
  lemma PositionInBounds(row: int, column: int, rows: int, columns: int)
    requires columns > 0
    requires 0 <= row < rows && 0 <= column < columns
    ensures 0 <= PositionForRowAndColumn(row, column, columns) < rows * columns
  {
    MulMonotone(columns, 0, row);
    MulMonotone(columns, row + 1, rows);
  }

  /** (row, column) -> position -> (row, column) is the identity for row >= 0 and 0 <= column < columns. */
  lemma RowColumnRoundTrip(row: int, column: int, columns: int)
    requires columns > 0 && row >= 0 && 0 <= column < columns
    ensures var p := PositionForRowAndColumn(row, column, columns);
      RowForPosition(p, columns) == row &&
      ColumnForPosition(RowForPosition(p, columns), p, columns) == column
  {
    var p := PositionForRowAndColumn(row, column, columns);
    var actual := if ReversedRow(row) then columns - 1 - column else column;
    MulMonotone(columns, 0, row);
    DivModUnique(p, columns, row, actual);
  }

  /** position -> (row, column) -> position is the identity for every position >= 0. */
  lemma PositionRoundTrip(position: int, columns: int)
    requires columns > 0 && position >= 0
    ensures var row := RowForPosition(position, columns);
      row >= 0 &&
      0 <= ColumnForPosition(row, position, columns) < columns &&
      PositionForRowAndColumn(row, ColumnForPosition(row, position, columns), columns) == position
  {
  }

  /** A position below rows * columns lies on a row below rows. */
  lemma RowInBounds(position: int, rows: int, columns: int)
    requires columns > 0 && 0 <= position < rows * columns
    ensures 0 <= RowForPosition(position, columns) < rows
  {
    var row := position / columns;
    if row >= rows {
      MulMonotone(columns, rows, row);
    }
  }

  /** `MatrixPixel`: its row, column and position (-1 when not known), whether it is on the matrix, and its colour. */
  datatype Pixel = Pixel(row: int, column: int, position: int, onMatrix: bool, color: Color)

  /**
   * `MatrixPixel(position)`: on the matrix iff 0 <= position < rows*columns;
   * row and column are computed only then and otherwise stay -1.
   */
  function FromPosition(position: int, rows: int, columns: int): (px: Pixel)
    requires columns > 0
    ensures px.position == position && px.color == Black
    ensures px.onMatrix <==> 0 <= position < rows * columns
    ensures px.onMatrix ==>
      0 <= px.row < rows && 0 <= px.column < columns &&
      PositionForRowAndColumn(px.row, px.column, columns) == position
    ensures !px.onMatrix ==> px.row == -1 && px.column == -1
  {
    var onMatrix := 0 <= position && position < rows * columns;
    if onMatrix then
      var row := RowForPosition(position, columns);
      RowInBounds(position, rows, columns);
      PositionRoundTrip(position, columns);
      Pixel(row, ColumnForPosition(row, position, columns), position, true, Black)
    else
      Pixel(-1, -1, position, false, Black)
  }

  /**
   * `MatrixPixel(lights, position)`: as `MatrixPixel(position)`, and the colour
   * is read from the buffer only when the pixel is on the matrix.
   */
  function FromPositionIn(lights: seq<Color>, position: int, rows: int, columns: int): (px: Pixel)
    requires columns > 0 && |lights| >= rows * columns
    ensures px.(color := Black) == FromPosition(position, rows, columns)
    ensures px.color == if px.onMatrix then lights[position] else Black
  {
    var px := FromPosition(position, rows, columns);
    if px.onMatrix then px.(color := lights[position]) else px
  }

  /**
   * `MatrixPixel(row, column)`: on the matrix iff both coordinates are in
   * bounds; the position is computed only then and otherwise stays -1.
   */
  function FromRowColumn(row: int, column: int, rows: int, columns: int): (px: Pixel)
    requires columns > 0
    ensures px.row == row && px.column == column && px.color == Black
    ensures px.onMatrix <==> 0 <= row < rows && 0 <= column < columns
    ensures px.onMatrix ==>
      0 <= px.position < rows * columns &&
      RowForPosition(px.position, columns) == row &&
      ColumnForPosition(row, px.position, columns) == column
    ensures !px.onMatrix ==> px.position == -1
  {
    var onMatrix := 0 <= row && row < rows && 0 <= column && column < columns;
    if onMatrix then
      PositionInBounds(row, column, rows, columns);
      RowColumnRoundTrip(row, column, columns);
      Pixel(row, column, PositionForRowAndColumn(row, column, columns), true, Black)
    else
      Pixel(row, column, -1, false, Black)
  }

  /**
   * `MatrixPixel(lights, row, column)`: as `MatrixPixel(row, column)`, and the
   * colour is read from the buffer only when the pixel is on the matrix.
   */
  function FromRowColumnIn(lights: seq<Color>, row: int, column: int, rows: int, columns: int): (px: Pixel)
    requires columns > 0 && |lights| >= rows * columns
    ensures px.(color := Black) == FromRowColumn(row, column, rows, columns)
    ensures px.color == if px.onMatrix then lights[px.position] else Black
  {
    var px := FromRowColumn(row, column, rows, columns);
    if px.onMatrix then px.(color := lights[px.position]) else px
  }

  /** A neighbour just outside the matrix (row -1 or rows, column -1 or columns) is off the matrix and black. */
  lemma EdgeNeighboursOffMatrix(lights: seq<Color>, row: int, column: int, rows: int, columns: int)
    requires columns > 0 && |lights| >= rows * columns
    requires row == -1 || row == rows || column == -1 || column == columns
    ensures !FromRowColumnIn(lights, row, column, rows, columns).onMatrix
    ensures FromRowColumnIn(lights, row, column, rows, columns).color == Black
  {
  }
}
