/**
 * The Ordnance Survey of Great Britain grid: the national-grid constants
 * and the two-letter 100 km grid-square prefixes. The first letter names a
 * 500 km block, the second a 100 km square inside it; both come from the
 * shared 5x5 lettering table, the block letters from the 5x5 arrangement of
 * blocks whose false origin lies at block column 2, row 1 ("S").
 */
module OSGB {

  import opened JavaArith
  import opened GridLetters
  import Points
  import TransverseMercator

  // The Airy 1830 ellipsoid and the national-grid projection parameters.
  const E0: real := 400000.0
  const N0: real := -100000.0
  const F0: real := 0.9996012717
  const MajorAxis: real := 6377563.396
  const MinorAxis: real := 6356256.910
  const Phi0: real := Pi * 49.0 / 180.0
  const Lambda0: real := Pi * (-2.0) / 180.0

  /**
   * The OSGB constructor: a Transverse Mercator projection with the grid's
   * parameters, passed in the superclass constructor's order.
   */
  method Projection(m: TransverseMercator.MathLibrary) returns (p: TransverseMercator.TransverseMercatorProjection)
    ensures fresh(p) && p.Valid()
    ensures p.a == MajorAxis && p.b == MinorAxis && p.F0 == F0
    ensures p.lambda0 == Lambda0 && p.phi0 == Phi0 && p.E0 == E0 && p.N0 == N0
    ensures p.epsilon == 0.001 && p.math == m
    ensures TransverseMercator.Lawful(m) ==>
              && 0.0 < p.n < 1.0
              && var r := p.LatitudeAndLongitudeToGrid(Lambda0, Phi0);
                 r.Success? ==> r.value == TransverseMercator.Coordinates(E0, N0)
  {
    p := new TransverseMercator.TransverseMercatorProjection(MajorAxis, MinorAxis, F0, Lambda0, Phi0, E0, N0, m);
    if TransverseMercator.Lawful(m) {
      ProjectionConstants(p);
    }
  }

  /**
   * The Airy ellipsoid is a true ellipsoid, so the projection's third
   * flattening lies strictly between 0 and 1, and the true origin (2 degrees
   * west, 49 degrees north) maps to the false origin (400 km, -100 km).
   */
  lemma ProjectionConstants(p: TransverseMercator.TransverseMercatorProjection)
    requires p.Valid() && p.a == MajorAxis && p.b == MinorAxis && p.E0 == E0 && p.N0 == N0
    requires TransverseMercator.Lawful(p.math)
    ensures 0.0 < p.n < 1.0
    ensures var r := p.LatitudeAndLongitudeToGrid(p.lambda0, p.phi0);
            r.Success? ==> r.value == TransverseMercator.Coordinates(E0, N0)
  {
    p.DerivedConstants();
    p.InverseAtOrigin();
  }

  /**
   * The four table indices GridToGridSquare computes from (e, n) are all
   * non-negative. Java's truncating `/` and `%` are not corrected for
   * negative values, so this is exactly when no table lookup throws.
   */
  predicate IndicesInTable(e: real, n: real) {
    IndexPairInTable(GridIndex(e), GridIndex(n))
  }

  /** The table indices computed from the 100 km indices x and y are all non-negative. */
  predicate IndexPairInTable(x: int, y: int) {
    && Rem(2 + Quot(x, 5), 5) >= 0 && Rem(1 + Quot(y, 5), 5) >= 0
    && Rem(x, 5) >= 0 && Rem(y, 5) >= 0
  }

  /** The prefix of the 100 km square with indices x and y. */
  function PrefixOfIndices(x: int, y: int): string
    requires IndexPairInTable(x, y)
  {
    var jx := Rem(2 + Quot(x, 5), 5);
    var jy := Rem(1 + Quot(y, 5), 5);
    var kx := Rem(x, 5);
    var ky := Rem(y, 5);
    [Letter(jy, jx), Letter(ky, kx)]
  }

  /**
   * The two-letter prefix of the 100 km square holding the point (e, n), in
   * metres from the false origin: the block letter, then the square's
   * letter, both read from the table.
   */
  function GridToGridSquare(e: real, n: real): (prefix: string)
    requires IndicesInTable(e, n)
    ensures |prefix| == 2 && IsGridLetter(prefix[0]) && IsGridLetter(prefix[1])
  {
    PrefixOfIndices(GridIndex(e), GridIndex(n))
  }

  /**
   * Every point with non-negative coordinates is answered. With
   * x = floor(e / 100 km) and y = floor(n / 100 km), its block letter is at
   * row (1 + y / 5) mod 5 and column (2 + x / 5) mod 5, and its square letter
   * at row y mod 5 and column x mod 5.
   */
  lemma NonNegativePrefix(e: real, n: real)
    requires e >= 0.0 && n >= 0.0
    ensures IndicesInTable(e, n)
    ensures var x, y := (e / SquareSize).Floor, (n / SquareSize).Floor;
            GridToGridSquare(e, n) == [Letter((1 + y / 5) % 5, (2 + x / 5) % 5), Letter(y % 5, x % 5)]
  {
    var x, y := GridIndex(e), GridIndex(n);
    QuotRemNonNegative(x, 5);
    QuotRemNonNegative(y, 5);
    QuotRemNonNegative(2 + Quot(x, 5), 5);
    QuotRemNonNegative(1 + Quot(y, 5), 5);
  }

  /** The 500 km block offset named by the (upper-cased) first letter; any other letter adds nothing. */
  function BlockOffset(a: char): GridOffset {
    match a
    case 'N' => GridOffset(0.0, 500000.0)
    case 'H' => GridOffset(0.0, 1000000.0)
    case 'T' => GridOffset(500000.0, 0.0)
    case _ => GridOffset(0.0, 0.0)
  }

  /**
   * The offset of the south-west corner of the square named by the prefix
   * a b: the block offset of a plus the 100 km offset of b within its block.
   * Unknown characters are not rejected; they contribute nothing.
   */
  function GridSquareToOffset(a: char, b: char): (r: GridOffset)
    ensures 0.0 <= r.easting <= 900000.0 && 0.0 <= r.northing <= 1400000.0
    ensures IsWholeSquares(r.easting) && IsWholeSquares(r.northing)
  {
    var upperA := ToUpper(a);
    var upperB := ToUpper(b);
    var block := BlockOffset(upperA);
    GridOffset(block.easting + EastingOfLetter(upperB), block.northing + NorthingOfLetter(upperB))
  }

  /**
   * Less than one square west or south of the origin the cast truncates the
   * index to 0, so such a point is given the prefix of the point moved onto
   * the axis.
   */
  lemma TruncationBand(e: real, n: real)
    requires -SquareSize < e && -SquareSize < n
    ensures IndicesInTable(e, n)
    ensures GridToGridSquare(e, n) == GridToGridSquare(if e < 0.0 then 0.0 else e, if n < 0.0 then 0.0 else n)
  {
    var e', n' := if e < 0.0 then 0.0 else e, if n < 0.0 then 0.0 else n;
    if e < 0.0 {
      NegativeWithinOneSquareTruncatesToZero(e);
    }
    if n < 0.0 {
      NegativeWithinOneSquareTruncatesToZero(n);
    }
    assert GridIndex(e) == GridIndex(e') && GridIndex(n) == GridIndex(n');
  }

  /** One to five squares west of the origin the column index is negative, so the lookup throws. */
  lemma WestOfOriginLeavesTable(e: real, n: real)
    requires -5.0 * SquareSize < e <= -SquareSize
    ensures !IndicesInTable(e, n)
  {
    NegativeIndexLeavesTable(e);
  }

  /**
   * Five to six squares west of the origin the index is -5: its remainder
   * is 0 and its truncated quotient -1, so Java answers, with the block
   * letter of table column 1 and the square letter of column 0.
   */
  lemma {:induction false} FiveSquaresWestAnswered(e: real, n: real)
    requires -6.0 * SquareSize < e <= -5.0 * SquareSize && n >= 0.0
    ensures IndicesInTable(e, n)
    ensures var y := (n / SquareSize).Floor;
            GridToGridSquare(e, n) == [Letter((1 + y / 5) % 5, 1), Letter(y % 5, 0)]
  {
    assert 5.0 <= -e / 100000.0 < 6.0;
    assert GridIndex(e) == -5;
    assert Quot(-5, 5) == -1 && Rem(-5, 5) == 0;
  }

  /** Lower-case letters name the same square as their upper-case forms. */
  lemma CaseInsensitive(a: char, b: char)
    ensures GridSquareToOffset(a, b) == GridSquareToOffset(ToUpper(a), ToUpper(b))
  {
    ToUpperIdempotent(a);
    ToUpperIdempotent(b);
  }

  /**
   * The four block letters in use: S at the false origin, T one block east,
   * N one block north and H two blocks north. Each sits in the lettering
   * table where GridToGridSquare looks for a point of its block.
   */
  lemma BlockLetters()
    ensures BlockOffset('S') == GridOffset(0.0, 0.0) && Letter(1, 2) == 'S'
    ensures BlockOffset('T') == GridOffset(500000.0, 0.0) && Letter(1, 3) == 'T'
    ensures BlockOffset('N') == GridOffset(0.0, 500000.0) && Letter(2, 2) == 'N'
    ensures BlockOffset('H') == GridOffset(0.0, 1000000.0) && Letter(3, 2) == 'H'
  {
  }

  /** A first letter other than N, H and T, whatever its case, adds no block offset. */
  lemma OtherFirstLettersAddNothing(a: char, b: char)
    requires ToUpper(a) !in "NHT"
    ensures GridSquareToOffset(a, b) == GridOffset(EastingOfLetter(ToUpper(b)), NorthingOfLetter(ToUpper(b)))
  {
  }

  /**
   * The second letter at row r, column c of the table moves the offset
   * 100 km per column east and 100 km per row north of its block's corner.
   */
  lemma SecondLetterOffset(a: char, row: int, col: int)
    requires 0 <= row < 5 && 0 <= col < 5
    ensures var r := GridSquareToOffset(a, Letter(row, col));
            && r.easting == BlockOffset(ToUpper(a)).easting + SquareSize * col as real
            && r.northing == BlockOffset(ToUpper(a)).northing + SquareSize * row as real
  {
    TableLetterOffset(row, col);
  }

  /**
   * A point (e, n) in block (blockCol, blockRow), at column col and row row
   * within it, is given the block's letter and then the square's letter.
   */
  lemma {:induction false} PrefixInSquare(blockCol: int, blockRow: int, col: int, row: int, dx: real, dy: real, e: real, n: real)
    requires 0 <= blockCol && 0 <= blockRow && 0 <= col < 5 && 0 <= row < 5
    requires 0.0 <= dx < SquareSize && 0.0 <= dy < SquareSize
    requires e == SquareSize * (5 * blockCol + col) as real + dx && n == SquareSize * (5 * blockRow + row) as real + dy
    ensures IndicesInTable(e, n)
    ensures GridToGridSquare(e, n) == [Letter((1 + blockRow) % 5, (2 + blockCol) % 5), Letter(row, col)]
  {
    IndexWithinSquare(5 * blockCol + col, dx);
    IndexWithinSquare(5 * blockRow + row, dy);
    IndicesInBlocks(blockCol, blockRow, col, row);
  }

  /** The indices of square (col, row) of block (blockCol, blockRow) give that block's and that square's letters. */
  lemma IndicesInBlocks(blockCol: int, blockRow: int, col: int, row: int)
    requires 0 <= blockCol && 0 <= blockRow && 0 <= col < 5 && 0 <= row < 5
    ensures IndexPairInTable(5 * blockCol + col, 5 * blockRow + row)
    ensures PrefixOfIndices(5 * blockCol + col, 5 * blockRow + row)
            == [Letter((1 + blockRow) % 5, (2 + blockCol) % 5), Letter(row, col)]
  {
    BlockAndSquare(blockCol, col, 2);
    BlockAndSquare(blockRow, row, 1);
  }

  /** The Java quotient and remainder by 5 of an index `offset` squares into block `block`. */
  lemma BlockAndSquare(block: int, offset: int, start: int)
    requires 0 <= block && 0 <= offset < 5 && 0 <= start
    ensures Quot(5 * block + offset, 5) == block && Rem(5 * block + offset, 5) == offset
    ensures Rem(start + Quot(5 * block + offset, 5), 5) == (start + block) % 5
  {
    QuotRemNonNegative(5 * block + offset, 5);
    QuotRemNonNegative(start + block, 5);
  }

  /**
   * Round trip: any point inside the square named by a block letter and a
   * table letter is given back exactly that prefix.
   */
  lemma {:induction false} RoundTrip(a: char, b: char, dx: real, dy: real)
    requires a in "STNH" && IsGridLetter(b)
    requires 0.0 <= dx < SquareSize && 0.0 <= dy < SquareSize
    ensures var r := GridSquareToOffset(a, b);
            && IndicesInTable(r.easting + dx, r.northing + dy)
            && GridToGridSquare(r.easting + dx, r.northing + dy) == [a, b]
  {
    var row, col := SquarePosition(b);
    var blockCol, blockRow := BlockPosition(a);
    OffsetOfPrefix(a, b, blockCol, blockRow, col, row);
    PrefixInSquare(blockCol, blockRow, col, row, dx, dy,
                   GridSquareToOffset(a, b).easting + dx, GridSquareToOffset(a, b).northing + dy);
  }

  lemma OffsetOfPrefix(a: char, b: char, blockCol: int, blockRow: int, col: int, row: int)
    requires BlockOffset(a) == GridOffset(BlockSize * blockCol as real, BlockSize * blockRow as real)
    requires EastingOfLetter(b) == SquareSize * col as real && NorthingOfLetter(b) == SquareSize * row as real
    requires ToUpper(a) == a && ToUpper(b) == b
    ensures GridSquareToOffset(a, b) == GridOffset(SquareSize * (5 * blockCol + col) as real, SquareSize * (5 * blockRow + row) as real)
  {
  }

  /** Where each of the four block letters sits: block column and row, and its table position. */
  lemma BlockPosition(a: char) returns (blockCol: int, blockRow: int)
    requires a in "STNH"
    ensures 0 <= blockCol <= 1 && 0 <= blockRow <= 2
    ensures BlockOffset(a) == GridOffset(BlockSize * blockCol as real, BlockSize * blockRow as real)
    ensures Letter((1 + blockRow) % 5, (2 + blockCol) % 5) == a
    ensures ToUpper(a) == a
  {
    assert a == 'S' || a == 'T' || a == 'N' || a == 'H';
    if a == 'S' {
      blockCol, blockRow := 0, 0;
    } else if a == 'T' {
      blockCol, blockRow := 1, 0;
    } else if a == 'N' {
      blockCol, blockRow := 0, 1;
    } else {
      blockCol, blockRow := 0, 2;
    }
  }

  /**
   * The round trip as the British grid test runs it on points: a point
   * (dx, dy) inside the first square is moved in place by the offset of the
   * prefix a b, and its grid square is read back.
   */
  method OffsetPointPrefix(a: char, b: char, dx: real, dy: real) returns (prefix: string)
    requires a in "STNH" && IsGridLetter(b)
    requires 0.0 <= dx < SquareSize && 0.0 <= dy < SquareSize
    ensures prefix == [a, b]
  {
    var p0 := new Points.DPoint(dx, dy);
    var offset := GridSquareToOffset(a, b);
    var dp := new Points.DPoint(offset.easting, offset.northing);
    p0.OffsetBy(dp);
    assert p0.x == offset.easting + dx && p0.y == offset.northing + dy;
    RoundTrip(a, b, dx, dy);
    prefix := GridToGridSquare(p0.GetX(), p0.GetY());
  }
}
