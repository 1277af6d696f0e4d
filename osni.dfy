/**
 * The Ordnance Survey of Northern Ireland (Irish Grid) constants and its
 * one-letter 100 km grid-square prefixes. The letter names the square within
 * a 500 km block; there is no block letter, so the lettering repeats every
 * 500 km in both directions.
 */
module OSNI {

  import opened JavaArith
  import opened GridLetters
  import TransverseMercator

  // The modified Airy ellipsoid and the Irish Grid projection parameters.
  const E0: real := 200000.0
  const N0: real := 250000.0
  const F0: real := 1.000035
  const MajorAxis: real := 6377340.189
  const ESquared: real := 0.006670540
  const Phi0: real := Pi * 53.5 / 180.0
  const Lambda0: real := Pi * (-8.0) / 180.0

  /** The minor axis a sqrt(1 - e^2), with the square root supplied by the library. */
  function MinorAxis(m: TransverseMercator.MathLibrary): real {
    MajorAxis * m.sqrt(1.0 - ESquared)
  }

  /**
   * The OSNI constructor: a Transverse Mercator projection with the grid's
   * parameters, passed in the superclass constructor's order. The square
   * root is only asked to be non-negative, as Math.sqrt is.
   */
  method Projection(m: TransverseMercator.MathLibrary) returns (p: TransverseMercator.TransverseMercatorProjection)
    requires m.sqrt(1.0 - ESquared) >= 0.0
    ensures fresh(p) && p.Valid()
    ensures p.a == MajorAxis && p.b == MinorAxis(m) && p.F0 == F0
    ensures p.lambda0 == Lambda0 && p.phi0 == Phi0 && p.E0 == E0 && p.N0 == N0
    ensures p.epsilon == 0.001 && p.math == m
    ensures TransverseMercator.Lawful(m) ==>
              var r := p.LatitudeAndLongitudeToGrid(Lambda0, Phi0);
              r.Success? ==> r.value == TransverseMercator.Coordinates(E0, N0)
  {
    p := new TransverseMercator.TransverseMercatorProjection(MajorAxis, MinorAxis(m), F0, Lambda0, Phi0, E0, N0, m);
    if TransverseMercator.Lawful(m) {
      ProjectionAtOrigin(p);
    }
  }

  /** The true origin (8 degrees west, 53.5 degrees north) maps to the false origin (200 km, 250 km). */
  lemma ProjectionAtOrigin(p: TransverseMercator.TransverseMercatorProjection)
    requires p.Valid() && p.E0 == E0 && p.N0 == N0
    requires TransverseMercator.Lawful(p.math)
    ensures var r := p.LatitudeAndLongitudeToGrid(p.lambda0, p.phi0);
            r.Success? ==> r.value == TransverseMercator.Coordinates(E0, N0)
  {
    p.InverseAtOrigin();
  }

  /**
   * The two table indices GridToGridSquare computes from (e, n) are
   * non-negative. Java's `%` is not corrected for negative values, so this
   * is exactly when the table lookup does not throw.
   */
  predicate IndicesInTable(e: real, n: real) {
    Rem(GridIndex(e), 5) >= 0 && Rem(GridIndex(n), 5) >= 0
  }

  /**
   * The letter of the 100 km square holding the point (e, n), in metres from
   * the false origin. For non-negative coordinates it is read at the floors
   * of the coordinates in squares, modulo 5.
   */
  function GridToGridSquare(e: real, n: real): (letter: char)
    requires IndicesInTable(e, n)
    ensures IsGridLetter(letter)
    ensures e >= 0.0 && n >= 0.0 ==> letter == Letter((n / SquareSize).Floor % 5, (e / SquareSize).Floor % 5)
  {
    var x := GridIndex(e);
    var y := GridIndex(n);
    var kx := Rem(x, 5);
    var ky := Rem(y, 5);
    Letter(ky, kx)
  }

  /** The offset of the south-west corner of the square named by b; unknown characters give the origin. */
  function GridSquareToOffset(b: char): (r: GridOffset)
    ensures 0.0 <= r.easting <= 400000.0 && 0.0 <= r.northing <= 400000.0
    ensures IsWholeSquares(r.easting) && IsWholeSquares(r.northing)
  {
    var upperB := ToUpper(b);
    GridOffset(EastingOfLetter(upperB), NorthingOfLetter(upperB))
  }

  /**
   * Less than one square west or south of the origin the cast truncates the
   * index to 0, so such a point is given the letter of the point moved onto
   * the axis.
   */
  lemma TruncationBand(e: real, n: real)
    requires -SquareSize < e && -SquareSize < n
    ensures IndicesInTable(e, n)
    ensures GridToGridSquare(e, n) == GridToGridSquare(if e < 0.0 then 0.0 else e, if n < 0.0 then 0.0 else n)
  {
    var e', n' := if e < 0.0 then 0.0 else e, if n < 0.0 then 0.0 else n;
    if e < 0.0 {
      NegativeWithinOneSquareTruncatesToZero(e);
    }
    if n < 0.0 {
      NegativeWithinOneSquareTruncatesToZero(n);
    }
    assert GridIndex(e) == GridIndex(e') && GridIndex(n) == GridIndex(n');
  }

  /** One to five squares west of the origin the column index is negative, so the lookup throws. */
  lemma WestOfOriginLeavesTable(e: real, n: real)
    requires -5.0 * SquareSize < e <= -SquareSize
    ensures !IndicesInTable(e, n)
  {
    NegativeIndexLeavesTable(e);
  }

  /**
   * Five to six squares west of the origin the index is -5, whose Java
   * remainder is 0: the point is answered with the letter of column 0.
   */
  lemma {:induction false} FiveSquaresWestAnswered(e: real, n: real)
    requires -6.0 * SquareSize < e <= -5.0 * SquareSize && n >= 0.0
    ensures IndicesInTable(e, n)
    ensures GridToGridSquare(e, n) == GridToGridSquare(0.0, n)
  {
    assert 5.0 <= -e / 100000.0 < 6.0;
    assert GridIndex(e) == -5;
    assert Rem(-5, 5) == 0;
  }

  /** Lower-case letters name the same square as their upper-case forms. */
  lemma CaseInsensitive(b: char)
    ensures GridSquareToOffset(b) == GridSquareToOffset(ToUpper(b))
  {
    ToUpperIdempotent(b);
  }

  /**
   * The letter at row r, column c of the table names the square 100 km per
   * column east and 100 km per row north of the origin; any character that
   * is not one of the 25 letters in either case names the origin square.
   */
  lemma LetterOffset(b: char)
    ensures IsGridLetter(ToUpper(b)) ==>
              exists row, col :: 0 <= row < 5 && 0 <= col < 5 && Letter(row, col) == ToUpper(b)
                && GridSquareToOffset(b) == GridOffset(SquareSize * col as real, SquareSize * row as real)
    ensures !IsGridLetter(ToUpper(b)) ==> GridSquareToOffset(b) == GridOffset(0.0, 0.0)
  {
    if IsGridLetter(ToUpper(b)) {
      var row, col := SquarePosition(ToUpper(b));
      ToUpperIdempotent(b);
    } else {
      OtherCharactersContributeNothing(ToUpper(b));
    }
  }

  /** Round trip: any point inside the square named by a table letter is given back that letter. */
  lemma {:induction false} RoundTrip(b: char, dx: real, dy: real)
    requires IsGridLetter(b)
    requires 0.0 <= dx < SquareSize && 0.0 <= dy < SquareSize
    ensures var r := GridSquareToOffset(b);
            GridToGridSquare(r.easting + dx, r.northing + dy) == b
  {
    var row, col := SquarePosition(b);
    var e := SquareSize * col as real + dx;
    var n := SquareSize * row as real + dy;
    IndexWithinSquare(col, dx);
    IndexWithinSquare(row, dy);
    assert GridToGridSquare(e, n) == Letter(row, col);
    assert GridSquareToOffset(b).easting + dx == e;
    assert GridSquareToOffset(b).northing + dy == n;
  }

  /** Moving a point one 500 km block east or north does not change its letter. */
  lemma {:induction false} Periodic(e: real, n: real)
    requires e >= 0.0 && n >= 0.0
    ensures GridToGridSquare(e + BlockSize, n) == GridToGridSquare(e, n)
    ensures GridToGridSquare(e, n + BlockSize) == GridToGridSquare(e, n)
  {
    ShiftByBlock(e);
    ShiftByBlock(n);
  }

  /** A block further along, the square index grows by exactly 5. */
  lemma {:induction false} ShiftByBlock(v: real)
    requires v >= 0.0
    ensures ((v + BlockSize) / SquareSize).Floor == (v / SquareSize).Floor + 5
    ensures ((v + BlockSize) / SquareSize).Floor % 5 == (v / SquareSize).Floor % 5
  {
    assert (v + BlockSize) / SquareSize == v / SquareSize + 5.0;
  }

  /**
   * Decoding the letter of a point gives the corner of its square reduced to
   * the first block: 100 km times the square indices taken modulo 5.
   */
  lemma DecodeAfterEncode(e: real, n: real)
    requires e >= 0.0 && n >= 0.0
    ensures var x, y := (e / SquareSize).Floor, (n / SquareSize).Floor;
            GridSquareToOffset(GridToGridSquare(e, n)) == GridOffset(SquareSize * (x % 5) as real, SquareSize * (y % 5) as real)
  {
    var x, y := (e / SquareSize).Floor, (n / SquareSize).Floor;
    var letter := GridToGridSquare(e, n);
    TableLetterOffset(y % 5, x % 5);
    assert ToUpper(letter) == letter;
  }
}
