/**
 * The 100 km grid-square lettering shared by the British and the Irish grids:
 * a 5x5 table of the letters A-Z without I, and the two switch tables that
 * map a letter back to the easting and northing of its square within a
 * 500 km block.
 */
module GridLetters {

  import opened JavaArith

  /** The easting and northing of the south-west corner of a grid square, in metres from the false origin. */
  datatype GridOffset = GridOffset(easting: real, northing: real)

  /** Side of one grid square, in metres. */
  const SquareSize: real := 100000.0

  /** Side of one 500 km block of 5x5 squares, after which the lettering repeats. */
  const BlockSize: real := 500000.0

  /** Row r (counted northwards) and column c (counted eastwards) hold the letter of that square. */
  const Table: seq<string> := ["VWXYZ", "QRSTU", "LMNOP", "FGHJK", "ABCDE"]

  /** The 25 letters that appear in the table. */
  predicate IsGridLetter(c: char) {
    'A' <= c <= 'Z' && c != 'I'
  }

  /**
   * The entry at row `row`, column `col` of the table. Read from the top row
   * down, the table lists A-Z without I in order, so the entry is the
   * (5 (4 - row) + col)-th of those letters, counting from 0.
   */
  function Letter(row: int, col: int): (c: char)
    requires 0 <= row < 5 && 0 <= col < 5
    ensures IsGridLetter(c)
  {
    var i := (4 - row) * 5 + col;
    ('A' as int + i + (if i >= 8 then 1 else 0)) as char
  }

  /** Letter agrees with the table at every one of the 25 positions. */
  lemma LetterIsTableEntry(row: int, col: int)
    requires 0 <= row < 5 && 0 <= col < 5
    ensures Letter(row, col) == Table[row][col]
  {
  }

  /** The easting switch: 100 km for each column of the letter's square, nothing for any other character. */
  function EastingOfLetter(b: char): real {
    match b
    case 'A' | 'F' | 'L' | 'Q' | 'V' => 0.0
    case 'B' | 'G' | 'M' | 'R' | 'W' => 100000.0
    case 'C' | 'H' | 'N' | 'S' | 'X' => 200000.0
    case 'D' | 'J' | 'O' | 'T' | 'Y' => 300000.0
    case 'E' | 'K' | 'P' | 'U' | 'Z' => 400000.0
    case _ => 0.0
  }

  /** The northing switch: 100 km for each row of the letter's square, nothing for any other character. */
  function NorthingOfLetter(b: char): real {
    match b
    case 'A' | 'B' | 'C' | 'D' | 'E' => 400000.0
    case 'F' | 'G' | 'H' | 'J' | 'K' => 300000.0
    case 'L' | 'M' | 'N' | 'O' | 'P' => 200000.0
    case 'Q' | 'R' | 'S' | 'T' | 'U' => 100000.0
    case 'V' | 'W' | 'X' | 'Y' | 'Z' => 0.0
    case _ => 0.0
  }

  /** The column the easting switch assigns to a letter. */
  function ColumnOf(b: char): int {
    (EastingOfLetter(b) / SquareSize).Floor
  }

  /** The row the northing switch assigns to a letter. */
  function RowOf(b: char): int {
    (NorthingOfLetter(b) / SquareSize).Floor
  }

  /** Decoding a table letter gives back the row and column it sits at. */
  lemma {:induction false} TableLetterOffset(row: int, col: int)
    requires 0 <= row < 5 && 0 <= col < 5
    ensures EastingOfLetter(Letter(row, col)) == SquareSize * col as real
    ensures NorthingOfLetter(Letter(row, col)) == SquareSize * row as real
    ensures ColumnOf(Letter(row, col)) == col && RowOf(Letter(row, col)) == row
  {
    assert row == 0 || row == 1 || row == 2 || row == 3 || row == 4;
    assert col == 0 || col == 1 || col == 2 || col == 3 || col == 4;
  }

  /** Every one of the 25 letters sits in the table at the row and column the switches give it. */
  lemma LetterAtSwitchPosition(b: char)
    requires IsGridLetter(b)
    ensures 0 <= RowOf(b) < 5 && 0 <= ColumnOf(b) < 5
    ensures Letter(RowOf(b), ColumnOf(b)) == b
  {
  }

  /** The row and column of one of the 25 letters, with the offsets its switches give it. */
  lemma SquarePosition(b: char) returns (row: int, col: int)
    requires IsGridLetter(b)
    ensures 0 <= row < 5 && 0 <= col < 5 && Letter(row, col) == b
    ensures EastingOfLetter(b) == SquareSize * col as real
    ensures NorthingOfLetter(b) == SquareSize * row as real
    ensures ToUpper(b) == b
  {
    row, col := RowOf(b), ColumnOf(b);
    LetterAtSwitchPosition(b);
    TableLetterOffset(row, col);
  }

  /** 'I', digits and everything outside the 25 letters move neither easting nor northing. */
  lemma OtherCharactersContributeNothing(b: char)
    requires !IsGridLetter(b)
    ensures EastingOfLetter(b) == 0.0 && NorthingOfLetter(b) == 0.0
  {
  }

  /** v is a whole number of grid squares. */
  predicate IsWholeSquares(v: real) {
    (v / SquareSize).Floor as real * SquareSize == v
  }

  /** The 100 km index of a coordinate, as `(int)(v/100000.0)` computes it. */
  function GridIndex(v: real): (k: int)
    ensures v >= 0.0 ==> k == (v / SquareSize).Floor && k >= 0
  {
    Trunc(v / 100000.0)
  }

  /** A coordinate k squares plus less than one square from the origin has index k. */
  lemma {:induction false} IndexWithinSquare(k: int, d: real)
    requires k >= 0 && 0.0 <= d < SquareSize
    ensures GridIndex(SquareSize * k as real + d) == k
  {
    assert (SquareSize * k as real + d) / SquareSize == k as real + d / SquareSize;
  }

  /**
   * The cast truncates toward zero, so a coordinate less than one square
   * west or south of the origin gets index 0, as though it lay in the
   * square east or north of the origin.
   */
  lemma NegativeWithinOneSquareTruncatesToZero(v: real)
    requires -SquareSize < v < 0.0
    ensures GridIndex(v) == 0
  {
  }

  /**
   * Nothing corrects Java's negative remainder: a coordinate between one and
   * five squares below the origin yields a negative column or row, which the
   * table lookup rejects.
   */
  lemma {:induction false} NegativeIndexLeavesTable(v: real)
    requires -5.0 * SquareSize < v <= -SquareSize
    ensures Rem(GridIndex(v), 5) < 0
  {
    var k := GridIndex(v);
    assert -5 < k < 0;
    RemNegative(k, 5);
  }
}
