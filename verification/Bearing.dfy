/** What each man bears on, in files and ranks (Articles 3.2 to 3.8 of the FIDE Laws of Chess), and that the
    offset tables of the program say the same (packages/chess-core/src/board.ts). */
module Bearing {
  import opened ChessTypes
  import opened Geometry
  import opened Attack

  function Abs(x: int): int { if x < 0 then -x else x }

  function Longer(x: int, y: int): int { if x < y then y else x }

  /** A square as its file and its rank. */
  datatype Place = Place(file: int, rank: int)

  function PlaceOf(sq: int): Place { Place(FileOf(sq), RankOf(sq)) }

  function SquareAt(p: Place): int { 16 * p.rank + p.file }

  predicate OnTheBoard(p: Place) {
    0 <= p.file < 8 && 0 <= p.rank < 8
  }

  function Files(a: Place, c: Place): int { c.file - a.file }

  function Ranks(a: Place, c: Place): int { c.rank - a.rank }

  /** How many king's steps lie between the two. */
  function Distance(a: Place, c: Place): int {
    Longer(Abs(Files(a, c)), Abs(Ranks(a, c)))
  }

  /** `k` steps from x toward y. */
  function Toward(x: int, y: int, k: int): int {
    if x < y then x + k else if x > y then x - k else x
  }

  /** The place `k` steps from `a` toward `c`. */
  function Along(a: Place, c: Place, k: int): Place {
    Place(Toward(a.file, c.file, k), Toward(a.rank, c.rank, k))
  }

  predicate OnOneLine(a: Place, c: Place) {
    a != c && (a.file == c.file || a.rank == c.rank)
  }

  predicate OnOneDiagonal(a: Place, c: Place) {
    a != c && Abs(Files(a, c)) == Abs(Ranks(a, c))
  }

  predicate EmptyAt(b: Board, p: Place) {
    OnTheBoard(p) ==> b[SquareAt(p)].None?
  }

  predicate NothingBetween(b: Board, a: Place, c: Place) {
    forall k :: 0 < k < Distance(a, c) ==> EmptyAt(b, Along(a, c, k))
  }

  /** White's pawns go up the board. */
  function Up(c: Color): int {
    if c == White then 1 else -1
  }

  predicate BearsOn(b: Board, p: Piece, a: Place, c: Place) {
    match p.kind
    case Pawn => Ranks(a, c) == Up(p.color) && Abs(Files(a, c)) == 1
    case Knight => (Abs(Files(a, c)) == 1 && Abs(Ranks(a, c)) == 2) || (Abs(Files(a, c)) == 2 && Abs(Ranks(a, c)) == 1)
    case King => Distance(a, c) == 1
    case Bishop => OnOneDiagonal(a, c) && NothingBetween(b, a, c)
    case Rook => OnOneLine(a, c) && NothingBetween(b, a, c)
    case Queen => (OnOneDiagonal(a, c) || OnOneLine(a, c)) && NothingBetween(b, a, c)
  }

  /** Some man of `who` bears on the square. */
  ghost predicate Threatened(b: Board, sq: int, who: Color) {
    exists a :: OnBoard(a) && b[a].Some? && b[a].value.color == who && BearsOn(b, b[a].value, PlaceOf(a), PlaceOf(sq))
  }

  // ---- squares and places

  lemma PlacesAreSquares(sq: int)
    requires OnBoard(sq)
    ensures OnTheBoard(PlaceOf(sq)) && SquareAt(PlaceOf(sq)) == sq
  {
    SquareCoordinates(sq);
  }

  /** Off the board by at most eight files is off the board by index too. */
  lemma SquaresAreOnBoard(p: Place)
    requires -8 <= p.file < 16
    ensures OnBoard(SquareAt(p)) <==> OnTheBoard(p)
    ensures OnTheBoard(p) ==> PlaceOf(SquareAt(p)) == p
  {
    var sq := SquareAt(p);
    if p.file < 0 {
      Sixteenths(sq, p.rank - 1, p.file + 16);
    } else {
      Sixteenths(sq, p.rank, p.file);
    }
    if OnTheBoard(p) {
      CoordinatesSquare(p.file, p.rank);
    }
  }

  lemma KnightDeltas(f: int, r: int)
    requires -8 < f < 8 && -8 < r < 8
    ensures IsKnightJump(16 * r + f) <==> (Abs(f) == 1 && Abs(r) == 2) || (Abs(f) == 2 && Abs(r) == 1)
  {
  }

  lemma KingDeltas(f: int, r: int)
    requires -8 < f < 8 && -8 < r < 8
    ensures IsKingStep(16 * r + f) <==> Longer(Abs(f), Abs(r)) == 1
  {
  }

  lemma PawnDeltas(f: int, r: int)
    requires -8 < f < 8 && -8 < r < 8
    ensures 16 * r + f == 15 || 16 * r + f == 17 <==> r == 1 && Abs(f) == 1
    ensures 16 * r + f == -15 || 16 * r + f == -17 <==> r == -1 && Abs(f) == 1
  {
  }

  lemma LeapersByOffset(p: Piece, b: Board, a: Place, c: Place)
    requires OnTheBoard(a) && OnTheBoard(c) && p.kind in {Pawn, Knight, King}
    ensures OnBoard(SquareAt(a))
    ensures Bears(b, SquareAt(a), p, SquareAt(c)) <==> BearsOn(b, p, a, c)
  {
    SquaresAreOnBoard(a);
    var f, r := Files(a, c), Ranks(a, c);
    assert SquareAt(c) - SquareAt(a) == 16 * r + f;
    KnightDeltas(f, r);
    KingDeltas(f, r);
    PawnDeltas(f, r);
  }

  // ---- lines

  predicate Unit(files: int, ranks: int) {
    -1 <= files <= 1 && -1 <= ranks <= 1 && !(files == 0 == ranks)
  }

  function Times(n: int, unit: int): int {
    if unit == 0 then 0 else if unit > 0 then n else -n
  }

  /** `c` lies off `a` in the direction of so many files and ranks. */
  predicate InDirection(a: Place, c: Place, files: int, ranks: int) {
    a != c && Files(a, c) == Times(Distance(a, c), files) && Ranks(a, c) == Times(Distance(a, c), ranks)
  }

  function NextTo(a: Place, files: int, ranks: int): Place {
    Place(a.file + files, a.rank + ranks)
  }

  /** One step in the direction of `c` is the first place along the way, and the rest follow from there. */
  lemma OneStep(a: Place, c: Place, files: int, ranks: int)
    requires Unit(files, ranks)
    ensures var x := NextTo(a, files, ranks);
            && (InDirection(a, c, files, ranks) <==> x == c || (InDirection(x, c, files, ranks) && Distance(x, c) > 0))
            && (InDirection(a, c, files, ranks) ==> x == Along(a, c, 1) && Distance(a, c) == Distance(x, c) + 1)
  {
  }

  lemma AlongFromThere(a: Place, c: Place, files: int, ranks: int, k: int)
    requires Unit(files, ranks) && InDirection(a, c, files, ranks) && 1 <= k <= Distance(a, c)
    ensures Along(NextTo(a, files, ranks), c, k - 1) == Along(a, c, k)
  {
  }

  lemma BetweenFromThere(b: Board, a: Place, c: Place, files: int, ranks: int)
    requires Unit(files, ranks) && InDirection(a, c, files, ranks) && NextTo(a, files, ranks) != c
    ensures var x := NextTo(a, files, ranks); NothingBetween(b, a, c) <==> EmptyAt(b, x) && NothingBetween(b, x, c)
  {
    var x := NextTo(a, files, ranks);
    OneStep(a, c, files, ranks);
    if NothingBetween(b, a, c) {
      assert EmptyAt(b, Along(a, c, 1));
      forall k | 0 < k < Distance(x, c) ensures EmptyAt(b, Along(x, c, k)) {
        AlongFromThere(a, c, files, ranks, k + 1);
      }
    }
    if EmptyAt(b, x) && NothingBetween(b, x, c) {
      forall k | 0 < k < Distance(a, c) ensures EmptyAt(b, Along(a, c, k)) {
        AlongFromThere(a, c, files, ranks, k);
        assert k > 1 ==> EmptyAt(b, Along(x, c, k - 1));
      }
    }
  }

  lemma NextSquare(a: Place, files: int, ranks: int)
    requires OnTheBoard(a) && Unit(files, ranks)
    ensures var off := 16 * ranks + files; var x := NextTo(a, files, ranks);
            off != 0 && SquareAt(a) + off == SquareAt(x) && (OnBoard(SquareAt(x)) <==> OnTheBoard(x))
    ensures OnBoard(SquareAt(a))
  {
    SquaresAreOnBoard(NextTo(a, files, ranks));
    SquaresAreOnBoard(a);
  }

  lemma SamePlace(a: Place, c: Place)
    requires OnTheBoard(a) && OnTheBoard(c)
    ensures SquareAt(a) == SquareAt(c) <==> a == c
  {
  }

  /** The way to a place on the board stays on it. */
  lemma StaysOn(a: Place, c: Place, files: int, ranks: int)
    requires OnTheBoard(a) && OnTheBoard(c) && Unit(files, ranks) && InDirection(a, c, files, ranks)
    ensures OnTheBoard(NextTo(a, files, ranks))
  {
  }

  lemma LineFromThere(b: Board, a: Place, files: int, ranks: int, c: Place)
    requires OnTheBoard(a) && OnTheBoard(c) && Unit(files, ranks)
    ensures var x := NextTo(a, files, ranks);
            InDirection(a, c, files, ranks) && NothingBetween(b, a, c) <==>
              OnTheBoard(x) && (x == c || (EmptyAt(b, x) && InDirection(x, c, files, ranks) && NothingBetween(b, x, c)))
  {
    OneStep(a, c, files, ranks);
    if InDirection(a, c, files, ranks) {
      StaysOn(a, c, files, ranks);
      if NextTo(a, files, ranks) == c {
        assert NothingBetween(b, a, c);
      } else {
        BetweenFromThere(b, a, c, files, ranks);
      }
    }
  }

  /** Walking in steps of an offset reaches a square exactly when it lies that way with nothing between. */
  lemma {:induction false} RayIsLine(b: Board, a: Place, files: int, ranks: int, c: Place)
    requires OnTheBoard(a) && OnTheBoard(c) && Unit(files, ranks)
    ensures OnBoard(SquareAt(a)) && 16 * ranks + files != 0
    ensures Reaches(b, SquareAt(a), 16 * ranks + files, SquareAt(c)) <==>
              InDirection(a, c, files, ranks) && NothingBetween(b, a, c)
    decreases if 16 * ranks + files > 0 then 128 - SquareAt(a) else SquareAt(a) + 1
  {
    var x := NextTo(a, files, ranks);
    NextSquare(a, files, ranks);
    LineFromThere(b, a, files, ranks, c);
    if OnTheBoard(x) {
      SamePlace(x, c);
      RayIsLine(b, x, files, ranks, c);
    }
  }

  lemma LinesAndDiagonals(a: Place, c: Place)
    ensures OnOneLine(a, c) <==>
            InDirection(a, c, 0, 1) || InDirection(a, c, 0, -1) || InDirection(a, c, 1, 0) || InDirection(a, c, -1, 0)
    ensures OnOneDiagonal(a, c) <==>
            InDirection(a, c, 1, 1) || InDirection(a, c, -1, 1) || InDirection(a, c, -1, -1) || InDirection(a, c, 1, -1)
  {
  }

  lemma StraightByOffset(b: Board, a: Place, c: Place)
    requires OnTheBoard(a) && OnTheBoard(c)
    ensures OnBoard(SquareAt(a))
    ensures ReachesStraight(b, SquareAt(a), SquareAt(c)) <==> OnOneLine(a, c) && NothingBetween(b, a, c)
  {
    LinesAndDiagonals(a, c);
    RayIsLine(b, a, 0, 1, c);
    RayIsLine(b, a, 0, -1, c);
    RayIsLine(b, a, 1, 0, c);
    RayIsLine(b, a, -1, 0, c);
  }

  lemma DiagonallyByOffset(b: Board, a: Place, c: Place)
    requires OnTheBoard(a) && OnTheBoard(c)
    ensures OnBoard(SquareAt(a))
    ensures ReachesDiagonally(b, SquareAt(a), SquareAt(c)) <==> OnOneDiagonal(a, c) && NothingBetween(b, a, c)
  {
    LinesAndDiagonals(a, c);
    RayIsLine(b, a, 1, 1, c);
    RayIsLine(b, a, -1, 1, c);
    RayIsLine(b, a, -1, -1, c);
    RayIsLine(b, a, 1, -1, c);
  }

  /** A man bears by the offset tables on exactly the squares it bears on by files and ranks. */
  lemma BearsByCoordinates(b: Board, p: Piece, a: int, c: int)
    requires OnBoard(a) && OnBoard(c)
    ensures Bears(b, a, p, c) <==> BearsOn(b, p, PlaceOf(a), PlaceOf(c))
  {
    PlacesAreSquares(a);
    PlacesAreSquares(c);
    if p.kind in {Pawn, Knight, King} {
      LeapersByOffset(p, b, PlaceOf(a), PlaceOf(c));
    } else {
      StraightByOffset(b, PlaceOf(a), PlaceOf(c));
      DiagonallyByOffset(b, PlaceOf(a), PlaceOf(c));
    }
  }

  /** The program's attack test answers by files and ranks. */
  lemma AttackedIsThreatened(b: Board, sq: int, who: Color)
    requires OnBoard(sq)
    ensures Attacked(b, sq, who) <==> Threatened(b, sq, who)
  {
    if Attacked(b, sq, who) {
      var a :| AttacksFrom(b, a, who, sq);
      BearsByCoordinates(b, b[a].value, a, sq);
    }
    if Threatened(b, sq, who) {
      var a :| OnBoard(a) && b[a].Some? && b[a].value.color == who &&
               BearsOn(b, b[a].value, PlaceOf(a), PlaceOf(sq));
      BearsByCoordinates(b, b[a].value, a, sq);
      assert AttacksFrom(b, a, who, sq);
    }
  }
}
