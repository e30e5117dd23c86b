/** What a written FEN looks like, character by character: section 16.1 of the PGN Specification
    (packages/chess-core/src/fen.ts, packages/chess-core/src/castling.ts). */
module FenWriting {
  import opened Common
  import opened ChessTypes
  import opened Geometry
  import opened Text
  import opened CastlingField
  import opened Fen
  import opened FenRoundTrip
  import opened FenReading

  // ---- one rank

  function RankCells(b: Board, r: int): seq<Cell>
    requires 0 <= r < 8
  {
    seq(8, f requires 0 <= f < 8 => b[16 * r + f])
  }

  predicate NoAdjacentDigits(text: string) {
    forall i :: 0 <= i < |text| - 1 ==> !(IsDigit(text[i]) && IsDigit(text[i + 1]))
  }

  lemma ManIsNoDigit(p: Piece)
    ensures !IsDigit(PieceChar(p))
  {
  }

  lemma NoneAdjacentAfter(head: string, ch: char, rest: string)
    requires |head| <= 1 && !IsDigit(ch) && NoAdjacentDigits(rest)
    ensures NoAdjacentDigits(head + [ch] + rest)
  {
    var text := head + [ch] + rest;
    forall i | 0 <= i < |text| - 1 ensures !(IsDigit(text[i]) && IsDigit(text[i + 1])) {
      if i > |head| {
        assert text[i] == rest[i - |head| - 1] && text[i + 1] == rest[i - |head|];
      }
    }
  }

  lemma {:induction false} DigitsApart(b: Board, r: int, f: nat, empty: nat)
    requires 0 <= r < 8 && empty <= f <= 8
    ensures NoAdjacentDigits(RankFrom(b, r, f, empty))
    decreases 8 - f
  {
    if f < 8 {
      var cell := b[MakeSquare(f, r)];
      if cell.None? {
        DigitsApart(b, r, f + 1, empty + 1);
      } else {
        DigitsApart(b, r, f + 1, 0);
        ManIsNoDigit(cell.value);
        NoneAdjacentAfter(DigitsOf(empty), PieceChar(cell.value), RankFrom(b, r, f + 1, 0));
      }
    }
  }

  const BARE: Board := seq(128, _ => None)

  lemma {:induction false} PutIs(acc: Board, b: Board, r: int, k: nat)
    requires 0 <= r < 8 && k < 8 && acc[16 * r + k].None?
    ensures Put(acc, b, r, 0)[16 * r + k] == b[16 * r + k]
  {
    SquareIs(16 * r + k, k, r);
    PutCell(acc, b, r, 0, 16 * r + k);
  }

  /** A rank is written with its men's letters and its empty runs counted, never split. */
  lemma RanksAreSpelled(b: Board, r: int)
    requires 0 <= r < 8
    ensures Spelled(RankFrom(b, r, 0, 0)) == Some(RankCells(b, r)) && NoAdjacentDigits(RankFrom(b, r, 0, 0))
  {
    var text := RankFrom(b, r, 0, 0);
    DigitsApart(b, r, 0, 0);
    RankReadsBack(b, r, 0, 0, BARE);
    RowReadsExactly(text, r, 0, BARE, 0);
    var cells := Spelled(text).value;
    forall k: nat | k < 8 ensures cells[k] == RankCells(b, r)[k] {
      RowReadsExactly(text, r, 0, BARE, 16 * r + k);
      PutIs(BARE, b, r, k);
    }
    assert cells == RankCells(b, r);
  }

  // ---- the board

  /** Eight ranks, the eighth first, with slashes between. */
  lemma BoardsAreSpelled(b: Board) returns (rows: seq<string>)
    ensures |rows| == 8 && BoardText(b) == Join(rows, '/')
    ensures forall i :: 0 <= i < 8 ==> Spelled(rows[i]) == Some(RankCells(b, 7 - i)) && NoAdjacentDigits(rows[i])
  {
    rows := RankTexts(b, 8);
    RankTextsAt(b, 8, 0);
    forall i | 0 <= i < 8
      ensures Spelled(rows[i]) == Some(RankCells(b, 7 - i)) && NoAdjacentDigits(rows[i])
    {
      RankTextsAt(b, 8, i);
      RanksAreSpelled(b, 7 - i);
    }
  }

  // ---- castling rights

  /** A right is written by its side when no own rook stands further out, else by its rook's file. */
  ghost predicate WrittenRight(b: Board, c: Color, side: CastlingSide, f: RookFile, text: string) {
    if f == NO_ROOK then text == ""
    else if exists e :: RookHome(b, c, e) && OnSide(side, f, e) then
      text == [if c == White then "ABCDEFGH"[f] else "abcdefgh"[f]]
    else text == [if c == White then (if side == KSide then 'K' else 'Q') else (if side == KSide then 'k' else 'q')]
  }

  lemma RightsAreSpelled(b: Board, c: Color, side: CastlingSide, f: RookFile)
    ensures WrittenRight(b, c, side, f, Letter(b, c, side, f))
  {
    forall e ensures RookHome(b, c, e) <==> RookOn(b, c, e) {
      RookIsHome(b, c, e);
    }
    if f != NO_ROOK && !IsOutermost(b, c, side, f) {
      var e :| 0 <= e < 8 && RookOn(b, c, e) && Beyond(side, e, f);
      assert RookHome(b, c, e) && OnSide(side, f, e);
    }
  }

  /** White's rights before Black's and the h-side before the a-side; a dash when there are none. */
  lemma CastlingIsSpelled(r: CastlingRights, b: Board) returns (wk: string, wq: string, bk: string, bq: string)
    ensures WrittenRight(b, White, KSide, r.w.k, wk) && WrittenRight(b, White, QSide, r.w.q, wq)
    ensures WrittenRight(b, Black, KSide, r.b.k, bk) && WrittenRight(b, Black, QSide, r.b.q, bq)
    ensures FormatCastlingField(r, b) == if wk + wq + bk + bq == "" then "-" else wk + wq + bk + bq
  {
    wk, wq := Letter(b, White, KSide, r.w.k), Letter(b, White, QSide, r.w.q);
    bk, bq := Letter(b, Black, KSide, r.b.k), Letter(b, Black, QSide, r.b.q);
    RightsAreSpelled(b, White, KSide, r.w.k);
    RightsAreSpelled(b, White, QSide, r.w.q);
    RightsAreSpelled(b, Black, KSide, r.b.k);
    RightsAreSpelled(b, Black, QSide, r.b.q);
  }

  // ---- numbers

  lemma DigitsAreSpelled(d: int)
    requires 0 <= d < 10
    ensures DigitChar(d) == DIGITS[d]
  {
  }

  /** The last digit is the remainder by ten, and what is before it the quotient. */
  lemma NumbersAreSpelled(n: nat)
    ensures if n < 10 then NatText(n) == [DIGITS[n]] else NatText(n) == NatText(n / 10) + [DIGITS[n % 10]]
  {
    DigitsAreSpelled(n % 10);
  }

  // ---- the whole record

  function PocketLetters(kinds: seq<Kind>, c: Color): string {
    seq(|kinds|, i requires 0 <= i < |kinds| => PieceChar(Piece(c, kinds[i])))
  }

  lemma PocketsAreSpelled(s: State)
    ensures PlacementText(s) == BoardText(s.board) +
              if s.variant == Crazyhouse
              then "[" + PocketLetters(s.pockets.w, White) + PocketLetters(s.pockets.b, Black) + "]"
              else ""
  {
    assert UpperKinds(s.pockets.w) == PocketLetters(s.pockets.w, White);
    assert LowerKinds(s.pockets.b) == PocketLetters(s.pockets.b, Black);
  }

  /** Board, with the pockets in brackets in Crazyhouse; side to move, rights, en-passant square; in Three-Check the
      checks still to give; halfmove clock and move number: one space apart. */
  lemma FensAreSpelled(s: State) returns (fields: seq<string>)
    ensures |fields| == (if s.variant == ThreeCheck then 7 else 6)
    ensures ToFen(s) == Join(fields, ' ') && fields[0] == PlacementText(s)
    ensures fields[1] == (if s.turn == White then "w" else "b")
    ensures fields[2] == FormatCastlingField(s.castling, s.board)
    ensures fields[3] == (if s.epSquare == -1 then "-" else SquareName(s.epSquare))
    ensures s.variant == ThreeCheck ==>
              fields[4] == IntText(3 - s.checkCount.w) + "+" + IntText(3 - s.checkCount.b)
    ensures fields[|fields| - 2] == IntText(s.halfmoves) && fields[|fields| - 1] == IntText(s.fullmoves)
  {
    fields := FenFields(s);
    FenFieldsAt(s);
  }
}
