/** The FEN writer's and reader's own loops (packages/chess-core/src/fen.ts). */
module FenCodec {
  import opened Common
  import opened ChessTypes
  import opened Geometry
  import opened Text
  import opened CastlingField
  import opened Fen

  lemma {:induction false} JoinAppend(parts: seq<string>, c: char, last: string)
    requires parts != []
    ensures Join(parts + [last], c) == Join(parts, c) + [c] + last
  {
    if |parts| > 1 {
      JoinAppend(parts[1..], c, last);
      assert (parts + [last])[1..] == parts[1..] + [last];
    } else {
      assert (parts + [last])[1..] == [last];
    }
  }

  /** What one more square adds to the text of a rank. */
  lemma RankGrows(b: Board, r: int, f: nat, empty: nat, text: string)
    requires 0 <= r < 8 && empty <= f < 8 && 0 <= MakeSquare(f, r) < 128
    ensures var cell := b[MakeSquare(f, r)];
            text + RankFrom(b, r, f, empty) ==
            if cell.None? then text + RankFrom(b, r, f + 1, empty + 1)
            else text + DigitsOf(empty) + [PieceChar(cell.value)] + RankFrom(b, r, f + 1, 0)
  {
    var cell := b[MakeSquare(f, r)];
    if cell.Some? {
      var digits, man, rest := DigitsOf(empty), [PieceChar(cell.value)], RankFrom(b, r, f + 1, 0);
      assert RankFrom(b, r, f, empty) == digits + man + rest;
      assert text + (digits + man + rest) == text + digits + man + rest;
    }
  }

  method WriteRank(b: Board, r: int) returns (text: string)
    requires 0 <= r < 8
    ensures text == RankFrom(b, r, 0, 0)
  {
    text := "";
    var empty := 0;
    ghost var whole := RankFrom(b, r, 0, 0);
    assert whole == text + whole;
    for f := 0 to 8
      invariant 0 <= empty <= f
      invariant whole == text + RankFrom(b, r, f, empty)
    {
      CoordinatesSquare(f, r);
      RankGrows(b, r, f, empty, text);
      var cell := b[MakeSquare(f, r)];
      if cell.None? {
        empty := empty + 1;
      } else {
        ghost var digits := DigitsOf(empty);
        ghost var before := text;
        if empty > 0 {
          text, empty := text + [DigitChar(empty)], 0;
        }
        assert text == before + digits;
        text := text + [PieceChar(cell.value)];
      }
    }
    assert whole == text + DigitsOf(empty);
    if empty > 0 {
      text := text + [DigitChar(empty)];
    }
  }

  method WriteBoard(b: Board) returns (placement: string)
    ensures placement == BoardText(b)
  {
    placement := "";
    ghost var n := 0;
    var r := 7;
    while r >= 0
      invariant -1 <= r <= 7 && n == 7 - r
      invariant placement == if n == 0 then "" else Join(RankTexts(b, n), '/') + if n < 8 then "/" else ""
      decreases r
    {
      var rank := WriteRank(b, r);
      if n > 0 {
        JoinAppend(RankTexts(b, n), '/', rank);
      }
      placement := placement + rank;
      if r > 0 {
        placement := placement + "/";
      }
      r, n := r - 1, n + 1;
    }
  }

  method WriteFen(s: State) returns (fen: string)
    ensures fen == ToFen(s)
  {
    var placement := WriteBoard(s.board);
    if s.variant == Crazyhouse {
      placement := placement + ("[" + UpperKinds(s.pockets.w) + LowerKinds(s.pockets.b) + "]");
    }
    assert placement == PlacementText(s);
    var castling := WriteCastlingField(s.castling, s.board);
    var ep := if s.epSquare == -1 then "-" else SquareName(s.epSquare);
    var fields := [placement, TurnText(s.turn), castling, ep];
    if s.variant == ThreeCheck {
      fields := fields + [FormatRemaining(s.checkCount)];
    }
    fields := fields + [IntText(s.halfmoves), IntText(s.fullmoves)];
    ghost var checks := if s.variant == ThreeCheck then [FormatRemaining(s.checkCount)] else [];
    assert fields == [placement, TurnText(s.turn), castling, ep] + checks
        + [IntText(s.halfmoves), IntText(s.fullmoves)];
    fen := Join(fields, ' ');
  }

  method ReadRow(row: string, r: int, board: array<Cell>) returns (error: Option<FenError>)
    requires 0 <= r < 8 && board.Length == 128
    modifies board
    ensures (if error.None? then Ok(board[..]) else Err(error.value)) == ParseRow(row, r, 0, old(board[..]))
  {
    var file := 0;
    ghost var was: Board := board[..];
    for i := 0 to |row|
      invariant file >= 0
      invariant ParseRow(row, r, 0, was) == ParseRow(row[i..], r, file, board[..])
    {
      var ch := row[i];
      assert row[i..][0] == ch && row[i..][1..] == row[i + 1..];
      if '1' <= ch <= '8' {
        file := file + DigitValue(ch);
      } else if PieceOfChar(ch).Some? {
        if file > 7 {
          return Some(RankOverflow);
        }
        board[MakeSquare(file, r)] := PieceOfChar(ch);
        file := file + 1;
      } else {
        return Some(IllegalCharacter);
      }
    }
    if file != 8 {
      return Some(RankNotFilled);
    }
    error := None;
  }

  method ReadBoard(text: string) returns (result: Result<Board, FenError>)
    ensures result == ParseBoard(text)
  {
    var rows := SplitOn(text, '/');
    if |rows| != 8 {
      return Err(RankCount);
    }
    var board := new Cell[128](_ => None);
    ghost var blank: Board := seq(128, _ => None);
    assert board[..] == blank;
    for k := 0 to 8
      invariant ParseRows(rows, k) == Ok(board[..])
    {
      ghost var was: Board := board[..];
      var error := ReadRow(rows[k], 7 - k, board);
      assert ParseRows(rows, k + 1) == ParseRow(rows[k], 7 - k, 0, was);
      if error.Some? {
        ErrorStays(rows, k + 1, 8);
        return Err(error.value);
      }
    }
    result := Ok(board[..]);
  }

  lemma {:induction false} ErrorStays(rows: seq<string>, k: nat, n: nat)
    requires k <= n <= |rows| == 8 && ParseRows(rows, k).Err?
    ensures ParseRows(rows, n) == ParseRows(rows, k)
  {
    if k < n {
      ErrorStays(rows, k, n - 1);
    }
  }

  method ReadPockets(text: string) returns (result: Result<Pockets, FenError>)
    ensures result == ParsePockets(text)
  {
    var w: seq<Kind>, b: seq<Kind> := [], [];
    for i := 0 to |text|
      invariant ParsePockets(text[..i]) == Ok(Pockets(w, b))
    {
      assert text[..i + 1][..i] == text[..i];
      var k := KindOfChar(Lower(text[i]));
      if k.None? {
        PocketErrorStays(text, i + 1);
        return Err(BadPocketLetter);
      }
      if ColorOfChar(text[i]) == White {
        w := w + [k.value];
      } else {
        b := b + [k.value];
      }
    }
    assert text[..|text|] == text;
    result := Ok(Pockets(w, b));
  }

  lemma {:induction false} PocketErrorStays(text: string, k: nat)
    requires k <= |text| && ParsePockets(text[..k]).Err?
    ensures ParsePockets(text) == ParsePockets(text[..k])
    decreases |text|
  {
    if k < |text| {
      var n := |text| - 1;
      assert text[..n][..k] == text[..k];
      PocketErrorStays(text[..n], k);
    } else {
      assert text[..k] == text;
    }
  }

  method ReadFen(fen: string, v: Variant) returns (result: Result<State, FenError>)
    ensures result == ParseFen(fen, v)
  {
    var parts := Fields(fen);
    if |parts| < 4 {
      return Err(TooFewFields);
    }
    var layout := ReadCheckLayout(parts, v);
    if layout.Err? {
      return Err(layout.error);
    }
    var half := ReadClock(layout.value.halfmoveToken, 0);
    if half.Err? {
      return Err(half.error);
    }
    var full := ReadClock(layout.value.fullmoveToken, 1);
    if full.Err? {
      return Err(full.error);
    }
    var (pocketText, boardText) := SplitPlacement(parts[0]);
    var pockets := ReadPockets(pocketText);
    if pockets.Err? {
      return Err(pockets.error);
    }
    var board := ReadBoard(boardText);
    if board.Err? {
      return Err(board.error);
    }
    if parts[1] != "w" && parts[1] != "b" {
      return Err(BadTurn);
    }
    var castling := ReadCastlingField(parts[2], board.value);
    var ep := if parts[3] == "-" then -1 else SquareFromName(parts[3]);
    result := Ok(State(board.value, if parts[1] == "w" then White else Black, castling, ep,
                       half.value, if full.value > 0 then full.value else 1,
                       pockets.value, layout.value.delivered, v));
  }
}
