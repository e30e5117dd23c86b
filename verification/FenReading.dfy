/** What each field of a FEN says, character by character, and which FENs are refused
    (packages/chess-core/src/fen.ts, packages/chess-core/src/castling.ts, packages/chess-core/src/check-counters.ts). */
module FenReading {
  import opened Common
  import opened ChessTypes
  import opened Geometry
  import opened Text
  import opened CastlingField
  import opened Fen

  // ---- letters

  function ManOf(ch: char): Option<Piece> {
    match ch
    case 'P' => Some(Piece(White, Pawn)) case 'N' => Some(Piece(White, Knight)) case 'B' => Some(Piece(White, Bishop))
    case 'R' => Some(Piece(White, Rook)) case 'Q' => Some(Piece(White, Queen)) case 'K' => Some(Piece(White, King))
    case 'p' => Some(Piece(Black, Pawn)) case 'n' => Some(Piece(Black, Knight)) case 'b' => Some(Piece(Black, Bishop))
    case 'r' => Some(Piece(Black, Rook)) case 'q' => Some(Piece(Black, Queen)) case 'k' => Some(Piece(Black, King))
    case _ => None
  }

  lemma LettersAreMen(ch: char)
    ensures PieceOfChar(ch) == ManOf(ch)
  {
  }

  // ---- the board

  /** The cells a row spells: as many empty ones as a digit says, a man for a letter. */
  function Spelled(row: string): Option<seq<Cell>> {
    if row == "" then Some([])
    else
      var rest := Spelled(row[1..]);
      if rest.None? then None
      else if '1' <= row[0] <= '8' then Some(seq(row[0] as int - '0' as int, _ => None) + rest.value)
      else if ManOf(row[0]).Some? then Some([ManOf(row[0])] + rest.value)
      else None
  }

  function FileAfter(b: Board, r: int, f: nat, cells: seq<Cell>, sq: int): Cell
    requires 0 <= sq < 128
  {
    if 16 * r + f <= sq < 16 * r + f + |cells| && cells[sq - 16 * r - f].Some? then cells[sq - 16 * r - f] else b[sq]
  }

  lemma EmptyShifts(b: Board, r: int, f: nat, d: nat, rest: seq<Cell>, sq: int)
    requires 0 <= sq < 128
    ensures FileAfter(b, r, f + d, rest, sq) == FileAfter(b, r, f, seq(d, _ => None) + rest, sq)
  {
    var cells := seq(d, _ => None) + rest;
    var i := sq - 16 * r - f;
    if d <= i < |cells| {
      assert cells[i] == rest[i - d];
    }
  }

  lemma ManShifts(b: Board, r: int, f: nat, man: Cell, rest: seq<Cell>, sq: int)
    requires 0 <= sq < 128 && 0 <= 16 * r + f < 128 && man.Some?
    ensures FileAfter(b[16 * r + f := man], r, f + 1, rest, sq) == FileAfter(b, r, f, [man] + rest, sq)
  {
    var i := sq - 16 * r - f;
    if 1 <= i < |rest| + 1 {
      assert ([man] + rest)[i] == rest[i - 1];
    }
  }

  /** The row is read exactly when it spells as many cells as are left on the rank, and then puts its men there. */
  predicate RowReads(row: string, r: int, f: nat, b: Board, sq: int)
    requires 0 <= r < 8 && 0 <= sq < 128
  {
    && (ParseRow(row, r, f, b).Ok? <==> Spelled(row).Some? && f + |Spelled(row).value| == 8)
    && (ParseRow(row, r, f, b).Ok? ==>
          ParseRow(row, r, f, b).value[sq] == FileAfter(b, r, f, Spelled(row).value, sq))
  }

  lemma DigitReads(row: string, r: int, f: nat, b: Board, sq: int)
    requires 0 <= r < 8 && 0 <= sq < 128 && row != "" && '1' <= row[0] <= '8'
    requires RowReads(row[1..], r, f + DigitValue(row[0]), b, sq)
    ensures RowReads(row, r, f, b, sq)
  {
    if Spelled(row[1..]).Some? {
      EmptyShifts(b, r, f, DigitValue(row[0]), Spelled(row[1..]).value, sq);
    }
  }

  lemma ManReads(row: string, r: int, f: nat, b: Board, sq: int)
    requires 0 <= r < 8 && 0 <= sq < 128 && row != "" && ManOf(row[0]).Some? && f <= 7
    requires RowReads(row[1..], r, f + 1, b[MakeSquare(f, r) := ManOf(row[0])], sq)
    ensures RowReads(row, r, f, b, sq)
  {
    LettersAreMen(row[0]);
    if Spelled(row[1..]).Some? {
      ManShifts(b, r, f, ManOf(row[0]), Spelled(row[1..]).value, sq);
    }
  }

  lemma {:induction false} RowReadsExactly(row: string, r: int, f: nat, b: Board, sq: int)
    requires 0 <= r < 8 && 0 <= sq < 128
    ensures RowReads(row, r, f, b, sq)
    decreases |row|
  {
    if row != "" {
      LettersAreMen(row[0]);
      if '1' <= row[0] <= '8' {
        RowReadsExactly(row[1..], r, f + DigitValue(row[0]), b, sq);
        DigitReads(row, r, f, b, sq);
      } else if ManOf(row[0]).Some? && f <= 7 {
        RowReadsExactly(row[1..], r, f + 1, b[MakeSquare(f, r) := ManOf(row[0])], sq);
        ManReads(row, r, f, b, sq);
      }
    }
  }

  /** Every row spells eight cells. */
  predicate EightRows(rows: seq<string>) {
    |rows| == 8 && forall i :: 0 <= i < 8 ==> RowFits(rows[i])
  }

  predicate RowFits(row: string) {
    Spelled(row).Some? && |Spelled(row).value| == 8
  }

  lemma RowPutsMen(row: string, r: int, b: Board, k: nat, f: nat)
    requires 0 <= r < 8 && k < 8 && f < 8
    ensures ParseRow(row, r, 0, b).Ok? <==> RowFits(row)
    ensures ParseRow(row, r, 0, b).Ok? && b[16 * k + f].None? ==>
              ParseRow(row, r, 0, b).value[16 * k + f] == if k == r then Spelled(row).value[f] else None
    ensures ParseRow(row, r, 0, b).Ok? && k != r ==> ParseRow(row, r, 0, b).value[16 * k + f] == b[16 * k + f]
  {
    RowReadsExactly(row, r, 0, b, 16 * k + f);
  }

  predicate RowsRead(rows: seq<string>, n: nat, f: nat, k: nat)
    requires n <= |rows| == 8 && f < 8 && k < 8
  {
    && (ParseRows(rows, n).Ok? <==> forall i :: 0 <= i < n ==> RowFits(rows[i]))
    && (ParseRows(rows, n).Ok? ==>
          ParseRows(rows, n).value[16 * (7 - k) + f] == if k < n then Spelled(rows[k]).value[f] else None)
  }

  lemma OneMoreRow(rows: seq<string>, n: nat, f: nat, k: nat)
    requires n < |rows| == 8 && f < 8 && k < 8 && RowsRead(rows, n, f, k)
    ensures RowsRead(rows, n + 1, f, k)
  {
    if ParseRows(rows, n).Ok? {
      RowPutsMen(rows[n], 7 - n, ParseRows(rows, n).value, 7 - k, f);
    }
  }

  lemma {:induction false} RowsReadExactly(rows: seq<string>, n: nat, f: nat, k: nat)
    requires n <= |rows| == 8 && f < 8 && k < 8
    ensures RowsRead(rows, n, f, k)
  {
    if n > 0 {
      RowsReadExactly(rows, n - 1, f, k);
      OneMoreRow(rows, n - 1, f, k);
    }
  }

  /** A board is read exactly when it has eight rows of eight cells, the first row being the eighth rank. */
  lemma BoardReadsExactly(text: string, f: nat, r: nat)
    requires f < 8 && r < 8
    ensures ParseBoard(text).Ok? <==> EightRows(SplitOn(text, '/'))
    ensures ParseBoard(text).Ok? ==>
              ParseBoard(text).value[16 * r + f] == Spelled(SplitOn(text, '/')[7 - r]).value[f]
  {
    var rows := SplitOn(text, '/');
    if |rows| == 8 {
      RowsReadExactly(rows, 8, f, 7 - r);
    }
  }

  // ---- the pockets

  /** The kinds of one side among the letters, in order. */
  function KindsIn(text: string, c: Color): seq<Kind> {
    if text == "" then []
    else
      var man := ManOf(text[|text| - 1]);
      KindsIn(text[..|text| - 1], c) + if man.Some? && man.value.color == c then [man.value.kind] else []
  }

  /** Pockets are read exactly from letters of men: capitals are White's. */
  lemma {:induction false} PocketsReadExactly(text: string)
    ensures ParsePockets(text).Ok? <==> forall i :: 0 <= i < |text| ==> ManOf(text[i]).Some?
    ensures ParsePockets(text).Ok? ==> ParsePockets(text).value == Pockets(KindsIn(text, White), KindsIn(text, Black))
  {
    if text != "" {
      var n := |text| - 1;
      PocketsReadExactly(text[..n]);
      LettersAreMen(text[n]);
      assert text == text[..n] + [text[n]];
    }
  }

  // ---- the castling field

  predicate KingThere(b: Board, c: Color, f: int) {
    0 <= f < 8 && b[16 * (if c == White then 0 else 7) + f] == Some(Piece(c, King))
  }

  /** The file of the first king on the side's home rank, if one stands there. */
  ghost predicate KingHome(b: Board, c: Color, f: int) {
    KingThere(b, c, f) && forall e :: 0 <= e < f ==> !KingThere(b, c, e)
  }

  predicate RookHome(b: Board, c: Color, f: int) {
    0 <= f < 8 && b[16 * (if c == White then 0 else 7) + f] == Some(Piece(c, Rook))
  }

  predicate OnSide(side: CastlingSide, king: int, f: int) {
    if side == KSide then f > king else f < king
  }

  /** The character gives the side the right with the rook on `f`: K and Q mean the rook furthest out beyond the king,
      a file letter the rook on that file. */
  ghost predicate Gives(b: Board, ch: char, c: Color, side: CastlingSide, f: int) {
    exists king :: KingHome(b, c, king) && RookHome(b, c, f) && OnSide(side, king, f) &&
      if ch == (if c == White then (if side == KSide then 'K' else 'Q') else (if side == KSide then 'k' else 'q'))
      then forall e :: RookHome(b, c, e) ==> !OnSide(side, f, e)
      else ch == (if c == White then 'A' else 'a') + f as char
  }

  lemma KingIsThere(b: Board, c: Color, f: int)
    ensures KingThere(b, c, f) <==> KingOn(b, c, f)
  {
  }

  lemma KingIsHome(b: Board, c: Color, f: int)
    ensures KingHome(b, c, f) <==> f != -1 && BackRankKingFile(b, c) == f
  {
    forall e ensures KingThere(b, c, e) <==> KingOn(b, c, e) {
      KingIsThere(b, c, e);
    }
    var k := BackRankKingFile(b, c);
    if KingHome(b, c, f) {
      assert KingOn(b, c, f);
      assert k == -1 ==> !KingOn(b, c, f);
      assert k != -1 ==> KingThere(b, c, k);
    }
    if k == f != -1 {
      forall e | 0 <= e < f ensures !KingThere(b, c, e) {
        assert !KingOn(b, c, e);
      }
    }
  }

  lemma RookIsHome(b: Board, c: Color, f: int)
    ensures RookHome(b, c, f) <==> RookOn(b, c, f)
  {
  }

  /** The furthest rook out, found or not. */
  lemma OutermostIs(b: Board, c: Color, side: CastlingSide, king: int, f: int)
    ensures var o := OutermostRook(b, c, side, king, 8);
            o == f != -1 <==>
              && RookHome(b, c, f) && OnSide(side, king, f)
              && forall e :: RookHome(b, c, e) ==> !OnSide(side, f, e)
  {
    forall e ensures RookHome(b, c, e) <==> RookOn(b, c, e) {
      RookIsHome(b, c, e);
    }
    if RookHome(b, c, f) && OnSide(side, king, f) && forall e :: RookHome(b, c, e) ==> !OnSide(side, f, e) {
      OutermostFound(b, c, side, king, f, 8);
    }
    OutermostIsLast(b, c, side, king, 8);
  }

  lemma {:induction false} OutermostIsLast(b: Board, c: Color, side: CastlingSide, king: int, from: nat)
    requires from <= 8
    ensures var o := OutermostRook(b, c, side, king, from);
            o != -1 ==>
              && RookOn(b, c, o) && Beyond(side, o, king)
              && forall e :: RookOn(b, c, e) && Beyond(side, e, o) ==>
                   if side == KSide then e >= from else e <= 7 - from
  {
    if from > 0 {
      OutermostIsLast(b, c, side, king, from - 1);
      var file := if side == KSide then from - 1 else 8 - from;
      var o := OutermostRook(b, c, side, king, from);
      if RookOn(b, c, file) && Beyond(side, file, king) {
        assert o == file;
      } else {
        assert o == OutermostRook(b, c, side, king, from - 1);
        forall e | o != -1 && RookOn(b, c, e) && Beyond(side, e, o)
          ensures if side == KSide then e >= from else e <= 7 - from
        {
          assert e != file;
        }
      }
    }
  }

  lemma LettersApart(c: Color, side: CastlingSide, ch: char)
    ensures ch == (if c == White then (if side == KSide then 'K' else 'Q') else (if side == KSide then 'k' else 'q'))
            <==> ColorOfChar(ch) == c && Lower(ch) == if side == KSide then 'k' else 'q'
  {
  }

  lemma FileLetters(c: Color, f: int, ch: char)
    requires 0 <= f < 8
    ensures ch == (if c == White then 'A' else 'a') + f as char <==>
              ColorOfChar(ch) == c && Lower(ch) as int - 'a' as int == f
  {
  }

  /** Reading one character sets exactly the right it gives. */
  lemma CharReadsExactly(b: Board, r: CastlingRights, ch: char, c: Color, side: CastlingSide)
    ensures var f := Right(ParseChar(b, r, ch), c, side);
            if exists g :: Gives(b, ch, c, side, g) then Gives(b, ch, c, side, f) else f == Right(r, c, side)
  {
    var king := BackRankKingFile(b, c);
    forall k ensures KingHome(b, c, k) <==> k != -1 && k == king {
      KingIsHome(b, c, k);
    }
    LettersApart(c, side, ch);
    LettersApart(c, if side == KSide then QSide else KSide, ch);
    if king != -1 && ColorOfChar(ch) == c {
      CharSets(b, r, ch, c, side, king);
    } else {
      forall g | Gives(b, ch, c, side, g) ensures false {
        if RookHome(b, c, g) {
          FileLetters(c, g, ch);
        }
      }
    }
  }

  lemma CharSets(b: Board, r: CastlingRights, ch: char, c: Color, side: CastlingSide, king: int)
    requires KingHome(b, c, king) && BackRankKingFile(b, c) == king != -1 && ColorOfChar(ch) == c
    ensures var f := Right(ParseChar(b, r, ch), c, side);
            if exists g :: Gives(b, ch, c, side, g) then Gives(b, ch, c, side, f) else f == Right(r, c, side)
  {
    forall g ensures RookHome(b, c, g) <==> RookOn(b, c, g) {
      RookIsHome(b, c, g);
    }
    LettersApart(c, side, ch);
    LettersApart(c, if side == KSide then QSide else KSide, ch);
    var lower := Lower(ch);
    if lower == 'k' || lower == 'q' {
      SideLetterSets(b, r, ch, c, side, king);
    } else {
      FileLetterSets(b, r, ch, c, side, king);
    }
  }

  lemma OneKingHome(b: Board, c: Color, x: int, y: int)
    requires KingHome(b, c, x) && KingHome(b, c, y)
    ensures x == y
  {
  }

  lemma SideLetterSets(b: Board, r: CastlingRights, ch: char, c: Color, side: CastlingSide, king: int)
    requires KingHome(b, c, king) && BackRankKingFile(b, c) == king != -1 && ColorOfChar(ch) == c
    requires Lower(ch) == 'k' || Lower(ch) == 'q'
    ensures var f := Right(ParseChar(b, r, ch), c, side);
            if exists g :: Gives(b, ch, c, side, g) then Gives(b, ch, c, side, f) else f == Right(r, c, side)
  {
    LettersApart(c, side, ch);
    var named := if Lower(ch) == 'k' then KSide else QSide;
    var o := OutermostRook(b, c, named, king, 8);
    OutermostIsLast(b, c, named, king, 8);
    forall g | Gives(b, ch, c, side, g) ensures side == named && g == o {
      var k :| KingHome(b, c, k) && RookHome(b, c, g) && OnSide(side, k, g);
      OneKingHome(b, c, k, king);
      FileLetters(c, g, ch);
      OutermostIs(b, c, named, king, g);
    }
    if o != -1 {
      RookIsHome(b, c, o);
      OutermostIs(b, c, named, king, o);
      if side == named {
        assert Gives(b, ch, c, side, o);
      }
    }
  }

  lemma FileLetterSets(b: Board, r: CastlingRights, ch: char, c: Color, side: CastlingSide, king: int)
    requires KingHome(b, c, king) && BackRankKingFile(b, c) == king != -1 && ColorOfChar(ch) == c
    requires Lower(ch) != 'k' && Lower(ch) != 'q'
    ensures var f := Right(ParseChar(b, r, ch), c, side);
            if exists g :: Gives(b, ch, c, side, g) then Gives(b, ch, c, side, f) else f == Right(r, c, side)
  {
    LettersApart(c, side, ch);
    var file := Lower(ch) as int - 'a' as int;
    RookIsHome(b, c, file);
    if RookOn(b, c, file) {
      FileLetters(c, file, ch);
    }
    forall g | Gives(b, ch, c, side, g) ensures g == file && RookOn(b, c, g) && OnSide(side, king, g) {
      var k :| KingHome(b, c, k) && RookHome(b, c, g) && OnSide(side, k, g);
      OneKingHome(b, c, k, king);
      FileLetters(c, g, ch);
      RookIsHome(b, c, g);
    }
    if RookOn(b, c, file) && OnSide(side, king, file) {
      assert Gives(b, ch, c, side, file);
    }
  }

  /** Of several characters that give one right the last one counts. */
  ghost predicate LastGives(b: Board, field: string, c: Color, side: CastlingSide, f: RookFile) {
    || (exists i :: 0 <= i < |field| && Gives(b, field[i], c, side, f) &&
          forall j, g :: i < j < |field| ==> !Gives(b, field[j], c, side, g))
    || (f == NO_ROOK && forall i, g :: 0 <= i < |field| ==> !Gives(b, field[i], c, side, g))
  }

  lemma LastGivesMore(b: Board, field: string, c: Color, side: CastlingSide, f: RookFile, f': RookFile)
    requires field != "" && LastGives(b, field[..|field| - 1], c, side, f)
    requires var ch := field[|field| - 1];
             if exists g :: Gives(b, ch, c, side, g) then Gives(b, ch, c, side, f') else f' == f
    ensures LastGives(b, field, c, side, f')
  {
    var n := |field| - 1;
    var before := field[..n];
    if !exists g :: Gives(b, field[n], c, side, g) {
      if i :| 0 <= i < n && Gives(b, before[i], c, side, f) &&
              forall j, g :: i < j < n ==> !Gives(b, before[j], c, side, g) {
        assert Gives(b, field[i], c, side, f);
        forall j, g | i < j < |field| ensures !Gives(b, field[j], c, side, g) {
          assert j < n ==> field[j] == before[j];
        }
      } else {
        forall i, g | 0 <= i < |field| ensures !Gives(b, field[i], c, side, g) {
          assert i < n ==> field[i] == before[i];
        }
      }
    }
  }

  lemma {:induction false} CharsReadExactly(b: Board, field: string, c: Color, side: CastlingSide)
    ensures LastGives(b, field, c, side, Right(ParseChars(b, field), c, side))
  {
    if field != "" {
      var n := |field| - 1;
      CharsReadExactly(b, field[..n], c, side);
      CharReadsExactly(b, ParseChars(b, field[..n]), field[n], c, side);
      LastGivesMore(b, field, c, side, Right(ParseChars(b, field[..n]), c, side),
                    Right(ParseChars(b, field), c, side));
    }
  }

  /** Every right read from a castling field, in either spelling, is the one its characters give. */
  lemma CastlingReadsExactly(b: Board, field: string, c: Color, side: CastlingSide)
    ensures LastGives(b, field, c, side, Right(ParseCastlingField(field, b), c, side))
  {
    CharsReadExactly(b, field, c, side);
    if field == "-" {
      forall i, g | 0 <= i < |field| ensures !Gives(b, field[i], c, side, g) {
        if RookHome(b, c, g) {
          FileLetters(c, g, field[i]);
        }
      }
    }
  }

  // ---- numbers

  const DIGITS := "0123456789"

  /** Decimal digits, the last one worth its own value and the others ten times theirs. */
  lemma NumbersAreDecimal(s: string)
    requires s != "" && IsDigits(s)
    ensures exists d: nat :: d < 10 && s[|s| - 1] == DIGITS[d] &&
              NatValue(s) == d + if |s| == 1 then 0 else 10 * NatValue(s[..|s| - 1])
  {
    var d := DigitValue(s[|s| - 1]);
    assert s[|s| - 1] == DIGITS[d];
  }

  /** A clock is a number of decimal digits, with a sign or without; what is no number counts as absent. */
  lemma ClocksReadExactly(token: string, fallback: int)
    ensures var unsigned := if token != "" && (token[0] == '+' || token[0] == '-') then token[1..] else token;
            if IsDigits(unsigned) then
              var n: int := if token[0] == '-' then 0 - NatValue(unsigned) as int else NatValue(unsigned);
              ReadClock(Some(token), fallback) ==
                if -9007199254740991 <= n <= 9007199254740991 then Ok(n) else Err(ClockTooLarge)
            else ReadClock(Some(token), fallback) == Ok(fallback)
    ensures ReadClock(None, fallback) == Ok(fallback)
  {
  }

  // ---- the counters of Three-Check

  predicate IsPair(token: string, x: string, y: string) {
    IsDigits(x) && IsDigits(y) && token == x + ['+'] + y
  }

  lemma DigitsHoldNoPlus(x: string)
    requires IsDigits(x)
    ensures '+' !in x && x != ""
  {
  }

  lemma PairSplits(token: string, x: string, y: string)
    requires IsPair(token, x, y)
    ensures SplitOn(token, '+') == [x, y]
  {
    DigitsHoldNoPlus(x);
    DigitsHoldNoPlus(y);
    SplitFirst(x, '+', y);
    SplitFirst(y, '+', "");
  }

  lemma {:induction false} IndexOfFound(s: string, c: char)
    ensures var i := IndexOf(s, c); i <= |s| && (i < |s| ==> s[i] == c)
    ensures c !in s[..IndexOf(s, c)]
  {
    if s != "" && s[0] != c {
      IndexOfFound(s[1..], c);
      var i := IndexOf(s[1..], c);
      assert s[..i + 1] == [s[0]] + s[1..][..i];
    }
  }

  lemma SplitsInTwo(s: string, c: char)
    ensures IndexOf(s, c) < |s| ==> |SplitOn(s, c)| >= 2
  {
  }

  /** A token looks like counts exactly when it is two runs of digits with a plus between. */
  lemma PairsAreFound(token: string)
    ensures LooksLikeRemaining(token) <==> exists x, y :: IsPair(token, x, y)
  {
    if LooksLikeRemaining(token) {
      var i := IndexOf(token, '+');
      IndexOfFound(token, '+');
      var parts := SplitOn(token, '+');
      var j := IndexOf(token[i + 1..], '+');
      IndexOfFound(token[i + 1..], '+');
      assert parts == [token[..i]] + SplitOn(token[i + 1..], '+');
      SplitsInTwo(token[i + 1..], '+');
      assert parts == [token[..i], token[i + 1..]];
      assert IsPair(token, token[..i], token[i + 1..]);
    }
    if x, y :| IsPair(token, x, y) {
      PairSplits(token, x, y);
    }
  }
}
