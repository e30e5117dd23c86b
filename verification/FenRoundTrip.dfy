/** Reading back what the FEN writer wrote (packages/chess-core/src/fen.ts). */
module FenRoundTrip {
  import opened Common
  import opened ChessTypes
  import opened Geometry
  import opened Attack
  import opened Text
  import opened CastlingField
  import opened Fen
  import opened Validity

  // ---- one rank

  /** `acc` with the men of `b` on rank `r`, from file `f` on, set on it. */
  function Put(acc: Board, b: Board, r: int, f: nat): Board
    requires 0 <= r < 8 && f <= 8
    decreases 8 - f, b
  {
    if f == 8 then acc
    else
      var sq := MakeSquare(f, r);
      Put(if b[sq].Some? then acc[sq := b[sq]] else acc, b, r, f + 1)
  }

  lemma DigitsSkip(empty: nat, rest: string, r: int, f: nat, acc: Board)
    requires 0 <= r < 8 && empty <= f && empty <= 8
    ensures ParseRow(DigitsOf(empty) + rest, r, f - empty, acc) == ParseRow(rest, r, f, acc)
  {
    if empty > 0 {
      var row := DigitsOf(empty) + rest;
      assert row[0] == DigitChar(empty) && row[1..] == rest;
      assert DigitValue(DigitChar(empty)) == empty;
    } else {
      assert DigitsOf(empty) + rest == rest;
    }
  }

  /** Pending empty squares, then one man, are read as such. */
  lemma ManReadsBack(empty: nat, p: Piece, rest: string, r: int, f: nat, acc: Board)
    requires 0 <= r < 8 && empty <= f < 8
    ensures ParseRow(DigitsOf(empty) + [PieceChar(p)] + rest, r, f - empty, acc)
            == ParseRow(rest, r, f + 1, acc[MakeSquare(f, r) := Some(p)])
  {
    var ch := PieceChar(p);
    var row := [ch] + rest;
    PieceCharRoundTrip(p);
    DigitsSkip(empty, row, r, f, acc);
    assert DigitsOf(empty) + [ch] + rest == DigitsOf(empty) + row;
    assert row[0] == ch && row[1..] == rest;
  }

  lemma RankEnd(b: Board, r: int, empty: nat, acc: Board)
    requires 0 <= r < 8 && empty <= 8
    ensures ParseRow(RankFrom(b, r, 8, empty), r, 8 - empty, acc) == Ok(acc)
  {
    DigitsSkip(empty, "", r, 8, acc);
    assert DigitsOf(empty) + "" == DigitsOf(empty);
  }

  lemma {:induction false} RankReadsBack(b: Board, r: int, f: nat, empty: nat, acc: Board)
    requires 0 <= r < 8 && empty <= f <= 8
    ensures ParseRow(RankFrom(b, r, f, empty), r, f - empty, acc) == Ok(Put(acc, b, r, f))
    decreases 8 - f
  {
    if f == 8 {
      RankEnd(b, r, empty, acc);
    } else {
      var cell := b[MakeSquare(f, r)];
      if cell.None? {
        var text := RankFrom(b, r, f + 1, empty + 1);
        assert RankFrom(b, r, f, empty) == text && Put(acc, b, r, f) == Put(acc, b, r, f + 1);
        RankReadsBack(b, r, f + 1, empty + 1, acc);
      } else {
        var rest, acc' := RankFrom(b, r, f + 1, 0), acc[MakeSquare(f, r) := cell];
        assert RankFrom(b, r, f, empty) == DigitsOf(empty) + [PieceChar(cell.value)] + rest;
        assert Put(acc, b, r, f) == Put(acc', b, r, f + 1);
        ManReadsBack(empty, cell.value, rest, r, f, acc);
        RankReadsBack(b, r, f + 1, 0, acc');
      }
    }
  }

  predicate RankChar(ch: char) {
    '1' <= ch <= '8' || PieceOfChar(ch).Some?
  }

  lemma RankCharIsPlain(ch: char)
    requires RankChar(ch)
    ensures ch != '/' && ch != '[' && ch != ']' && !IsSpace(ch)
  {
  }

  lemma {:induction false} RankChars(b: Board, r: int, f: nat, empty: nat)
    requires 0 <= r < 8 && empty <= f <= 8
    ensures forall i :: 0 <= i < |RankFrom(b, r, f, empty)| ==> RankChar(RankFrom(b, r, f, empty)[i])
    decreases 8 - f, b
  {
    if f < 8 {
      var cell := b[MakeSquare(f, r)];
      if cell.None? {
        RankChars(b, r, f + 1, empty + 1);
      } else {
        PieceCharRoundTrip(cell.value);
        RankChars(b, r, f + 1, 0);
      }
    }
  }

  // ---- eight ranks

  function PutRanks(b: Board, n: nat): Board
    requires n <= 8
    decreases n, b
  {
    if n == 0 then seq(128, _ => None) else Put(PutRanks(b, n - 1), b, 8 - n, 0)
  }

  lemma SquareIs(sq: int, f: int, r: int)
    requires 0 <= f < 8 && 0 <= r < 8
    ensures sq == MakeSquare(f, r) <==> OnBoard(sq) && RankOf(sq) == r && FileOf(sq) == f
  {
    CoordinatesSquare(f, r);
    if OnBoard(sq) {
      SquareCoordinates(sq);
    }
  }

  lemma {:induction false} PutCell(acc: Board, b: Board, r: int, f: nat, sq: int)
    requires 0 <= r < 8 && f <= 8 && 0 <= sq < 128
    ensures Put(acc, b, r, f)[sq] ==
            if OnBoard(sq) && RankOf(sq) == r && f <= FileOf(sq) && b[sq].Some? then b[sq] else acc[sq]
    decreases 8 - f
  {
    if f < 8 {
      var here := MakeSquare(f, r);
      SquareIs(sq, f, r);
      PutCell(if b[here].Some? then acc[here := b[here]] else acc, b, r, f + 1, sq);
    }
  }

  lemma {:induction false} PutRanksCell(b: Board, n: nat, sq: int)
    requires n <= 8 && 0 <= sq < 128
    ensures PutRanks(b, n)[sq] == if OnBoard(sq) && RankOf(sq) >= 8 - n then b[sq] else None
  {
    if n > 0 {
      PutRanksCell(b, n - 1, sq);
      PutCell(PutRanks(b, n - 1), b, 8 - n, 0, sq);
    }
  }

  lemma {:induction false} RankTextsAt(b: Board, n: nat, i: nat)
    requires i < n <= 8
    ensures |RankTexts(b, n)| == n && RankTexts(b, n)[i] == RankFrom(b, 7 - i, 0, 0)
  {
    if i < n - 1 {
      RankTextsAt(b, n - 1, i);
    } else if n > 1 {
      RankTextsAt(b, n - 1, 0);
    }
  }

  lemma {:induction false} RowsReadBack(b: Board, rows: seq<string>, n: nat)
    requires n <= |rows| == 8 && forall i :: 0 <= i < 8 ==> rows[i] == RankFrom(b, 7 - i, 0, 0)
    ensures ParseRows(rows, n) == Ok(PutRanks(b, n))
  {
    if n > 0 {
      RowsReadBack(b, rows, n - 1);
      RankReadsBack(b, 8 - n, 0, 0, PutRanks(b, n - 1));
    }
  }

  lemma {:induction false} JoinChars(parts: seq<string>, c: char, bad: char)
    requires Free(parts, bad) && bad != c
    ensures bad !in Join(parts, c)
  {
    if |parts| > 1 {
      JoinChars(parts[1..], c, bad);
    }
  }

  lemma {:induction false} JoinPlain(parts: seq<string>, c: char)
    requires !IsSpace(c) && forall i, j :: 0 <= i < |parts| && 0 <= j < |parts[i]| ==> !IsSpace(parts[i][j])
    ensures forall j :: 0 <= j < |Join(parts, c)| ==> !IsSpace(Join(parts, c)[j])
  {
    if |parts| > 1 {
      JoinPlain(parts[1..], c);
    }
  }

  lemma BoardTextChars(b: Board)
    ensures Free(RankTexts(b, 8), '/') && '[' !in BoardText(b) && ']' !in BoardText(b) && IsWord(BoardText(b))
  {
    var rows := RankTexts(b, 8);
    RankTextsAt(b, 8, 0);
    forall i, j | 0 <= i < |rows| && 0 <= j < |rows[i]|
      ensures rows[i][j] != '/' && rows[i][j] != '[' && rows[i][j] != ']' && !IsSpace(rows[i][j])
    {
      RankTextsAt(b, 8, i);
      RankChars(b, 7 - i, 0, 0);
      RankCharIsPlain(rows[i][j]);
    }
    JoinChars(rows, '/', '[');
    JoinChars(rows, '/', ']');
    JoinPlain(rows, '/');
    assert BoardText(b) == rows[0] + ['/'] + Join(rows[1..], '/');
  }

  /** The board with nothing off its 64 squares. */
  function Trimmed(b: Board): Board {
    seq(128, sq requires 0 <= sq < 128 => if OnBoard(sq) then b[sq] else None)
  }

  lemma TrimmedIsSame(b: Board)
    ensures Trimmed(b) == b <==> OffBoardEmpty(b)
  {
    if Trimmed(b) == b {
      forall sq | 0 <= sq < 128 && !OnBoard(sq) ensures b[sq].None? {
        assert Trimmed(b)[sq].None?;
      }
    }
  }

  /** The 64 squares come back from the board's text. */
  lemma BoardRoundTrip(b: Board)
    ensures ParseBoard(BoardText(b)) == Ok(Trimmed(b))
  {
    var rows := RankTexts(b, 8);
    RankTextsAt(b, 8, 0);
    BoardTextChars(b);
    SplitJoin(rows, '/');
    forall i | 0 <= i < 8
      ensures rows[i] == RankFrom(b, 7 - i, 0, 0)
    {
      RankTextsAt(b, 8, i);
    }
    RowsReadBack(b, rows, 8);
    forall sq | 0 <= sq < 128
      ensures PutRanks(b, 8)[sq] == Trimmed(b)[sq]
    {
      PutRanksCell(b, 8, sq);
      if OnBoard(sq) {
        SquareCoordinates(sq);
      }
    }
    assert PutRanks(b, 8) == Trimmed(b);
  }

  // ---- pockets

  lemma KindCharRoundTrip(k: Kind)
    ensures KindOfChar(Lower(KindChar(k))) == Some(k) && ColorOfChar(KindChar(k)) == Black
    ensures KindOfChar(Lower(Upper(KindChar(k)))) == Some(k) && ColorOfChar(Upper(KindChar(k))) == White
    ensures KindChar(k) != ']' && Upper(KindChar(k)) != ']' && !IsSpace(KindChar(k)) && !IsSpace(Upper(KindChar(k)))
  {
  }

  function PocketText(p: Pockets): string {
    UpperKinds(p.w) + LowerKinds(p.b)
  }

  lemma PocketTextLast(p: Pockets)
    requires p.w != [] || p.b != []
    ensures var text := PocketText(p); var n := |text| - 1;
            if p.b != [] then
              text[n] == KindChar(p.b[|p.b| - 1]) && text[..n] == PocketText(p.(b := p.b[..|p.b| - 1]))
            else text[n] == Upper(KindChar(p.w[|p.w| - 1])) && text[..n] == PocketText(p.(w := p.w[..|p.w| - 1]))
  {
  }

  lemma PocketLetter(text: string, before: Pockets, k: Kind)
    requires text != "" && ParsePockets(text[..|text| - 1]) == Ok(before)
    ensures text[|text| - 1] == KindChar(k) ==> ParsePockets(text) == Ok(before.(b := before.b + [k]))
    ensures text[|text| - 1] == Upper(KindChar(k)) ==> ParsePockets(text) == Ok(before.(w := before.w + [k]))
  {
    KindCharRoundTrip(k);
  }

  lemma BlackReadsBack(p: Pockets)
    requires p.b != [] && ParsePockets(PocketText(p.(b := p.b[..|p.b| - 1]))) == Ok(p.(b := p.b[..|p.b| - 1]))
    ensures ParsePockets(PocketText(p)) == Ok(p)
  {
    var n := |p.b| - 1;
    PocketTextLast(p);
    PocketLetter(PocketText(p), p.(b := p.b[..n]), p.b[n]);
    assert p.b[..n] + [p.b[n]] == p.b;
  }

  lemma WhiteReadsBack(p: Pockets)
    requires p.b == [] && p.w != []
    requires ParsePockets(PocketText(p.(w := p.w[..|p.w| - 1]))) == Ok(p.(w := p.w[..|p.w| - 1]))
    ensures ParsePockets(PocketText(p)) == Ok(p)
  {
    var n := |p.w| - 1;
    PocketTextLast(p);
    PocketLetter(PocketText(p), p.(w := p.w[..n]), p.w[n]);
    assert p.w[..n] + [p.w[n]] == p.w;
  }

  lemma {:induction false} PocketsReadBack(p: Pockets)
    ensures ParsePockets(PocketText(p)) == Ok(p)
    decreases |p.w| + |p.b|
  {
    if p.b != [] {
      PocketsReadBack(p.(b := p.b[..|p.b| - 1]));
      BlackReadsBack(p);
    } else if p.w != [] {
      PocketsReadBack(p.(w := p.w[..|p.w| - 1]));
      WhiteReadsBack(p);
    } else {
      assert PocketText(p) == "";
    }
  }

  lemma PocketTextChars(p: Pockets, i: int)
    requires 0 <= i < |PocketText(p)|
    ensures PocketText(p)[i] != ']' && !IsSpace(PocketText(p)[i])
  {
    if i < |p.w| {
      KindCharRoundTrip(p.w[i]);
    } else {
      KindCharRoundTrip(p.b[i - |p.w|]);
    }
  }

  // ---- the placement field

  lemma {:induction false} IndexOfIs(s: string, c: char, i: nat)
    requires i < |s| && s[i] == c && c !in s[..i]
    ensures IndexOf(s, c) == i
  {
    if i > 0 {
      assert s[0] in s[..i];
      assert s[1..][..i - 1] == s[..i][1..];
      IndexOfIs(s[1..], c, i - 1);
    }
  }

  lemma {:induction false} IndexOfAbsent(s: string, c: char)
    requires c !in s
    ensures IndexOf(s, c) == |s|
  {
    if s != "" {
      IndexOfAbsent(s[1..], c);
    }
  }

  lemma PlacementSplits(board: string, pocket: string)
    requires '[' !in board && ']' !in board && ']' !in pocket
    ensures SplitPlacement(board) == ("", board)
    ensures SplitPlacement(board + ("[" + pocket + "]")) == (pocket, board)
  {
    IndexOfAbsent(board, '[');
    var s := board + ("[" + pocket + "]");
    assert s[..|board|] == board;
    IndexOfIs(s, '[', |board|);
    var close := |board| + 1 + |pocket|;
    assert s[close] == ']' && s[..close] == board + ("[" + pocket);
    IndexOfIs(s, ']', close);
    assert s[|board| + 1..close] == pocket;
  }

  lemma PlacementIsWord(s: State)
    ensures IsWord(PlacementText(s))
    ensures s.variant == Crazyhouse ==> PlacementText(s) == BoardText(s.board) + ("[" + PocketText(s.pockets) + "]")
  {
    BoardTextChars(s.board);
    var pocket := PocketText(s.pockets);
    forall i | 0 <= i < |pocket|
      ensures !IsSpace(pocket[i])
    {
      PocketTextChars(s.pockets, i);
    }
    var tail := "[" + pocket + "]";
    assert "[" + UpperKinds(s.pockets.w) + LowerKinds(s.pockets.b) + "]" == tail;
  }

  const NO_POCKETS := Pockets([], [])

  /** Board and, in Crazyhouse, pockets come back from the placement field. */
  lemma PlacementRoundTrip(s: State)
    ensures var (pocketText, boardText) := SplitPlacement(PlacementText(s));
            && ParsePockets(pocketText) == Ok(if s.variant == Crazyhouse then s.pockets else NO_POCKETS)
            && ParseBoard(boardText) == Ok(Trimmed(s.board))
  {
    BoardTextChars(s.board);
    BoardRoundTrip(s.board);
    var pocket := PocketText(s.pockets);
    forall i | 0 <= i < |pocket|
      ensures pocket[i] != ']'
    {
      PocketTextChars(s.pockets, i);
    }
    PlacementSplits(BoardText(s.board), pocket);
    PocketsReadBack(s.pockets);
    PlacementIsWord(s);
    if s.variant != Crazyhouse {
      assert PlacementText(s) == BoardText(s.board);
    }
  }

  // ---- counters and clocks

  lemma IntTextDigits(n: int)
    ensures IsDigits(IntText(n)) <==> n >= 0
    ensures SplitOn(IntText(n), '+') == [IntText(n)]
    ensures n >= 0 ==> NatValue(IntText(n)) == n
  {
    IntTextIsWord(n);
    SplitFirst(IntText(n), '+', "");
    if n < 0 {
      assert IntText(n)[0] == '-';
    } else {
      NatRoundTrip(n);
    }
  }

  predicate CountsFit(c: Counters) {
    0 <= c.w <= THREE_CHECK_LIMIT && 0 <= c.b <= THREE_CHECK_LIMIT
  }

  lemma RemainingSplits(c: Counters)
    ensures var r := RemainingFromDelivered(c); SplitOn(FormatRemaining(c), '+') == [IntText(r.w), IntText(r.b)]
    ensures IsWord(FormatRemaining(c))
  {
    var r := RemainingFromDelivered(c);
    IntTextIsWord(r.w);
    IntTextIsWord(r.b);
    IntTextDigits(r.b);
    SplitFirst(IntText(r.w), '+', IntText(r.b));
    assert FormatRemaining(c) == IntText(r.w) + ['+'] + IntText(r.b);
  }

  /** The remaining-checks field inverts the delivered counts, and is refused beyond three. */
  lemma ChecksReadBack(c: Counters)
    ensures LooksLikeRemaining(FormatRemaining(c)) <==> c.w <= THREE_CHECK_LIMIT && c.b <= THREE_CHECK_LIMIT
    ensures CountsFit(c) ==> ParseRemaining(FormatRemaining(c)) == Ok(c)
    ensures LooksLikeRemaining(FormatRemaining(c)) && !CountsFit(c) ==> ParseRemaining(FormatRemaining(c)).Err?
  {
    var r := RemainingFromDelivered(c);
    RemainingSplits(c);
    IntTextDigits(r.w);
    IntTextDigits(r.b);
  }

  /** Clocks the program's numbers hold exactly. */
  predicate ClockFits(n: int) {
    -MAX_SAFE_INTEGER <= n <= MAX_SAFE_INTEGER
  }

  lemma ClockReadsBack(n: int, fallback: int)
    requires ClockFits(n)
    ensures ReadClock(Some(IntText(n)), fallback) == Ok(n)
    ensures IsDigits(IntText(n)) <==> n >= 0
    ensures !LooksLikeRemaining(IntText(n)) && !LooksLikeDelivered(IntText(n))
  {
    IntTextDigits(n);
    if n < 0 {
      IntTextIsWord(n);
      NatRoundTrip(-n);
      assert IntText(n)[0] == '-' && IntText(n)[1..] == NatText(-n);
    }
  }

  // ---- the en-passant field

  predicate SpaceRank(ep: int) {
    ep != -1 && ep != NOT_A_SQUARE && IsSpace(CodeUnit('1' as int + RankOf(ep)))
  }

  /** The index is within 32 bits and its rank is not written as a surrogate half. */
  predicate EpWritable(ep: int) {
    && -0x8000_0000 <= ep < 0x8000_0000
    && !(0xD800 <= ('1' as int + RankOf(ep)) % 0x10000 < 0xE000)
  }

  /** The field names its square again: the file is one of eight, the rank fits one character, and that
      is no white space. All squares of the board are of this kind. */
  predicate EpComesBack(ep: int) {
    ep == -1 ||
    (ep != NOT_A_SQUARE && ep % 16 < 8 && 0 <= '1' as int + RankOf(ep) < 0x10000 && !SpaceRank(ep))
  }

  lemma BoardSquaresComeBack(ep: int)
    requires ep == -1 || OnBoard(ep)
    ensures EpWritable(ep) && EpComesBack(ep) && !SpaceRank(ep)
  {
  }

  /** The field as one word: a rank that is white space is lost. */
  function EpWord(ep: int): string {
    if SpaceRank(ep) then [EpText(ep)[0]] else EpText(ep)
  }

  lemma EpWordIsWord(ep: int)
    ensures IsWord(EpWord(ep))
    ensures SpaceRank(ep) ==> EpText(ep) == EpWord(ep) + [CodeUnit('1' as int + RankOf(ep))]
  {
    if ep != -1 {
      assert EpText(ep)[0] == if ep == NOT_A_SQUARE then 'a' else 'a' + FileOf(ep) as char;
    }
  }

  function EpRead(ep: int): int {
    if EpWord(ep) == "-" then -1 else SquareFromName(EpWord(ep))
  }

  lemma EpIndex(ep: int)
    requires EpWritable(ep) && ep != -1 && ep != NOT_A_SQUARE
    ensures var u := ('1' as int + RankOf(ep)) % 0x10000;
            SquareFromName(SquareName(ep)) == MakeSquare(FileOf(ep), u - '1' as int)
  {
  }

  lemma EpReadsBack(ep: int)
    requires EpWritable(ep)
    ensures EpRead(ep) == ep <==> EpComesBack(ep)
  {
    if ep != -1 && ep != NOT_A_SQUARE && !SpaceRank(ep) {
      EpIndex(ep);
      var r := RankOf(ep);
      var u := ('1' as int + r) % 0x10000;
      assert ep == 16 * r + ep % 16;
      assert EpRead(ep) == 16 * (u - '1' as int) + FileOf(ep);
      EpSame(ep, r, u);
    }
  }

  lemma EpSame(ep: int, r: int, u: int)
    requires r == RankOf(ep) && u == ('1' as int + r) % 0x10000
    ensures 16 * (u - '1' as int) + FileOf(ep) == ep <==> ep % 16 < 8 && 0 <= '1' as int + r < 0x10000
  {
    var f := FileOf(ep);
    assert ep == 16 * r + ep % 16 && 0 <= f < 8;
    if ep % 16 < 8 {
      Eighths(ep, 2 * r, ep % 16);
    }
    if 16 * (u - '1' as int) + f == ep {
      Sixteenths(ep, u - '1' as int, f);
    }
  }

  // ---- the whole record

  /** What the program's numbers and the text's characters can hold. */
  predicate Writable(s: State) {
    ClockFits(s.halfmoves) && ClockFits(s.fullmoves) && EpWritable(s.epSquare)
  }

  lemma CastlingFieldIsWord(r: CastlingRights, b: Board)
    ensures IsWord(FormatCastlingField(r, b))
  {
    RightTextChars(r, b);
    LettersOnly(r, b);
  }

  lemma LettersOnly(r: CastlingRights, b: Board)
    ensures forall i :: 0 <= i < |RightsText(r, b)| ==> !IsSpace(RightsText(r, b)[i])
  {
    OneLetter(r, b, White, KSide);
    OneLetter(r, b, White, QSide);
    OneLetter(r, b, Black, KSide);
    OneLetter(r, b, Black, QSide);
  }

  lemma OneLetter(r: CastlingRights, b: Board, c: Color, side: CastlingSide)
    ensures forall i :: 0 <= i < |RightText(r, b, c, side)| ==> !IsSpace(RightText(r, b, c, side)[i])
  {
  }

  lemma ShortFieldsAreWords(s: State)
    ensures IsWord(TurnText(s.turn)) && IsWord(EpWord(s.epSquare)) && IsWord(FormatRemaining(s.checkCount))
  {
    EpWordIsWord(s.epSquare);
    RemainingSplits(s.checkCount);
  }

  lemma WordsConcat(a: seq<string>, b: seq<string>)
    requires Words(a) && Words(b)
    ensures Words(a + b)
  {
  }

  /** The fields as the reader will see them. */
  function FenWords(s: State): seq<string> {
    FenFields(s)[3 := EpWord(s.epSquare)]
  }

  lemma FenFieldsAt(s: State)
    ensures var parts := FenFields(s);
            && |parts| == (if s.variant == ThreeCheck then 7 else 6)
            && parts[0] == PlacementText(s) && parts[1] == TurnText(s.turn)
            && parts[2] == FormatCastlingField(s.castling, s.board) && parts[3] == EpText(s.epSquare)
            && (if s.variant == ThreeCheck then
                  parts[4] == FormatRemaining(s.checkCount) &&
                  parts[5] == IntText(s.halfmoves) && parts[6] == IntText(s.fullmoves)
                else parts[4] == IntText(s.halfmoves) && parts[5] == IntText(s.fullmoves))
  {
  }

  lemma FieldsAreWords(s: State)
    ensures Words(FenWords(s))
  {
    FenFieldsAt(s);
    PlacementIsWord(s);
    CastlingFieldIsWord(s.castling, s.board);
    ShortFieldsAreWords(s);
    IntTextIsWord(s.halfmoves);
    IntTextIsWord(s.fullmoves);
    var words := FenWords(s);
    forall i | 0 <= i < |words| ensures IsWord(words[i]) {
      assert i == 0 || i == 1 || i == 2 || i == 3 || i == 4 || i == 5 || i == 6;
    }
  }

  lemma FieldsOfFen(s: State)
    ensures Fields(ToFen(s)) == FenWords(s)
  {
    FenFieldsAt(s);
    FieldsAreWords(s);
    EpWordIsWord(s.epSquare);
    if SpaceRank(s.epSquare) {
      var parts, w, c := FenFields(s), EpWord(s.epSquare), CodeUnit('1' as int + RankOf(s.epSquare));
      assert parts == parts[..3] + [w + [c]] + parts[4..] && FenWords(s) == parts[..3] + [w] + parts[4..];
      assert forall i :: 0 <= i < 3 ==> parts[..3][i] == FenWords(s)[i];
      assert forall i :: 0 <= i < |parts| - 4 ==> parts[4..][i] == FenWords(s)[i + 4];
      FieldsOfLoose(parts[..3], w, c, parts[4..]);
    } else {
      assert FenWords(s) == FenFields(s);
      FieldsOfJoined(FenFields(s));
    }
  }

  /** Does the reader take the counter field and the clocks beside it? */
  predicate LayoutFits(s: State) {
    s.variant == ThreeCheck ==> CountsFit(s.checkCount) && s.halfmoves >= 0 && s.fullmoves >= 0
  }

  const NO_CHECKS := Counters(0, 0)

  lemma LayoutReadsBack(s: State)
    requires Writable(s)
    ensures |FenWords(s)| >= 4
    ensures var layout := ReadCheckLayout(FenWords(s), s.variant);
            if !LayoutFits(s) then layout.Err?
            else layout == Ok(CheckLayout(if s.variant == ThreeCheck then s.checkCount else NO_CHECKS,
                                          Some(IntText(s.halfmoves)), Some(IntText(s.fullmoves))))
  {
    FenFieldsAt(s);
    ClockReadsBack(s.halfmoves, 0);
    ClockReadsBack(s.fullmoves, 1);
    if s.variant == ThreeCheck {
      ChecksReadBack(s.checkCount);
    }
  }

  /** What comes back of a position whose counter field and clocks are taken. */
  function ReadBack(s: State): State {
    State(Trimmed(s.board), s.turn, ParseCastlingField(FormatCastlingField(s.castling, s.board), Trimmed(s.board)),
          EpRead(s.epSquare), s.halfmoves, if s.fullmoves > 0 then s.fullmoves else 1,
          if s.variant == Crazyhouse then s.pockets else NO_POCKETS,
          if s.variant == ThreeCheck then s.checkCount else NO_CHECKS, s.variant)
  }

  lemma PartsReadBack(s: State)
    requires Writable(s)
    ensures |FenWords(s)| >= 4
    ensures var r := ParseParts(FenWords(s), s.variant); if LayoutFits(s) then r == Ok(ReadBack(s)) else r.Err?
  {
    FenFieldsAt(s);
    LayoutReadsBack(s);
    ClockReadsBack(s.halfmoves, 0);
    ClockReadsBack(s.fullmoves, 1);
    PlacementRoundTrip(s);
  }

  /** What parsing a written FEN yields, for any state the text can hold: a refusal, or the state as far as
      the text tells it. */
  lemma ParseOfToFen(s: State)
    requires Writable(s)
    ensures var r := ParseFen(ToFen(s), s.variant); if LayoutFits(s) then r == Ok(ReadBack(s)) else r.Err?
  {
    FieldsOfFen(s);
    PartsReadBack(s);
  }

  // ---- rights that can be read

  lemma SetStaysReadable(b: Board, r: CastlingRights, c: Color, side: CastlingSide, file: RookFile)
    requires AllReadable(b, r) && Readable(b, c, side, file)
    ensures AllReadable(b, SetRight(r, c, side, file))
  {
    forall c': Color, side': CastlingSide
      ensures Readable(b, c', side', Right(SetRight(r, c, side, file), c', side'))
    {
      assert Right(SetRight(r, c, side, file), c', side') ==
             if c' == c && side' == side then file else Right(r, c', side');
    }
  }

  lemma {:induction false} OutermostIsReadable(b: Board, c: Color, side: CastlingSide, kingFile: int, from: nat)
    requires from <= 8
    ensures var f := OutermostRook(b, c, side, kingFile, from);
            f == -1 || (RookOn(b, c, f) && Beyond(side, f, kingFile))
  {
    if from > 0 {
      OutermostIsReadable(b, c, side, kingFile, from - 1);
    }
  }

  lemma CharReadable(b: Board, r: CastlingRights, ch: char)
    requires AllReadable(b, r)
    ensures AllReadable(b, ParseChar(b, r, ch))
  {
    var c, lower := ColorOfChar(ch), Lower(ch);
    var kingFile := BackRankKingFile(b, c);
    if kingFile != -1 {
      if lower == 'k' || lower == 'q' {
        var side := if lower == 'k' then KSide else QSide;
        OutermostIsReadable(b, c, side, kingFile, 8);
        var file := OutermostRook(b, c, side, kingFile, 8);
        if file != -1 {
          SetStaysReadable(b, r, c, side, file);
        }
      } else {
        var file := lower as int - 'a' as int;
        if RookOn(b, c, file) && file != kingFile {
          SetStaysReadable(b, r, c, if file > kingFile then KSide else QSide, file);
        }
      }
    }
  }

  /** Whatever the field says, the rights read from it are borne out by the board. */
  lemma {:induction false} ParsedRightsAreReadable(b: Board, field: string)
    ensures AllReadable(b, ParseChars(b, field))
    ensures AllReadable(b, ParseCastlingField(field, b))
  {
    if field != "" {
      ParsedRightsAreReadable(b, field[..|field| - 1]);
      CharReadable(b, ParseChars(b, field[..|field| - 1]), field[|field| - 1]);
    }
  }

  // ---- what every FEN that is read gives

  lemma {:induction false} RowStaysOnBoard(row: string, r: int, f: nat, b: Board)
    requires 0 <= r < 8 && OffBoardEmpty(b)
    ensures var after := ParseRow(row, r, f, b); after.Ok? ==> OffBoardEmpty(after.value)
    decreases |row|
  {
    if row != "" && '1' <= row[0] <= '8' {
      RowStaysOnBoard(row[1..], r, f + DigitValue(row[0]), b);
    } else if row != "" && PieceOfChar(row[0]).Some? && f <= 7 {
      CoordinatesSquare(f, r);
      RowStaysOnBoard(row[1..], r, f + 1, b[MakeSquare(f, r) := PieceOfChar(row[0])]);
    }
  }

  lemma {:induction false} RowsStayOnBoard(rows: seq<string>, n: nat)
    requires n <= |rows| == 8
    ensures var after := ParseRows(rows, n); after.Ok? ==> OffBoardEmpty(after.value)
  {
    if n > 0 {
      RowsStayOnBoard(rows, n - 1);
      if ParseRows(rows, n - 1).Ok? {
        RowStaysOnBoard(rows[n - 1], 8 - n, 0, ParseRows(rows, n - 1).value);
      }
    }
  }

  lemma BoardIsTidy(text: string)
    ensures ParseBoard(text).Ok? ==> OffBoardEmpty(ParseBoard(text).value)
  {
    var rows := SplitOn(text, '/');
    if |rows| == 8 {
      RowsStayOnBoard(rows, 8);
    }
  }

  lemma LayoutCountsFit(parts: seq<string>, v: Variant)
    requires |parts| >= 4
    ensures var layout := ReadCheckLayout(parts, v);
            layout.Ok? ==>
              CountsFit(layout.value.delivered) && (v != ThreeCheck ==> layout.value.delivered == NO_CHECKS)
  {
  }

  lemma ClockIsBounded(token: Option<string>, fallback: int)
    requires ClockFits(fallback)
    ensures ReadClock(token, fallback).Ok? ==> ClockFits(ReadClock(token, fallback).value)
  {
  }

  /** Nothing stands off the board, the board bears out the rights, counts and clocks are in range. */
  ghost predicate Tidy(s: State) {
    && OffBoardEmpty(s.board) && AllReadable(s.board, s.castling)
    && CountsFit(s.checkCount) && (s.variant != ThreeCheck ==> s.checkCount == NO_CHECKS)
    && ClockFits(s.halfmoves) && 1 <= s.fullmoves <= MAX_SAFE_INTEGER
  }

  lemma PartsAreTidy(parts: seq<string>, v: Variant)
    requires |parts| >= 4
    ensures var r := ParseParts(parts, v); r.Ok? ==> r.value.variant == v && Tidy(r.value)
  {
    LayoutCountsFit(parts, v);
    var layout := ReadCheckLayout(parts, v);
    if layout.Ok? {
      ClockIsBounded(layout.value.halfmoveToken, 0);
      ClockIsBounded(layout.value.fullmoveToken, 1);
      var (pocketText, boardText) := SplitPlacement(parts[0]);
      BoardIsTidy(boardText);
      if ParseBoard(boardText).Ok? {
        ParsedRightsAreReadable(ParseBoard(boardText).value, parts[2]);
      }
    }
  }

  lemma ReadIsTidy(fen: string, v: Variant)
    ensures var r := ParseFen(fen, v); r.Ok? ==> r.value.variant == v && Tidy(r.value)
  {
    if |Fields(fen)| >= 4 {
      PartsAreTidy(Fields(fen), v);
    }
  }

  // ---- what comes back

  /** The king of an in-step right is the one the castling field finds. */
  lemma InStepIsReadable(b: Board, c: Color, side: CastlingSide, file: RookFile)
    requires RightInStep(b, c, side, file)
    ensures Readable(b, c, side, file)
  {
    if file != NO_ROOK {
      var k := KingSquare(b, c);
      SquareCoordinates(k);
      var f := BackRankKingFile(b, c);
      assert KingOn(b, c, FileOf(k));
      if f < FileOf(k) {
        CoordinatesSquare(f, BackRank(c));
        assert Holds(b, MakeSquare(f, BackRank(c)), c, King);
      }
    }
  }

  lemma RightsInStepAreReadable(s: State)
    requires RightsInStep(s)
    ensures AllReadable(s.board, s.castling)
  {
    forall c: Color, side: CastlingSide
      ensures Readable(s.board, c, side, Right(s.castling, c, side))
    {
      InStepIsReadable(s.board, c, side, Right(s.castling, c, side));
    }
  }

  /** Does the state come back from its FEN? Nothing stands off the board, the rights are borne out by it,
      pockets and check counts are there only in their variants, no count has passed three, no clock is
      negative where that is refused, and the en-passant field names its square again. */
  ghost predicate Returns(s: State) {
    && OffBoardEmpty(s.board) && AllReadable(s.board, s.castling)
    && (s.variant != Crazyhouse ==> s.pockets == NO_POCKETS)
    && (if s.variant == ThreeCheck then CountsFit(s.checkCount) && s.halfmoves >= 0 else s.checkCount == NO_CHECKS)
    && s.fullmoves >= 1 && EpComesBack(s.epSquare)
  }

  lemma RightsReadBack(s: State)
    ensures var r := ParseCastlingField(FormatCastlingField(s.castling, s.board), s.board);
            r == s.castling <==> AllReadable(s.board, s.castling)
  {
    if AllReadable(s.board, s.castling) {
      CastlingFieldRoundTrip(s.castling, s.board);
    }
    ParsedRightsAreReadable(s.board, FormatCastlingField(s.castling, s.board));
  }

  /** The round trip, for every state the text can hold. */
  lemma FenRoundTripExactly(s: State)
    requires Writable(s)
    ensures ParseFen(ToFen(s), s.variant) == Ok(s) <==> Returns(s)
  {
    ParseOfToFen(s);
    TrimmedIsSame(s.board);
    RightsReadBack(s);
    EpReadsBack(s.epSquare);
  }

  /** So, of the positions that are read from some FEN and accepted, all come back but those with a negative
      halfmove clock in Three-Check and those whose en-passant field is read as another square. */
  lemma AcceptedRoundTrip(fen: string, s: State)
    requires ParseFen(fen, s.variant) == Ok(s) && Valid(s) && EpWritable(s.epSquare)
    ensures ParseFen(ToFen(s), s.variant) == Ok(s) <==>
              EpComesBack(s.epSquare) && (s.variant == ThreeCheck ==> s.halfmoves >= 0)
  {
    ReadIsTidy(fen, s.variant);
    FenRoundTripExactly(s);
  }

  lemma NotReturned(s: State)
    requires Writable(s) && !Returns(s)
    ensures ParseFen(ToFen(s), s.variant) != Ok(s)
  {
    FenRoundTripExactly(s);
  }

  /** Every well-formed position of every variant comes back from its FEN; in Atomic the rights must be
      in step, in Three-Check at most three checks may have been given. */
  lemma WellFormedRoundTrip(s: State)
    requires WellFormed(s) && ClockFits(s.halfmoves) && ClockFits(s.fullmoves)
    requires s.variant == Atomic ==> RightsInStep(s)
    requires s.variant == ThreeCheck ==> CountsFit(s.checkCount)
    ensures ParseFen(ToFen(s), s.variant) == Ok(s)
  {
    assert s.variant != Atomic ==> RightsInStep(s);
    RightsInStepAreReadable(s);
    BoardSquaresComeBack(s.epSquare);
    FenRoundTripExactly(s);
  }
}
