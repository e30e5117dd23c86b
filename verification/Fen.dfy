/** Forsyth-Edwards Notation, section 16.1 of the PGN Specification, with the Crazyhouse pocket and the
    seven-field Three-Check layout (packages/chess-core/src/fen.ts, packages/chess-core/src/check-counters.ts). */
module Fen {
  import opened Common
  import opened ChessTypes
  import opened Geometry
  import opened Text
  import opened CastlingField

  datatype FenError =
    | TooFewFields | CountersWithoutVariant | WrongFieldCount | NotAClock | CounterOutOfRange
    | UnrecognisedCounter | MalformedCounter | ClockTooLarge | BadPocketLetter
    | RankCount | RankOverflow | RankNotFilled | IllegalCharacter | BadTurn

  // ---- pieces as letters

  function KindChar(k: Kind): char {
    match k
    case Pawn => 'p' case Knight => 'n' case Bishop => 'b' case Rook => 'r' case Queen => 'q' case King => 'k'
  }

  function Upper(ch: char): char {
    if 'a' <= ch <= 'z' then ch - 'a' + 'A' else ch
  }

  function PieceChar(p: Piece): char {
    if p.color == White then Upper(KindChar(p.kind)) else KindChar(p.kind)
  }

  function KindOfChar(ch: char): Option<Kind> {
    match ch
    case 'p' => Some(Pawn) case 'n' => Some(Knight) case 'b' => Some(Bishop)
    case 'r' => Some(Rook) case 'q' => Some(Queen) case 'k' => Some(King)
    case _ => None
  }

  function PieceOfChar(ch: char): Option<Piece> {
    var k := KindOfChar(Lower(ch));
    if k.Some? then Some(Piece(ColorOfChar(ch), k.value)) else None
  }

  lemma PieceCharRoundTrip(p: Piece)
    ensures PieceOfChar(PieceChar(p)) == Some(p)
    ensures 'A' <= PieceChar(p) <= 'z' && PieceChar(p) != '[' && PieceChar(p) != ']'
  {
  }

  // ---- the placement field

  function DigitsOf(empty: nat): string
    requires empty <= 8
  {
    if empty > 0 then [DigitChar(empty)] else ""
  }

  /** Rank `r` from file `f` on, `empty` empty squares being pending. */
  function RankFrom(b: Board, r: int, f: nat, empty: nat): string
    requires 0 <= r < 8 && empty <= f <= 8
    decreases 8 - f, b
  {
    if f == 8 then DigitsOf(empty)
    else
      var cell := b[MakeSquare(f, r)];
      if cell.None? then RankFrom(b, r, f + 1, empty + 1)
      else DigitsOf(empty) + [PieceChar(cell.value)] + RankFrom(b, r, f + 1, 0)
  }

  /** Ranks 8 down to 1, the first `n` of them. */
  function RankTexts(b: Board, n: nat): seq<string>
    requires n <= 8
    decreases n, b
  {
    if n == 0 then [] else RankTexts(b, n - 1) + [RankFrom(b, 8 - n, 0, 0)]
  }

  function BoardText(b: Board): string {
    Join(RankTexts(b, 8), '/')
  }

  function UpperKinds(ks: seq<Kind>): string {
    seq(|ks|, i requires 0 <= i < |ks| => Upper(KindChar(ks[i])))
  }

  function LowerKinds(ks: seq<Kind>): string {
    seq(|ks|, i requires 0 <= i < |ks| => KindChar(ks[i]))
  }

  function PlacementText(s: State): string {
    BoardText(s.board) +
    if s.variant == Crazyhouse then "[" + UpperKinds(s.pockets.w) + LowerKinds(s.pockets.b) + "]" else ""
  }

  /** Read the rest of one rank onto the board. */
  function ParseRow(row: string, r: int, f: nat, b: Board): Result<Board, FenError>
    requires 0 <= r < 8
  {
    if row == "" then
      if f == 8 then Ok(b) else Err(RankNotFilled)
    else
      var ch := row[0];
      if '1' <= ch <= '8' then ParseRow(row[1..], r, f + DigitValue(ch), b)
      else if PieceOfChar(ch).Some? then
        if f > 7 then Err(RankOverflow)
        else ParseRow(row[1..], r, f + 1, b[MakeSquare(f, r) := PieceOfChar(ch)])
      else Err(IllegalCharacter)
  }

  /** Read the first `n` rows, rank 8 first. */
  function ParseRows(rows: seq<string>, n: nat): Result<Board, FenError>
    requires n <= |rows| == 8
    decreases n, rows
  {
    if n == 0 then Ok(seq(128, _ => None))
    else
      var before := ParseRows(rows, n - 1);
      if before.Err? then before else ParseRow(rows[n - 1], 8 - n, 0, before.value)
  }

  function ParseBoard(text: string): Result<Board, FenError> {
    var rows := SplitOn(text, '/');
    if |rows| != 8 then Err(RankCount) else ParseRows(rows, 8)
  }

  /** `String.prototype.slice` for a start that is not negative. */
  function Slice(s: string, from: nat, to: int): string {
    var end := if to < 0 then |s| + to else if to > |s| then |s| else to;
    if from < end then s[from..end] else ""
  }

  function ParsePockets(text: string): Result<Pockets, FenError> {
    if text == "" then Ok(Pockets([], []))
    else
      var n := |text| - 1;
      var before := ParsePockets(text[..n]);
      var k := KindOfChar(Lower(text[n]));
      if before.Err? then before
      else if k.None? then Err(BadPocketLetter)
      else if ColorOfChar(text[n]) == White then Ok(before.value.(w := before.value.w + [k.value]))
      else Ok(before.value.(b := before.value.b + [k.value]))
  }

  // ---- squares

  /** The square of a text too short to name one: it is equal to no square the board has, nor to -1. */
  const NOT_A_SQUARE := -1000

  /** One UTF-16 code unit. A surrogate half has no character of its own here. */
  function CodeUnit(n: int): char {
    var u := n % 0x10000;
    if 0xD800 <= u < 0xE000 then '\U{FFFD}' else u as char
  }

  /** The file by its three low bits and the rank by what is above the fourth, whatever the index. */
  function SquareName(sq: int): string {
    if sq == NOT_A_SQUARE then "a1" else ['a' + FileOf(sq) as char, CodeUnit('1' as int + RankOf(sq))]
  }

  function SquareFromName(name: string): int {
    if |name| < 2 then NOT_A_SQUARE
    else MakeSquare(name[0] as int - 'a' as int, name[1] as int - '1' as int)
  }

  lemma SquareNameRoundTrip(sq: int)
    requires OnBoard(sq)
    ensures SquareFromName(SquareName(sq)) == sq
    ensures |SquareName(sq)| == 2 && 'a' <= SquareName(sq)[0] <= 'h' && '1' <= SquareName(sq)[1] <= '8'
  {
    SquareCoordinates(sq);
    SmallUnit('1' as int + RankOf(sq));
    var name := SquareName(sq);
    assert name[0] as int - 'a' as int == FileOf(sq) && name[1] as int - '1' as int == RankOf(sq);
  }

  lemma SmallUnit(n: int)
    requires 0 <= n < 0xD800
    ensures CodeUnit(n) as int == n
  {
  }

  function EpText(ep: int): string {
    if ep == -1 then "-" else SquareName(ep)
  }

  // ---- Three-Check counters

  const THREE_CHECK_LIMIT := 3

  function RemainingFromDelivered(c: Counters): Counters {
    Counters(THREE_CHECK_LIMIT - c.w, THREE_CHECK_LIMIT - c.b)
  }

  function FormatRemaining(delivered: Counters): string {
    var c := RemainingFromDelivered(delivered);
    IntText(c.w) + "+" + IntText(c.b)
  }

  /** `N+M` */
  predicate LooksLikeRemaining(token: string) {
    var parts := SplitOn(token, '+');
    |parts| == 2 && IsDigits(parts[0]) && IsDigits(parts[1])
  }

  /** `+N+M` */
  predicate LooksLikeDelivered(token: string) {
    var parts := SplitOn(token, '+');
    |parts| == 3 && parts[0] == "" && IsDigits(parts[1]) && IsDigits(parts[2])
  }

  function InRange(c: Counters): Result<Counters, FenError> {
    if c.w > THREE_CHECK_LIMIT || c.b > THREE_CHECK_LIMIT then Err(CounterOutOfRange) else Ok(c)
  }

  function ParseRemaining(token: string): Result<Counters, FenError>
    requires LooksLikeRemaining(token)
  {
    var parts := SplitOn(token, '+');
    var c := InRange(Counters(NatValue(parts[0]), NatValue(parts[1])));
    if c.Err? then c else Ok(RemainingFromDelivered(c.value))
  }

  function ParseDelivered(token: string): Result<Counters, FenError>
    requires LooksLikeDelivered(token)
  {
    var parts := SplitOn(token, '+');
    InRange(Counters(NatValue(parts[1]), NatValue(parts[2])))
  }

  // ---- clocks and layout

  const MAX_SAFE_INTEGER := 9007199254740991

  /** A token read as a number; None when it is not one. */
  function NumberOf(token: string): Option<int> {
    if IsDigits(token) then Some(NatValue(token))
    else if |token| > 1 && token[0] == '+' && IsDigits(token[1..]) then Some(NatValue(token[1..]))
    else if |token| > 1 && token[0] == '-' && IsDigits(token[1..]) then Some(0 - NatValue(token[1..]) as int)
    else None
  }

  function ReadClock(token: Option<string>, fallback: int): Result<int, FenError> {
    if token.None? || NumberOf(token.value).None? then Ok(fallback)
    else
      var value := NumberOf(token.value).value;
      if value > MAX_SAFE_INTEGER || value < -MAX_SAFE_INTEGER then Err(ClockTooLarge) else Ok(value)
  }

  datatype CheckLayout = CheckLayout(delivered: Counters, halfmoveToken: Option<string>, fullmoveToken: Option<string>)

  function PartAt(parts: seq<string>, i: nat): Option<string> {
    if i < |parts| then Some(parts[i]) else None
  }

  function WithNumericClocks(layout: CheckLayout): Result<CheckLayout, FenError> {
    if (layout.halfmoveToken.Some? && !IsDigits(layout.halfmoveToken.value))
       || (layout.fullmoveToken.Some? && !IsDigits(layout.fullmoveToken.value))
    then Err(NotAClock) else Ok(layout)
  }

  function ReadCheckLayout(parts: seq<string>, v: Variant): Result<CheckLayout, FenError>
    requires |parts| >= 4
  {
    var none := Counters(0, 0);
    if v != ThreeCheck then
      if (|parts| > 4 && LooksLikeRemaining(parts[4])) || LooksLikeDelivered(parts[|parts| - 1])
      then Err(CountersWithoutVariant)
      else Ok(CheckLayout(none, PartAt(parts, 4), PartAt(parts, 5)))
    else if |parts| > 4 && LooksLikeRemaining(parts[4]) then
      if |parts| != 7 then Err(WrongFieldCount)
      else
        var c := ParseRemaining(parts[4]);
        if c.Err? then Err(c.error) else WithNumericClocks(CheckLayout(c.value, PartAt(parts, 5), PartAt(parts, 6)))
    else if |parts| == 7 && LooksLikeDelivered(parts[6]) then
      var c := ParseDelivered(parts[6]);
      if c.Err? then Err(c.error) else WithNumericClocks(CheckLayout(c.value, PartAt(parts, 4), PartAt(parts, 5)))
    else if |parts| > 6 then Err(UnrecognisedCounter)
    else if |parts| > 4 && '+' in parts[4] then Err(MalformedCounter)
    else Ok(CheckLayout(none, PartAt(parts, 4), PartAt(parts, 5)))
  }

  // ---- the whole record

  function TurnText(c: Color): string {
    if c == White then "w" else "b"
  }

  function FenFields(s: State): seq<string> {
    [PlacementText(s), TurnText(s.turn), FormatCastlingField(s.castling, s.board), EpText(s.epSquare)]
    + (if s.variant == ThreeCheck then [FormatRemaining(s.checkCount)] else [])
    + [IntText(s.halfmoves), IntText(s.fullmoves)]
  }

  function ToFen(s: State): string {
    Join(FenFields(s), ' ')
  }

  /** The pocket text and the board text of a placement field. */
  function SplitPlacement(placement: string): (string, string) {
    var bracket := IndexOf(placement, '[');
    var close := IndexOf(placement, ']');
    if bracket == |placement| then ("", placement)
    else (Slice(placement, bracket + 1, if close == |placement| then -1 else close), placement[..bracket])
  }

  function ParseParts(parts: seq<string>, v: Variant): Result<State, FenError>
    requires |parts| >= 4
  {
    var layout := ReadCheckLayout(parts, v);
    if layout.Err? then Err(layout.error)
    else
      var half := ReadClock(layout.value.halfmoveToken, 0);
      var full := ReadClock(layout.value.fullmoveToken, 1);
      if half.Err? then Err(half.error)
      else if full.Err? then Err(full.error)
      else
        var (pocketText, boardText) := SplitPlacement(parts[0]);
        var pockets := ParsePockets(pocketText);
        var board := ParseBoard(boardText);
        if pockets.Err? then Err(pockets.error)
        else if board.Err? then Err(board.error)
        else if parts[1] != "w" && parts[1] != "b" then Err(BadTurn)
        else Ok(State(board.value, if parts[1] == "w" then White else Black,
                      ParseCastlingField(parts[2], board.value),
                      if parts[3] == "-" then -1 else SquareFromName(parts[3]),
                      half.value, if full.value > 0 then full.value else 1,
                      pockets.value, layout.value.delivered, v))
  }

  function ParseFen(fen: string, v: Variant): Result<State, FenError> {
    var parts := Fields(fen);
    if |parts| < 4 then Err(TooFewFields) else ParseParts(parts, v)
  }
}
