/** The castling field of a FEN: X-FEN out, X-FEN or Shredder-FEN in (packages/chess-core/src/castling.ts). */
module CastlingField {
  import opened Common
  import opened ChessTypes
  import opened Geometry
  import opened Attack
  import opened Castling

  predicate RookOn(b: Board, c: Color, file: int) {
    0 <= file < 8 && Holds(b, MakeSquare(file, BackRank(c)), c, Rook)
  }

  predicate KingOn(b: Board, c: Color, file: int) {
    0 <= file < 8 && Holds(b, MakeSquare(file, BackRank(c)), c, King)
  }

  function KingFileFrom(b: Board, c: Color, file: nat): (r: int)
    ensures r == -1 || (file <= r && KingOn(b, c, r))
    ensures forall f :: file <= f < (if r == -1 then 8 else r) ==> !KingOn(b, c, f)
    decreases 8 - file, b
  {
    if file >= 8 then -1 else if KingOn(b, c, file) then file else KingFileFrom(b, c, file + 1)
  }

  /** File of the first king of `c` on its back rank, or -1. */
  function BackRankKingFile(b: Board, c: Color): int {
    KingFileFrom(b, c, 0)
  }

  /** The file of the last rook strictly beyond `kingFile` on `side`, or -1. */
  function OutermostRook(b: Board, c: Color, side: CastlingSide, kingFile: int, from: nat): int
    requires from <= 8
    decreases from, b
  {
    if from == 0 then -1
    else
      var file := if side == KSide then from - 1 else 8 - from;
      if RookOn(b, c, file) && Beyond(side, file, kingFile) then file
      else OutermostRook(b, c, side, kingFile, from - 1)
  }

  predicate Beyond(side: CastlingSide, file: int, kingFile: int) {
    if side == KSide then file > kingFile else file < kingFile
  }

  /** No rook of `c` stands further out than `file`. */
  predicate IsOutermost(b: Board, c: Color, side: CastlingSide, file: int) {
    forall f :: 0 <= f < 8 && RookOn(b, c, f) ==> !Beyond(side, f, file)
  }

  function SideChar(c: Color, side: CastlingSide): char {
    if c == White then (if side == KSide then 'K' else 'Q') else (if side == KSide then 'k' else 'q')
  }

  function FileChar(c: Color, file: int): char
    requires 0 <= file < 8
  {
    (if c == White then 'A' else 'a') + file as char
  }

  // ---- writing

  /** The letter of the side, or of the file when another rook stands further out; none for a right that is gone. */
  function Letter(b: Board, c: Color, side: CastlingSide, file: RookFile): string {
    if file == NO_ROOK then ""
    else [if IsOutermost(b, c, side, file) then SideChar(c, side) else FileChar(c, file)]
  }

  function RightText(r: CastlingRights, b: Board, c: Color, side: CastlingSide): string {
    Letter(b, c, side, Right(r, c, side))
  }

  function RightsText(r: CastlingRights, b: Board): string {
    RightText(r, b, White, KSide) + RightText(r, b, White, QSide)
    + RightText(r, b, Black, KSide) + RightText(r, b, Black, QSide)
  }

  function FormatCastlingField(r: CastlingRights, b: Board): string {
    if RightsText(r, b) == "" then "-" else RightsText(r, b)
  }

  // ---- reading

  function SetRight(r: CastlingRights, c: Color, side: CastlingSide, file: RookFile): CastlingRights {
    var h := SideOf(r, c);
    var h' := if side == KSide then h.(k := file) else h.(q := file);
    if c == White then r.(w := h') else r.(b := h')
  }

  function ColorOfChar(ch: char): Color {
    if 'a' <= ch <= 'z' then Black else White
  }

  function Lower(ch: char): char {
    if 'A' <= ch <= 'Z' then ch - 'A' + 'a' else ch
  }

  function ParseChar(b: Board, r: CastlingRights, ch: char): CastlingRights {
    var c := ColorOfChar(ch);
    var lower := Lower(ch);
    var kingFile := BackRankKingFile(b, c);
    if kingFile == -1 then r
    else if lower == 'k' || lower == 'q' then
      var side := if lower == 'k' then KSide else QSide;
      var file := OutermostRook(b, c, side, kingFile, 8);
      if 0 <= file < 8 then SetRight(r, c, side, file) else r
    else
      var file := lower as int - 'a' as int;
      if !RookOn(b, c, file) then r
      else if file > kingFile then SetRight(r, c, KSide, file)
      else if file < kingFile then SetRight(r, c, QSide, file)
      else r
  }

  function ParseChars(b: Board, field: string): CastlingRights {
    if field == "" then NO_RIGHTS
    else ParseChar(b, ParseChars(b, field[..|field| - 1]), field[|field| - 1])
  }

  function ParseCastlingField(field: string, b: Board): CastlingRights {
    if field == "-" then NO_RIGHTS else ParseChars(b, field)
  }

  // ---- reading back what was written

  /** The right can be read off the board: its rook and its king stand on the back rank in order. */
  predicate Readable(b: Board, c: Color, side: CastlingSide, file: RookFile) {
    file != NO_ROOK ==>
      RookOn(b, c, file) && BackRankKingFile(b, c) != -1 && Beyond(side, file, BackRankKingFile(b, c))
  }

  lemma {:induction false} OutermostFound(b: Board, c: Color, side: CastlingSide, kingFile: int, file: int, from: nat)
    requires from <= 8 && RookOn(b, c, file) && Beyond(side, file, kingFile) && IsOutermost(b, c, side, file)
    requires if side == KSide then file < from else 8 - from <= file
    ensures OutermostRook(b, c, side, kingFile, from) == file
  {
    var f := if side == KSide then from - 1 else 8 - from;
    if f != file {
      assert !RookOn(b, c, f);
      OutermostFound(b, c, side, kingFile, file, from - 1);
    }
  }

  lemma RightReadsBack(b: Board, r: CastlingRights, c: Color, side: CastlingSide, file: RookFile)
    requires file != NO_ROOK && Readable(b, c, side, file)
    ensures ParseChar(b, r, if IsOutermost(b, c, side, file) then SideChar(c, side) else FileChar(c, file))
            == SetRight(r, c, side, file)
  {
    if IsOutermost(b, c, side, file) {
      OutermostFound(b, c, side, BackRankKingFile(b, c), file, 8);
    } else {
      var ch := FileChar(c, file);
      assert ColorOfChar(ch) == c && Lower(ch) as int - 'a' as int == file;
    }
  }

  lemma TextReadsOn(b: Board, r: CastlingRights, c: Color, side: CastlingSide, before: string)
    requires Readable(b, c, side, Right(r, c, side))
    requires Right(ParseChars(b, before), c, side) == NO_ROOK
    ensures ParseChars(b, before + RightText(r, b, c, side))
            == SetRight(ParseChars(b, before), c, side, Right(r, c, side))
  {
    var file := Right(r, c, side);
    var text := RightText(r, b, c, side);
    if file == NO_ROOK {
      assert before + text == before;
    } else {
      var all := before + text;
      assert |text| == 1 && all[..|all| - 1] == before && all[|all| - 1] == text[0];
      RightReadsBack(b, ParseChars(b, before), c, side, file);
    }
  }

  ghost predicate AllReadable(b: Board, r: CastlingRights) {
    forall c: Color, side: CastlingSide :: Readable(b, c, side, Right(r, c, side))
  }

  /** Rights in step with the board come back exactly from the field they are written as. */
  lemma CastlingFieldRoundTrip(r: CastlingRights, b: Board)
    requires AllReadable(b, r)
    ensures ParseCastlingField(FormatCastlingField(r, b), b) == r
  {
    var t1 := RightText(r, b, White, KSide);
    var t2 := t1 + RightText(r, b, White, QSide);
    var t3 := t2 + RightText(r, b, Black, KSide);
    var t4 := t3 + RightText(r, b, Black, QSide);
    TextReadsOn(b, r, White, KSide, "");
    assert "" + t1 == t1;
    TextReadsOn(b, r, White, QSide, t1);
    TextReadsOn(b, r, Black, KSide, t2);
    TextReadsOn(b, r, Black, QSide, t3);
    assert ParseChars(b, t4) == r;
    assert t4 == RightsText(r, b);
    RightTextChars(r, b);
  }

  /** The field is one word of letters, or a single dash. */
  lemma RightTextChars(r: CastlingRights, b: Board)
    ensures FormatCastlingField(r, b) != ""
    ensures forall i :: 0 <= i < |RightsText(r, b)| ==> RightsText(r, b)[i] >= 'A'
  {
  }

  /** Rights borne out by the board, as every reader's and every in-step position's are, name rooks on either
      side of the king. */
  lemma ReadableIsDistinct(s: State)
    requires AllReadable(s.board, s.castling)
    ensures RooksDistinct(s)
  {
    forall c: Color
      ensures Right(s.castling, c, KSide) == NO_ROOK || Right(s.castling, c, KSide) != Right(s.castling, c, QSide)
    {
      assert Readable(s.board, c, KSide, Right(s.castling, c, KSide));
      assert Readable(s.board, c, QSide, Right(s.castling, c, QSide));
    }
    assert s.castling.w.k == Right(s.castling, White, KSide) && s.castling.w.q == Right(s.castling, White, QSide);
    assert s.castling.b.k == Right(s.castling, Black, KSide) && s.castling.b.q == Right(s.castling, Black, QSide);
  }

  // ---- what the field tells apart

  function ColorText(r: CastlingRights, b: Board, c: Color): string {
    RightText(r, b, c, KSide) + RightText(r, b, c, QSide)
  }

  /** Equal, or no rook stands further out than either, so that both are written by their side. */
  predicate FilesAlike(b: Board, c: Color, side: CastlingSide, f: RookFile, f': RookFile) {
    f == f' || (f != NO_ROOK && f' != NO_ROOK && IsOutermost(b, c, side, f) && IsOutermost(b, c, side, f'))
  }

  /** One right each, on opposite sides, for the same rook, which both write by its file. */
  predicate Crossed(b: Board, c: Color, h: SideRights, h': SideRights) {
    && h.k != NO_ROOK && h.q == NO_ROOK && h' == SideRights(NO_ROOK, h.k)
    && !IsOutermost(b, c, KSide, h.k) && !IsOutermost(b, c, QSide, h.k)
  }

  predicate WrittenAlike(b: Board, c: Color, h: SideRights, h': SideRights) {
    || (FilesAlike(b, c, KSide, h.k, h'.k) && FilesAlike(b, c, QSide, h.q, h'.q))
    || Crossed(b, c, h, h') || Crossed(b, c, h', h)
  }

  lemma LettersTell(b: Board, c: Color, side: CastlingSide, f: RookFile, f': RookFile)
    ensures Letter(b, c, side, f) == Letter(b, c, side, f') <==> FilesAlike(b, c, side, f, f')
    ensures f == NO_ROOK <==> |Letter(b, c, side, f)| == 0
    ensures f != NO_ROOK <==> |Letter(b, c, side, f)| == 1
  {
    if f != NO_ROOK && f' != NO_ROOK {
      assert FileChar(c, f) == FileChar(c, f') ==> f == f';
      assert Letter(b, c, side, f)[0] == if IsOutermost(b, c, side, f) then SideChar(c, side) else FileChar(c, f);
      assert Letter(b, c, side, f')[0] == if IsOutermost(b, c, side, f') then SideChar(c, side) else FileChar(c, f');
    }
  }

  lemma LettersAcross(b: Board, c: Color, f: RookFile, f': RookFile)
    requires f != NO_ROOK && f' != NO_ROOK
    ensures Letter(b, c, KSide, f) == Letter(b, c, QSide, f') <==>
              f == f' && !IsOutermost(b, c, KSide, f) && !IsOutermost(b, c, QSide, f)
  {
    assert FileChar(c, f) == FileChar(c, f') ==> f == f';
    assert Letter(b, c, KSide, f)[0] == if IsOutermost(b, c, KSide, f) then SideChar(c, KSide) else FileChar(c, f);
    assert Letter(b, c, QSide, f')[0] == if IsOutermost(b, c, QSide, f') then SideChar(c, QSide) else FileChar(c, f');
  }

  lemma Concats(x: string, y: string, x': string, y': string)
    requires |x| <= 1 && |y| <= 1 && |x'| <= 1 && |y'| <= 1
    ensures x + y == x' + y' <==>
              (x == x' && y == y') || (x == "" && x' == y && y' == "") || (x' == "" && x == y' && y == "")
  {
    if x + y == x' + y' {
      assert |x| + |y| == |x'| + |y'|;
      if |x| == |x'| {
        assert (x + y)[..|x|] == x && (x' + y')[..|x|] == x' && (x + y)[|x|..] == y && (x' + y')[|x|..] == y';
      } else if x == "" {
        assert x + y == y;
      } else {
        assert x' + y' == y';
      }
    }
  }

  lemma ColorTextExactly(r: CastlingRights, r': CastlingRights, b: Board, c: Color)
    ensures ColorText(r, b, c) == ColorText(r', b, c) <==> WrittenAlike(b, c, SideOf(r, c), SideOf(r', c))
  {
    var h, h' := SideOf(r, c), SideOf(r', c);
    LettersTell(b, c, KSide, h.k, h'.k);
    LettersTell(b, c, QSide, h.q, h'.q);
    LettersTell(b, c, KSide, h'.k, h.k);
    LettersTell(b, c, QSide, h'.q, h.q);
    Concats(Letter(b, c, KSide, h.k), Letter(b, c, QSide, h.q), Letter(b, c, KSide, h'.k), Letter(b, c, QSide, h'.q));
    if h.k != NO_ROOK && h'.q != NO_ROOK {
      LettersAcross(b, c, h.k, h'.q);
    }
    if h'.k != NO_ROOK && h.q != NO_ROOK {
      LettersAcross(b, c, h'.k, h.q);
    }
  }

  lemma LetterCase(r: CastlingRights, b: Board, c: Color, i: int)
    requires 0 <= i < |ColorText(r, b, c)|
    ensures if c == White then 'A' <= ColorText(r, b, c)[i] <= 'Z' else 'a' <= ColorText(r, b, c)[i] <= 'z'
  {
  }

  lemma LowThenHigh(w: string, b: string)
    requires forall i :: 0 <= i < |w| ==> w[i] <= 'Z'
    requires forall i :: 0 <= i < |b| ==> b[i] > 'Z'
    ensures forall i :: 0 <= i < |w + b| ==> ((w + b)[i] <= 'Z' <==> i < |w|)
  {
  }

  lemma SameLength(t: string, m: nat, n: nat)
    requires m <= |t| && n <= |t|
    requires forall i :: 0 <= i < |t| ==> (t[i] <= 'Z' <==> i < m)
    requires forall i :: 0 <= i < |t| ==> (t[i] <= 'Z' <==> i < n)
    ensures m == n
  {
    assert m < |t| ==> !(t[m] <= 'Z');
    assert n < |t| ==> !(t[n] <= 'Z');
  }

  /** Letters of either case, White's first, fall apart again in one way. */
  lemma ColoursApart(w: string, b: string, w': string, b': string)
    requires forall i :: 0 <= i < |w| ==> w[i] <= 'Z'
    requires forall i :: 0 <= i < |w'| ==> w'[i] <= 'Z'
    requires forall i :: 0 <= i < |b| ==> b[i] > 'Z'
    requires forall i :: 0 <= i < |b'| ==> b'[i] > 'Z'
    requires w + b == w' + b'
    ensures w == w' && b == b'
  {
    LowThenHigh(w, b);
    LowThenHigh(w', b');
    SameLength(w + b, |w|, |w'|);
    assert (w + b)[..|w|] == w && (w' + b')[..|w'|] == w';
    assert (w + b)[|w|..] == b && (w' + b')[|w'|..] == b';
  }

  lemma ByColour(r: CastlingRights, b: Board)
    ensures RightsText(r, b) == ColorText(r, b, White) + ColorText(r, b, Black)
    ensures forall i :: 0 <= i < |ColorText(r, b, White)| ==> ColorText(r, b, White)[i] <= 'Z'
    ensures forall i :: 0 <= i < |ColorText(r, b, Black)| ==> ColorText(r, b, Black)[i] > 'Z'
  {
    forall i | 0 <= i < |ColorText(r, b, White)| ensures ColorText(r, b, White)[i] <= 'Z' {
      LetterCase(r, b, White, i);
    }
    forall i | 0 <= i < |ColorText(r, b, Black)| ensures ColorText(r, b, Black)[i] > 'Z' {
      LetterCase(r, b, Black, i);
    }
  }

  lemma TextsAgree(r: CastlingRights, r': CastlingRights, b: Board)
    ensures FormatCastlingField(r, b) == FormatCastlingField(r', b) <==> RightsText(r, b) == RightsText(r', b)
  {
    RightTextChars(r, b);
    RightTextChars(r', b);
    assert FormatCastlingField(r, b)[0] == '-' <==> RightsText(r, b) == "";
    assert FormatCastlingField(r', b)[0] == '-' <==> RightsText(r', b) == "";
  }

  lemma ColourTextsAgree(r: CastlingRights, r': CastlingRights, b: Board)
    ensures RightsText(r, b) == RightsText(r', b) <==>
              ColorText(r, b, White) == ColorText(r', b, White) && ColorText(r, b, Black) == ColorText(r', b, Black)
  {
    ByColour(r, b);
    ByColour(r', b);
    if RightsText(r, b) == RightsText(r', b) {
      ColoursApart(ColorText(r, b, White), ColorText(r, b, Black), ColorText(r', b, White), ColorText(r', b, Black));
    }
  }

  ghost predicate RightsAlike(b: Board, r: CastlingRights, r': CastlingRights) {
    forall c: Color :: WrittenAlike(b, c, SideOf(r, c), SideOf(r', c))
  }

  lemma BothColours(b: Board, r: CastlingRights, r': CastlingRights)
    ensures RightsAlike(b, r, r') <==>
              WrittenAlike(b, White, SideOf(r, White), SideOf(r', White)) &&
              WrittenAlike(b, Black, SideOf(r, Black), SideOf(r', Black))
  {
    if WrittenAlike(b, White, SideOf(r, White), SideOf(r', White)) &&
       WrittenAlike(b, Black, SideOf(r, Black), SideOf(r', Black))
    {
      forall c: Color ensures WrittenAlike(b, c, SideOf(r, c), SideOf(r', c)) {
        assert c == White || c == Black;
      }
    }
  }

  /** What rights share a castling field over one board. */
  lemma FieldTellsRights(r: CastlingRights, r': CastlingRights, b: Board)
    ensures FormatCastlingField(r, b) == FormatCastlingField(r', b) <==> RightsAlike(b, r, r')
  {
    TextsAgree(r, r', b);
    ColourTextsAgree(r, r', b);
    ColorTextExactly(r, r', b, White);
    ColorTextExactly(r, r', b, Black);
    BothColours(b, r, r');
  }

  /** Of each right, both hold the same or one holds none, and no rook has its right on opposite sides. */
  predicate SidesComparable(h: SideRights, h': SideRights) {
    && (h.k == h'.k || h.k == NO_ROOK || h'.k == NO_ROOK) && (h.q == h'.q || h.q == NO_ROOK || h'.q == NO_ROOK)
    && (h.k == h'.q ==> h.k == NO_ROOK) && (h'.k == h.q ==> h.q == NO_ROOK)
  }

  ghost predicate Comparable(r: CastlingRights, r': CastlingRights) {
    forall c: Color :: SidesComparable(SideOf(r, c), SideOf(r', c))
  }

  lemma ComparableAreTold(r: CastlingRights, r': CastlingRights, b: Board)
    requires Comparable(r, r') && FormatCastlingField(r, b) == FormatCastlingField(r', b)
    ensures r == r'
  {
    FieldTellsRights(r, r', b);
    forall c: Color ensures SideOf(r, c) == SideOf(r', c) {
      assert WrittenAlike(b, c, SideOf(r, c), SideOf(r', c));
    }
    assert r == CastlingRights(SideOf(r, White), SideOf(r, Black));
  }

  // ---- the loops

  method BackRankRookFiles(b: Board, c: Color) returns (files: seq<int>)
    ensures forall f :: f in files <==> RookOn(b, c, f)
    ensures forall i, j :: 0 <= i < j < |files| ==> files[i] < files[j]
  {
    files := [];
    for file := 0 to 8
      invariant forall f :: f in files <==> f < file && RookOn(b, c, f)
      invariant forall i, j :: 0 <= i < j < |files| ==> files[i] < files[j]
      invariant forall i :: 0 <= i < |files| ==> files[i] < file
    {
      if b[MakeSquare(file, BackRank(c))] == Some(Piece(c, Rook)) {
        files := files + [file];
      }
    }
  }

  method FindBackRankKingFile(b: Board, c: Color) returns (r: int)
    ensures r == BackRankKingFile(b, c)
  {
    for file := 0 to 8
      invariant BackRankKingFile(b, c) == KingFileFrom(b, c, file)
    {
      if b[MakeSquare(file, BackRank(c))] == Some(Piece(c, King)) {
        return file;
      }
    }
    r := -1;
  }

  lemma {:induction false} NoneBeyond(b: Board, c: Color, side: CastlingSide, kingFile: int, from: nat)
    requires from <= 8 && forall f :: 0 <= f < 8 && RookOn(b, c, f) ==> !Beyond(side, f, kingFile)
    ensures OutermostRook(b, c, side, kingFile, from) == -1
  {
    if from > 0 {
      NoneBeyond(b, c, side, kingFile, from - 1);
    }
  }

  /** The last (kingside) or first (queenside) of the candidates beyond the king. */
  method PickOutermost(b: Board, c: Color, side: CastlingSide, kingFile: int) returns (file: int)
    ensures file == OutermostRook(b, c, side, kingFile, 8)
  {
    var rookFiles := BackRankRookFiles(b, c);
    var candidates: seq<int> := [];
    for i := 0 to |rookFiles|
      invariant forall f :: f in candidates <==> f in rookFiles[..i] && Beyond(side, f, kingFile)
      invariant forall x, y :: 0 <= x < y < |candidates| ==> candidates[x] < candidates[y]
      invariant forall x :: 0 <= x < |candidates| ==> candidates[x] in rookFiles[..i]
    {
      assert rookFiles[..i + 1] == rookFiles[..i] + [rookFiles[i]];
      if Beyond(side, rookFiles[i], kingFile) {
        candidates := candidates + [rookFiles[i]];
      }
    }
    assert rookFiles[..|rookFiles|] == rookFiles;
    if |candidates| == 0 {
      NoneBeyond(b, c, side, kingFile, 8);
      return -1;
    }
    file := if side == KSide then candidates[|candidates| - 1] else candidates[0];
    assert file in candidates;
    forall f | 0 <= f < 8 && RookOn(b, c, f)
      ensures !Beyond(side, f, file)
    {
      if Beyond(side, f, kingFile) {
        assert f in candidates;
      }
    }
    OutermostFound(b, c, side, kingFile, file, 8);
  }

  method ReadCastlingField(field: string, b: Board) returns (rights: CastlingRights)
    ensures rights == ParseCastlingField(field, b)
  {
    rights := NO_RIGHTS;
    if field == "-" {
      return;
    }
    for i := 0 to |field|
      invariant rights == ParseChars(b, field[..i])
    {
      var before, upTo := field[..i], field[..i + 1];
      assert upTo[..i] == before && upTo[i] == field[i];
      var c := ColorOfChar(field[i]);
      var lower := Lower(field[i]);
      var kingFile := FindBackRankKingFile(b, c);
      if kingFile == -1 {
        continue;
      }
      if lower == 'k' || lower == 'q' {
        var side := if lower == 'k' then KSide else QSide;
        var file := PickOutermost(b, c, side, kingFile);
        if 0 <= file < 8 {
          rights := SetRight(rights, c, side, file);
        }
        continue;
      }
      var file := lower as int - 'a' as int;
      var rookFiles := BackRankRookFiles(b, c);
      if file !in rookFiles {
        continue;
      }
      if file > kingFile {
        rights := SetRight(rights, c, KSide, file);
      } else if file < kingFile {
        rights := SetRight(rights, c, QSide, file);
      }
    }
    assert field[..|field|] == field;
  }

  method WriteCastlingField(rights: CastlingRights, b: Board) returns (out: string)
    ensures out == FormatCastlingField(rights, b)
  {
    out := "";
    var order := [(White, KSide), (White, QSide), (Black, KSide), (Black, QSide)];
    for i := 0 to 4
      invariant out == (if i >= 1 then RightText(rights, b, White, KSide) else "")
                       + (if i >= 2 then RightText(rights, b, White, QSide) else "")
                       + (if i >= 3 then RightText(rights, b, Black, KSide) else "")
                       + (if i >= 4 then RightText(rights, b, Black, QSide) else "")
    {
      var (c, side) := order[i];
      var rookFiles := BackRankRookFiles(b, c);
      var file := Right(rights, c, side);
      if file == NO_ROOK {
        continue;
      }
      var further := exists f :: f in rookFiles && Beyond(side, f, file);
      out := out + [if further then FileChar(c, file) else SideChar(c, side)];
    }
    if out == "" {
      out := "-";
    }
  }
}
