/** Standard Algebraic Notation, section 8.2.3 of the PGN Specification, and why it is unambiguous
    (packages/chess-core/src/position.ts). */
module San {
  import opened ChessTypes
  import opened Geometry
  import opened Attack
  import opened MoveGen
  import opened Play
  import opened Legality
  import opened Validity
  import opened LegalPlay
  import opened Rights
  import opened Fen
  import opened MoveIdentity

  function FileName(sq: int): char { 'a' + FileOf(sq) as char }

  function RankName(sq: int): char
    requires 0 <= RankOf(sq) < 8
  {
    '1' + RankOf(sq) as char
  }

  function KindLetter(k: Kind): char { Upper(KindChar(k)) }

  /** Another legal move of the same kind of man to the same square, from elsewhere. A drop counts, its
      origin being -1. */
  ghost predicate Rival(s: State, m: Move, n: Move) {
    n in LegalMoves(s) && n.to == m.to && n.piece.kind == m.piece.kind && n.from != m.from
  }

  ghost function Disambiguate(s: State, m: Move): string
    requires OnBoard(m.from)
  {
    if !exists n :: Rival(s, m, n) then ""
    else if !exists n :: Rival(s, m, n) && FileOf(n.from) == FileOf(m.from) then [FileName(m.from)]
    else if !exists n :: Rival(s, m, n) && RankOf(n.from) == RankOf(m.from) then [RankName(m.from)]
    else SquareName(m.from)
  }

  function CaptureMark(capture: bool): string {
    if capture then "x" else ""
  }

  /** A pawn's capture; an en-passant one counts whatever stood behind the square. */
  predicate Strikes(m: Move) {
    m.captured.Some? || m.flags.enPassant
  }

  function PawnText(m: Move): string
    requires OnBoard(m.to)
  {
    (if Strikes(m) then [FileName(m.from)] + "x" else "")
    + SquareName(m.to)
    + (if m.promotion.Some? then "=" + [KindLetter(m.promotion.value)] else "")
  }

  ghost function PieceText(s: State, m: Move): string
    requires OnBoard(m.from) && OnBoard(m.to)
  {
    [KindLetter(m.piece.kind)] + Disambiguate(s, m) + CaptureMark(m.captured.Some?) + SquareName(m.to)
  }

  function DropText(m: Move): string
    requires OnBoard(m.to) && m.drop.Some?
  {
    [KindLetter(m.drop.value)] + "@" + SquareName(m.to)
  }

  /** The notation before any check mark. */
  ghost function SanCore(s: State, m: Move): string
    requires OnBoard(m.to) && (m.drop.None? ==> OnBoard(m.from))
  {
    if m.flags.kingCastle then "O-O"
    else if m.flags.queenCastle then "O-O-O"
    else if m.drop.Some? then DropText(m)
    else if m.piece.kind == Pawn then PawnText(m)
    else PieceText(s, m)
  }

  ghost function CheckMark(s: State, m: Move): string
    requires Playable(s, m)
  {
    var next := Apply(s, m);
    if !InCheck(next.board, next.variant, next.turn) then "" else if LegalMoves(next) == [] then "#" else "+"
  }

  ghost function ToSan(s: State, m: Move): string
    requires Playable(s, m) && OnBoard(m.to) && (m.drop.None? ==> OnBoard(m.from))
  {
    SanCore(s, m) + CheckMark(s, m)
  }

  // ---- reading the text back

  lemma SquareNamesDiffer(a: int, c: int)
    requires OnBoard(a) && OnBoard(c) && SquareName(a) == SquareName(c)
    ensures a == c
  {
    SquareNameRoundTrip(a);
    SquareNameRoundTrip(c);
  }

  lemma KindLettersDiffer(k: Kind, l: Kind)
    ensures KindLetter(k) == KindLetter(l) <==> k == l
    ensures 'A' <= KindLetter(k) <= 'Z' && KindLetter(k) != 'O'
  {
  }

  lemma NamesInRange(sq: int)
    requires OnBoard(sq)
    ensures 'a' <= FileName(sq) <= 'h' && '1' <= RankName(sq) <= '8'
    ensures SquareName(sq) == [FileName(sq), RankName(sq)]
  {
    SquareCoordinates(sq);
  }

  datatype Form = CastleForm | DropForm | PawnForm | PieceForm

  function FormOfText(text: string): Form {
    if text == "" || text[0] == 'O' then CastleForm
    else if |text| > 1 && text[1] == '@' then DropForm
    else if 'a' <= text[0] <= 'h' then PawnForm
    else PieceForm
  }

  function FormOf(m: Move): Form {
    if m.flags.kingCastle || m.flags.queenCastle then CastleForm
    else if m.drop.Some? then DropForm
    else if m.piece.kind == Pawn then PawnForm
    else PieceForm
  }

  lemma DisambiguationChars(s: State, m: Move)
    requires OnBoard(m.from)
    ensures var d := Disambiguate(s, m); |d| <= 2 && (d == "" || ('1' <= d[0] <= 'h' && d[0] != '@'))
  {
    NamesInRange(m.from);
  }

  /** The text shows which of the four forms it has, and does not end like a check mark. */
  lemma FormShows(s: State, m: Move)
    requires OnBoard(m.to) && (m.drop.None? ==> OnBoard(m.from))
    ensures FormOfText(SanCore(s, m)) == FormOf(m)
    ensures var text := SanCore(s, m); text != "" && text[|text| - 1] != '+' && text[|text| - 1] != '#'
  {
    NamesInRange(m.to);
    if FormOf(m) == DropForm {
      KindLettersDiffer(m.drop.value, m.drop.value);
    } else if FormOf(m) == PawnForm {
      NamesInRange(m.from);
      if m.promotion.Some? {
        KindLettersDiffer(m.promotion.value, m.promotion.value);
      }
    } else if FormOf(m) == PieceForm {
      KindLettersDiffer(m.piece.kind, m.piece.kind);
      DisambiguationChars(s, m);
    }
  }

  lemma MarksStrip(a: string, x: string, b: string, y: string)
    requires a != "" && a[|a| - 1] != '+' && a[|a| - 1] != '#' && b != "" && b[|b| - 1] != '+' && b[|b| - 1] != '#'
    requires x in {"", "+", "#"} && y in {"", "+", "#"} && a + x == b + y
    ensures a == b
  {
    var t := a + x;
    assert t[|t| - 1] == (if x == "" then a[|a| - 1] else x[0]);
    assert (b + y)[|t| - 1] == (if y == "" then b[|b| - 1] else y[0]);
    assert |x| == |y|;
    assert t[..|a|] == a && (b + y)[..|b|] == b;
  }

  // ---- each form determines its move

  lemma CastleTextTells(s: State, m: Move, n: Move)
    requires IsLegal(s, m) && IsLegal(s, n) && KingCount(s.board, s.turn) <= 1
    requires FormOf(m) == FormOf(n) == CastleForm && m.flags.kingCastle == n.flags.kingCastle
    ensures m == n
  {
    CastlingIsMarked(s, m);
    CastlingIsMarked(s, n);
    BoardMoveFacts(s, m);
    BoardMoveFacts(s, n);
    OnlyKingsCastle(s, m);
    OnlyKingsCastle(s, n);
    CastleFacts(s, m);
    CastleFacts(s, n);
    OneKing(s.board, s.turn);
    assert Holds(s.board, m.from, s.turn, King) && Holds(s.board, n.from, s.turn, King);
    assert m.from == n.from;
    CastleDetermined(s, m, n);
  }

  lemma DropTextTells(s: State, m: Move, n: Move)
    requires IsLegal(s, m) && IsLegal(s, n) && m.drop.Some? && n.drop.Some? && OnBoard(m.to) && OnBoard(n.to)
    requires DropText(m) == DropText(n)
    ensures m == n
  {
    DropFacts(s, m);
    DropFacts(s, n);
    KindLettersDiffer(m.drop.value, n.drop.value);
    var a, b := DropText(m), DropText(n);
    assert a[0] == KindLetter(m.drop.value) && b[0] == KindLetter(n.drop.value);
    assert a[2..] == SquareName(m.to) && b[2..] == SquareName(n.to);
    SquareNamesDiffer(m.to, n.to);
  }

  /** What a pawn's notation spells out. */
  lemma PawnTextParts(m: Move)
    requires OnBoard(m.from) && OnBoard(m.to)
    ensures var t := PawnText(m); var at := if Strikes(m) then 2 else 0;
            && |t| == at + 2 + (if m.promotion.Some? then 2 else 0)
            && (t[1] == 'x' <==> Strikes(m))
            && (Strikes(m) ==> t[0] == FileName(m.from))
            && t[at..at + 2] == SquareName(m.to)
            && (m.promotion.Some? ==> t[at + 3] == KindLetter(m.promotion.value))
  {
    NamesInRange(m.to);
    var t := PawnText(m);
    var at := if Strikes(m) then 2 else 0;
    assert t[at] == FileName(m.to) && t[at + 1] == RankName(m.to);
    assert t[at..at + 2] == [FileName(m.to), RankName(m.to)];
  }

  lemma SamePawnParts(m: Move, n: Move)
    requires OnBoard(m.from) && OnBoard(m.to)
    requires OnBoard(n.from) && OnBoard(n.to)
    requires PawnText(m) == PawnText(n)
    ensures Strikes(m) == Strikes(n) && m.to == n.to && m.promotion == n.promotion
    ensures Strikes(m) ==> FileOf(m.from) == FileOf(n.from)
  {
    PawnTextParts(m);
    PawnTextParts(n);
    SquareNamesDiffer(m.to, n.to);
    if m.promotion.Some? {
      KindLettersDiffer(m.promotion.value, n.promotion.value);
    }
  }

  /** A capturing pawn's file and target, or a pushed pawn's target, give its origin. */
  lemma PawnOrigin(s: State, m: Move, n: Move)
    requires IsBoardMove(s, m) && IsBoardMove(s, n) && m.piece.kind == Pawn && n.piece.kind == Pawn
    requires m.to == n.to && Strikes(m) == Strikes(n)
    requires Strikes(m) ==> FileOf(m.from) == FileOf(n.from)
    ensures m.from == n.from
  {
    var b, v, ep := s.board, s.variant, s.epSquare;
    if Strikes(m) {
      assert IsPawnStrike(m.from, m) && IsPawnStrike(n.from, n);
      assert m.from - n.from in {-2, 0, 2};
    } else {
      assert IsPush(b, m.from, m) || IsDoublePush(b, v, m.from, m);
      assert IsPush(b, n.from, n) || IsDoublePush(b, v, n.from, n);
    }
  }

  lemma PawnTextTells(s: State, m: Move, n: Move)
    requires IsLegal(s, m) && IsLegal(s, n)
    requires FormOf(m) == FormOf(n) == PawnForm && OnBoard(m.to) && OnBoard(n.to)
    requires PawnText(m) == PawnText(n)
    ensures m == n
  {
    BoardMoveFacts(s, m);
    BoardMoveFacts(s, n);
    SamePawnParts(m, n);
    PawnOrigin(s, m, n);
    OrdinaryDetermined(s, m, n);
  }

  lemma PieceTextParts(s: State, m: Move)
    requires OnBoard(m.from) && OnBoard(m.to)
    ensures var t := PieceText(s, m); var d := |Disambiguate(s, m)|; var x := if m.captured.Some? then 1 else 0;
            && |t| == 1 + d + x + 2
            && t[0] == KindLetter(m.piece.kind) && t[|t| - 2..] == SquareName(m.to) && t[1..1 + d] == Disambiguate(s, m)
  {
    var t, d := PieceText(s, m), Disambiguate(s, m);
    NamesInRange(m.to);
    assert t == [KindLetter(m.piece.kind)] + (d + (CaptureMark(m.captured.Some?) + SquareName(m.to)));
    assert t[|t| - 2..] == SquareName(m.to);
    assert t[1..1 + |d|] == d;
  }

  lemma SquareParts(m: Move, n: Move)
    requires OnBoard(m.from) && OnBoard(n.from)
    ensures FileName(m.from) == FileName(n.from) ==> FileOf(m.from) == FileOf(n.from)
    ensures RankName(m.from) == RankName(n.from) ==> RankOf(m.from) == RankOf(n.from)
    ensures FileName(m.from) != RankName(n.from)
    ensures FileOf(m.from) == FileOf(n.from) && RankOf(m.from) == RankOf(n.from) ==> m.from == n.from
  {
    NamesInRange(m.from);
    NamesInRange(n.from);
    SquareCoordinates(m.from);
    SquareCoordinates(n.from);
  }

  /** Two rivals never carry the same disambiguation. */
  lemma RivalsDiffer(s: State, m: Move, n: Move)
    requires OnBoard(m.from) && OnBoard(n.from) && Rival(s, m, n) && Rival(s, n, m)
    ensures Disambiguate(s, m) != Disambiguate(s, n)
  {
    SquareParts(m, n);
    SquareParts(n, m);
    NamesInRange(m.from);
    NamesInRange(n.from);
  }

  lemma PieceTextTells(s: State, m: Move, n: Move)
    requires m in LegalMoves(s) && n in LegalMoves(s)
    requires FormOf(m) == FormOf(n) == PieceForm && OnBoard(m.to) && OnBoard(n.to) && OnBoard(m.from) && OnBoard(n.from)
    requires PieceText(s, m) == PieceText(s, n)
    ensures m == n
  {
    LegalMovesExact(s, m);
    LegalMovesExact(s, n);
    BoardMoveFacts(s, m);
    BoardMoveFacts(s, n);
    PieceTextParts(s, m);
    PieceTextParts(s, n);
    SquareNamesDiffer(m.to, n.to);
    KindLettersDiffer(m.piece.kind, n.piece.kind);
    PieceCaptures(s, m);
    PieceCaptures(s, n);
    if m.from != n.from {
      RivalsDiffer(s, m, n);
    }
    OrdinaryDetermined(s, m, n);
  }

  lemma PieceCaptures(s: State, m: Move)
    requires IsBoardMove(s, m) && FormOf(m) == PieceForm
    ensures m.captured == s.board[m.to] && m.promotion.None?
  {
  }

  ghost predicate Notable(s: State, m: Move) {
    Playable(s, m) && OnBoard(m.to) && (m.drop.None? ==> OnBoard(m.from))
  }

  lemma SameCore(s: State, m: Move, n: Move)
    requires Notable(s, m) && Notable(s, n) && ToSan(s, m) == ToSan(s, n)
    ensures SanCore(s, m) == SanCore(s, n) && FormOf(m) == FormOf(n)
  {
    FormShows(s, m);
    FormShows(s, n);
    MarksStrip(SanCore(s, m), CheckMark(s, m), SanCore(s, n), CheckMark(s, n));
  }

  lemma CoreTells(s: State, m: Move, n: Move)
    requires KingCount(s.board, s.turn) <= 1 && m in LegalMoves(s) && n in LegalMoves(s)
    requires Notable(s, m) && Notable(s, n) && SanCore(s, m) == SanCore(s, n) && FormOf(m) == FormOf(n)
    ensures m == n
  {
    LegalMovesExact(s, m);
    LegalMovesExact(s, n);
    match FormOf(m)
    case CastleForm =>
      assert |"O-O"| != |"O-O-O"|;
      CastleTextTells(s, m, n);
    case DropForm => DropTextTells(s, m, n);
    case PawnForm => PawnTextTells(s, m, n);
    case PieceForm => PieceTextTells(s, m, n);
  }

  /** Where the side to move has one king at most, no two legal moves are written alike. */
  lemma SanIsUnambiguous(s: State, m: Move, n: Move)
    requires KingCount(s.board, s.turn) <= 1 && m in LegalMoves(s) && n in LegalMoves(s)
    ensures Notable(s, m) && Notable(s, n)
    ensures ToSan(s, m) == ToSan(s, n) ==> m == n
  {
    LegalMovesExact(s, m);
    LegalMovesExact(s, n);
    PseudoIsPlayable(s, m);
    PseudoIsPlayable(s, n);
    if ToSan(s, m) == ToSan(s, n) {
      SameCore(s, m, n);
      CoreTells(s, m, n);
    }
  }

  /** So no two legal moves are written alike at any point of any game from a start with one king a side at most,
      as every start the validator accepts has. */
  lemma SanIsUnambiguousAlong(ss: seq<State>, ms: seq<Move>, i: nat, m: Move, n: Move)
    requires Game(ss, ms) && KingsAtMostOne(ss[0].board) && i < |ss|
    requires m in LegalMoves(ss[i]) && n in LegalMoves(ss[i])
    ensures Notable(ss[i], m) && Notable(ss[i], n)
    ensures ToSan(ss[i], m) == ToSan(ss[i], n) ==> m == n
  {
    KingsAlong(ss, ms, i);
    assert ss[i].turn == White || ss[i].turn == Black;
    SanIsUnambiguous(ss[i], m, n);
  }

  // ---- the program's own statements

  /** The legal moves of the same kind of man to the same square from elsewhere. */
  method Rivals(s: State, m: Move) returns (same: seq<Move>)
    ensures forall n :: n in same <==> Rival(s, m, n)
  {
    var legal := GenerateLegalMoves(s);
    same := [];
    for i := 0 to |legal|
      invariant forall n :: n in same <==> n in legal[..i] && Rival(s, m, n)
    {
      assert legal[..i + 1] == legal[..i] + [legal[i]];
      if legal[i].to == m.to && legal[i].piece.kind == m.piece.kind && legal[i].from != m.from {
        same := same + [legal[i]];
      }
    }
    assert legal[..|legal|] == legal;
  }

  method WriteDisambiguation(s: State, m: Move) returns (text: string)
    requires OnBoard(m.from)
    ensures text == Disambiguate(s, m)
  {
    var same := Rivals(s, m);
    if |same| == 0 {
      return "";
    }
    assert Rival(s, m, same[0]);
    var sameFile := exists n :: n in same && FileOf(n.from) == FileOf(m.from);
    var sameRank := exists n :: n in same && RankOf(n.from) == RankOf(m.from);
    var name := SquareName(m.from);
    NamesInRange(m.from);
    if !sameFile {
      return [name[0]];
    }
    if !sameRank {
      return [name[1]];
    }
    text := name;
  }

  method WriteCheckMark(s: State, m: Move) returns (mark: string)
    requires Playable(s, m)
    ensures mark == CheckMark(s, m)
  {
    var next := ApplyMove(s, m);
    var check := ComputeInCheck(next.value.board, next.value.variant, next.value.turn);
    if !check {
      return "";
    }
    var legal := GenerateLegalMoves(next.value);
    mark := if |legal| == 0 then "#" else "+";
  }

  method WritePawnText(m: Move) returns (san: string)
    requires OnBoard(m.from) && OnBoard(m.to)
    ensures san == PawnText(m)
  {
    san := "";
    if m.captured.Some? || m.flags.enPassant {
      NamesInRange(m.from);
      san := san + ([SquareName(m.from)[0]] + "x");
    }
    san := san + SquareName(m.to);
    if m.promotion.Some? {
      san := san + ("=" + [Upper(KindChar(m.promotion.value))]);
    }
  }

  method WritePieceText(s: State, m: Move) returns (san: string)
    requires OnBoard(m.from) && OnBoard(m.to)
    ensures san == PieceText(s, m)
  {
    var origin := WriteDisambiguation(s, m);
    san := [Upper(KindChar(m.piece.kind))] + origin;
    if m.captured.Some? {
      san := san + "x";
    }
    san := san + SquareName(m.to);
  }

  method WriteSan(s: State, m: Move) returns (san: string)
    requires Notable(s, m)
    ensures san == ToSan(s, m)
  {
    var mark := WriteCheckMark(s, m);
    if m.flags.kingCastle {
      return "O-O" + mark;
    }
    if m.flags.queenCastle {
      return "O-O-O" + mark;
    }
    if m.drop.Some? {
      san := [Upper(KindChar(m.drop.value))] + "@" + SquareName(m.to);
    } else if m.piece.kind == Pawn {
      san := WritePawnText(m);
    } else {
      san := WritePieceText(s, m);
    }
    san := san + mark;
  }
}
