/** Game status, variant by variant (packages/chess-core/src/position.ts). */
module Status {
  import opened Common
  import opened ChessTypes
  import opened Geometry
  import opened Attack
  import opened Legality

  datatype GameStatus =
    | Ongoing
    | Checkmate(winner: Color)
    | Stalemate
    | InsufficientMaterial
    | FiftyMove
    | VariantWin(winner: Color)
    | VariantDraw

  // ---- insufficient material

  /** 0 or 1, the colour of a square. */
  function Shade(sq: int): int {
    (RankOf(sq) + FileOf(sq)) % 2
  }

  predicate IsMan(b: Board, sq: int) {
    OnBoard(sq) && b[sq].Some? && b[sq].value.kind != King
  }

  /** Every man but the kings is a bishop on a square of shade `p`. */
  ghost predicate OnlyBishops(b: Board, p: int) {
    forall sq :: IsMan(b, sq) ==> b[sq].value.kind == Bishop && Shade(sq) == p
  }

  /** The only man but the kings is a knight on `n`. */
  ghost predicate OnlyKnight(b: Board, n: int) {
    IsMan(b, n) && b[n].value.kind == Knight && forall sq :: IsMan(b, sq) ==> sq == n
  }

  /** No sequence of moves can mate with this material. */
  ghost predicate DeadMaterial(b: Board) {
    OnlyBishops(b, 0) || OnlyBishops(b, 1) || exists n :: OnlyKnight(b, n)
  }

  /** The squares of the men below `n`, ascending. */
  function Men(b: Board, n: nat): seq<int>
    requires n <= 128
  {
    if n == 0 then [] else Men(b, n - 1) + if IsMan(b, n - 1) then [n - 1] else []
  }

  lemma {:induction false} MenExact(b: Board, n: nat)
    requires n <= 128
    ensures forall sq :: sq in Men(b, n) <==> 0 <= sq < n && IsMan(b, sq)
    ensures forall i, j :: 0 <= i < j < |Men(b, n)| ==> Men(b, n)[i] < Men(b, n)[j]
  {
    if n > 0 {
      MenExact(b, n - 1);
      var before := Men(b, n - 1);
      forall i | 0 <= i < |before|
        ensures before[i] < n - 1
      {
        assert before[i] in before;
      }
    }
  }

  lemma {:induction false} OneMan(b: Board, n: int, k: nat)
    requires k <= 128 && IsMan(b, n) && forall sq :: IsMan(b, sq) ==> sq == n
    ensures Men(b, k) == if n < k then [n] else []
  {
    if k > 0 {
      OneMan(b, n, k - 1);
    }
  }

  /** `pieces` and `shades` are what the program's loop has collected from `men`. */
  ghost predicate Collected(b: Board, men: seq<int>, pieces: seq<Kind>, shades: set<int>) {
    && |pieces| == |men|
    && (forall i :: 0 <= i < |men| ==> IsMan(b, men[i]) && pieces[i] == b[men[i]].value.kind)
    && (forall i :: 0 <= i < |men| && pieces[i] == Bishop ==> Shade(men[i]) in shades)
    && (forall p :: p in shades ==> exists i :: 0 <= i < |men| && pieces[i] == Bishop && Shade(men[i]) == p)
  }

  predicate ThreeTests(pieces: seq<Kind>, shades: set<int>) {
    || |pieces| == 0
    || (|pieces| == 1 && (pieces[0] == Bishop || pieces[0] == Knight))
    || ((forall k :: k in pieces ==> k == Bishop) && |shades| == 1)
  }

  /** Whatever man stands on the board has been collected. */
  lemma ManCollected(b: Board, pieces: seq<Kind>, shades: set<int>, sq: int) returns (i: nat)
    requires Collected(b, Men(b, |b|), pieces, shades) && IsMan(b, sq)
    ensures i < |pieces| == |Men(b, |b|)| && Men(b, |b|)[i] == sq && pieces[i] == b[sq].value.kind
  {
    MenExact(b, |b|);
    assert sq in Men(b, |b|);
    i :| 0 <= i < |pieces| && Men(b, |b|)[i] == sq;
  }

  lemma OneMinorIsDead(b: Board, pieces: seq<Kind>, shades: set<int>)
    requires Collected(b, Men(b, |b|), pieces, shades)
    requires |pieces| == 1 && (pieces[0] == Bishop || pieces[0] == Knight)
    ensures DeadMaterial(b)
  {
    var n := Men(b, |b|)[0];
    forall sq | IsMan(b, sq)
      ensures sq == n
    {
      var i := ManCollected(b, pieces, shades, sq);
    }
    assert OnlyKnight(b, n) || OnlyBishops(b, Shade(n));
  }

  lemma OneShadeIsDead(b: Board, pieces: seq<Kind>, shades: set<int>)
    requires Collected(b, Men(b, |b|), pieces, shades)
    requires (forall k :: k in pieces ==> k == Bishop) && |shades| == 1
    ensures DeadMaterial(b)
  {
    var p := Singleton(shades);
    forall sq | IsMan(b, sq)
      ensures b[sq].value.kind == Bishop && Shade(sq) == p
    {
      var i := ManCollected(b, pieces, shades, sq);
      assert pieces[i] in pieces;
    }
    assert OnlyBishops(b, p) && (p == 0 || p == 1);
  }

  lemma {:induction false} NoMen(b: Board, n: nat)
    requires n <= 128 && Men(b, n) == []
    ensures forall sq :: 0 <= sq < n ==> !IsMan(b, sq)
  {
    if n > 0 {
      NoMen(b, n - 1);
    }
  }

  lemma TestsImplyDead(b: Board, pieces: seq<Kind>, shades: set<int>)
    requires Collected(b, Men(b, |b|), pieces, shades) && ThreeTests(pieces, shades)
    ensures DeadMaterial(b)
  {
    if |pieces| == 0 {
      NoMen(b, |b|);
      assert OnlyBishops(b, 0);
    } else if |pieces| == 1 && (pieces[0] == Bishop || pieces[0] == Knight) {
      OneMinorIsDead(b, pieces, shades);
    } else {
      OneShadeIsDead(b, pieces, shades);
    }
  }

  lemma Singleton<T>(s: set<T>) returns (x: T)
    requires |s| == 1
    ensures s == {x}
  {
    x :| x in s;
    assert |s - {x}| == 0;
    assert s == {x};
  }

  lemma DeadPassesTests(b: Board, pieces: seq<Kind>, shades: set<int>)
    requires Collected(b, Men(b, |b|), pieces, shades) && DeadMaterial(b)
    ensures ThreeTests(pieces, shades)
  {
    var men := Men(b, |b|);
    if n :| OnlyKnight(b, n) {
      OneMan(b, n, |b|);
    } else if |pieces| > 0 {
      var p := if OnlyBishops(b, 0) then 0 else 1;
      assert pieces[0] == Bishop && Shade(men[0]) == p;
      forall q | q in shades
        ensures q == p
      {
        var i :| 0 <= i < |men| && pieces[i] == Bishop && Shade(men[i]) == q;
      }
      assert shades == {p};
    }
  }

  lemma CollectedGrows(b: Board, men: seq<int>, pieces: seq<Kind>, shades: set<int>, sq: int)
    requires Collected(b, men, pieces, shades) && IsMan(b, sq)
    ensures var k := b[sq].value.kind;
            Collected(b, men + [sq], pieces + [k], if k == Bishop then shades + {Shade(sq)} else shades)
  {
    var k := b[sq].value.kind;
    var men', pieces' := men + [sq], pieces + [k];
    var shades' := if k == Bishop then shades + {Shade(sq)} else shades;
    forall p | p in shades'
      ensures exists i :: 0 <= i < |men'| && pieces'[i] == Bishop && Shade(men'[i]) == p
    {
      if p in shades {
        var i :| 0 <= i < |men| && pieces[i] == Bishop && Shade(men[i]) == p;
        assert pieces'[i] == Bishop && Shade(men'[i]) == p;
      } else {
        assert pieces'[|men|] == Bishop && Shade(men'[|men|]) == p;
      }
    }
  }

  method HasInsufficientMaterial(b: Board, v: Variant) returns (r: bool)
    ensures r <==> (v == Standard || v == Chess960) && DeadMaterial(b)
  {
    if v != Standard && v != Chess960 {
      return false;
    }
    var pieces: seq<Kind> := [];
    var shades: set<int> := {};
    for sq := 0 to |b|
      invariant Collected(b, Men(b, sq), pieces, shades)
    {
      if !OnBoard(sq) || b[sq].None? || b[sq].value.kind == King {
        continue;
      }
      CollectedGrows(b, Men(b, sq), pieces, shades, sq);
      var k := b[sq].value.kind;
      pieces := pieces + [k];
      if k == Bishop {
        shades := shades + {Shade(sq)};
      }
    }
    if ThreeTests(pieces, shades) {
      TestsImplyDead(b, pieces, shades);
    }
    if DeadMaterial(b) {
      DeadPassesTests(b, pieces, shades);
    }
    r := ThreeTests(pieces, shades);
  }

  // ---- variant endings

  const CENTER: set<int> := {51, 52, 67, 68}

  function CenterKing(b: Board): Option<Color> {
    if KingSquare(b, White) in CENTER then Some(White)
    else if KingSquare(b, Black) in CENTER then Some(Black)
    else None
  }

  ghost predicate ReachesGoal(s: State) {
    exists m :: m in LegalMoves(s) && m.piece.kind == King && RankOf(m.to) == 7
  }

  ghost function RacingKingsResult(s: State): Option<GameStatus> {
    var wk, bk := KingSquare(s.board, White), KingSquare(s.board, Black);
    var wIn, bIn := wk != -1 && RankOf(wk) == 7, bk != -1 && RankOf(bk) == 7;
    if wIn && bIn then Some(VariantDraw)
    else if s.turn == White then
      if wIn then Some(VariantWin(White)) else if bIn then Some(VariantWin(Black)) else None
    else
      if bIn then Some(VariantWin(Black))
      else if wIn && !ReachesGoal(s) then Some(VariantWin(White))
      else None
  }

  predicate ArmyGone(b: Board, c: Color) {
    forall sq :: 0 <= sq < 128 && OnBoard(sq) ==> b[sq].None? || b[sq].value.color != c
  }

  ghost function VariantStatus(s: State): Option<GameStatus> {
    match s.variant
    case KingOfTheHill =>
      var c := CenterKing(s.board);
      if c.Some? then Some(VariantWin(c.value)) else None
    case ThreeCheck =>
      if s.checkCount.w >= 3 then Some(VariantWin(White))
      else if s.checkCount.b >= 3 then Some(VariantWin(Black)) else None
    case Atomic =>
      if KingSquare(s.board, White) == -1 then Some(VariantWin(Black))
      else if KingSquare(s.board, Black) == -1 then Some(VariantWin(White)) else None
    case RacingKings => RacingKingsResult(s)
    case Horde => if ArmyGone(s.board, White) then Some(VariantWin(Black)) else None
    case _ => None
  }

  ghost function StatusOf(s: State): GameStatus {
    var v := VariantStatus(s);
    if v.Some? then v.value
    else if LegalMoves(s) == [] then
      if InCheck(s.board, s.variant, s.turn) then Checkmate(Opposite(s.turn)) else Stalemate
    else if s.halfmoves >= 100 && s.variant != ThreeCheck then FiftyMove
    else if (s.variant == Standard || s.variant == Chess960) && DeadMaterial(s.board) then InsufficientMaterial
    else Ongoing
  }

  // ---- the program's own tests

  method KingReachedCenter(b: Board) returns (winner: Option<Color>)
    ensures winner == CenterKing(b)
  {
    var white := FindKing(b, White);
    if white != -1 && white in CENTER {
      return Some(White);
    }
    var black := FindKing(b, Black);
    winner := if black != -1 && black in CENTER then Some(Black) else None;
  }

  method BlackCanReachGoal(s: State) returns (r: bool)
    ensures r == ReachesGoal(s)
  {
    var legal := GenerateLegalMoves(s);
    for i := 0 to |legal|
      invariant forall j :: 0 <= j < i ==> !(legal[j].piece.kind == King && RankOf(legal[j].to) == 7)
    {
      if legal[i].piece.kind == King && RankOf(legal[i].to) == 7 {
        return true;
      }
    }
    r := false;
  }

  method ComputeRacingKings(s: State) returns (r: Option<GameStatus>)
    ensures r == RacingKingsResult(s)
  {
    var wk := FindKing(s.board, White);
    var bk := FindKing(s.board, Black);
    var wIn, bIn := wk != -1 && RankOf(wk) == 7, bk != -1 && RankOf(bk) == 7;
    if wIn && bIn {
      return Some(VariantDraw);
    }
    if s.turn == White {
      if wIn != bIn {
        return Some(VariantWin(if wIn then White else Black));
      }
    } else {
      if bIn && !wIn {
        return Some(VariantWin(Black));
      }
      if wIn && !bIn {
        var reachable := BlackCanReachGoal(s);
        if !reachable {
          return Some(VariantWin(White));
        }
      }
    }
    r := None;
  }

  method HordeIsGone(b: Board) returns (r: bool)
    ensures r == ArmyGone(b, White)
  {
    var whitePieces := 0;
    for sq := 0 to |b|
      invariant whitePieces >= 0
      invariant whitePieces == 0 <==> forall t :: 0 <= t < sq && OnBoard(t) ==> b[t].None? || b[t].value.color != White
    {
      if OnBoard(sq) && b[sq].Some? && b[sq].value.color == White {
        whitePieces := whitePieces + 1;
      }
    }
    r := whitePieces == 0;
  }

  method ComputeVariantStatus(s: State) returns (r: Option<GameStatus>)
    ensures r == VariantStatus(s)
  {
    if s.variant == KingOfTheHill {
      var winner := KingReachedCenter(s.board);
      if winner.Some? {
        return Some(VariantWin(winner.value));
      }
    }
    if s.variant == ThreeCheck {
      if s.checkCount.w >= 3 {
        return Some(VariantWin(White));
      }
      if s.checkCount.b >= 3 {
        return Some(VariantWin(Black));
      }
    }
    if s.variant == Atomic {
      var white := FindKing(s.board, White);
      if white == -1 {
        return Some(VariantWin(Black));
      }
      var black := FindKing(s.board, Black);
      if black == -1 {
        return Some(VariantWin(White));
      }
    }
    if s.variant == RacingKings {
      var win := ComputeRacingKings(s);
      if win.Some? {
        return win;
      }
    }
    if s.variant == Horde {
      var gone := HordeIsGone(s.board);
      if gone {
        return Some(VariantWin(Black));
      }
    }
    r := None;
  }

  method ComputeStatus(s: State) returns (r: GameStatus)
    ensures r == StatusOf(s)
  {
    var variantStatus := ComputeVariantStatus(s);
    if variantStatus.Some? {
      return variantStatus.value;
    }
    var legal := GenerateLegalMoves(s);
    if |legal| == 0 {
      var check := ComputeInCheck(s.board, s.variant, s.turn);
      if check {
        return Checkmate(Opposite(s.turn));
      }
      return Stalemate;
    }
    if s.halfmoves >= 100 && s.variant != ThreeCheck {
      return FiftyMove;
    }
    var dead := HasInsufficientMaterial(s.board, s.variant);
    r := if dead then InsufficientMaterial else Ongoing;
  }
}
