/** Attack detection (packages/chess-core/src/movegen.ts). A piece's attacks are defined looking
    forward from the piece; the program's test looks backward from the attacked square. */
module Attack {
  import opened Common
  import opened ChessTypes
  import opened Geometry

  predicate Holds(b: Board, sq: int, c: Color, k: Kind) {
    0 <= sq < 128 && b[sq] == Some(Piece(c, k))
  }

  /** A slider on `a` moving in steps of `off` gets to `c`, every square before `c` being empty. */
  predicate Reaches(b: Board, a: int, off: int, c: int)
    requires OnBoard(a) && off != 0
    decreases if off > 0 then 128 - a else a + 1
  {
    OnBoard(a + off) && (a + off == c || (b[a + off].None? && Reaches(b, a + off, off, c)))
  }

  predicate ReachesDiagonally(b: Board, a: int, c: int)
    requires OnBoard(a)
  {
    Reaches(b, a, 17, c) || Reaches(b, a, 15, c) || Reaches(b, a, -17, c) || Reaches(b, a, -15, c)
  }

  predicate ReachesStraight(b: Board, a: int, c: int)
    requires OnBoard(a)
  {
    Reaches(b, a, 16, c) || Reaches(b, a, -16, c) || Reaches(b, a, 1, c) || Reaches(b, a, -1, c)
  }

  /** The squares a piece standing on `from` bears on. */
  predicate Bears(b: Board, from: int, p: Piece, to: int)
    requires OnBoard(from)
  {
    match p.kind
    case Pawn => to - from == Forward(p.color) - 1 || to - from == Forward(p.color) + 1
    case Knight => IsKnightJump(to - from)
    case King => IsKingStep(to - from)
    case Bishop => ReachesDiagonally(b, from, to)
    case Rook => ReachesStraight(b, from, to)
    case Queen => ReachesDiagonally(b, from, to) || ReachesStraight(b, from, to)
  }

  predicate AttacksFrom(b: Board, from: int, who: Color, to: int) {
    OnBoard(from) && b[from].Some? && b[from].value.color == who && Bears(b, from, b[from].value, to)
  }

  ghost predicate Attacked(b: Board, sq: int, who: Color) {
    exists from :: AttacksFrom(b, from, who, sq)
  }

  // ---- rays look the same from both ends

  lemma {:induction false} ReachesOneMore(b: Board, a: int, off: int, x: int)
    requires OnBoard(a) && off != 0 && OnBoard(x) && OnBoard(x + off)
    requires Reaches(b, a, off, x) && b[x].None?
    ensures Reaches(b, a, off, x + off)
    decreases if off > 0 then 128 - a else a + 1
  {
    if a + off != x {
      ReachesOneMore(b, a + off, off, x);
    }
  }

  lemma {:induction false} ReachesBack(b: Board, a: int, off: int, c: int)
    requires OnBoard(a) && OnBoard(c) && off != 0
    requires Reaches(b, a, off, c)
    ensures Reaches(b, c, -off, a)
    decreases if off > 0 then 128 - a else a + 1
  {
    if a + off != c {
      ReachesBack(b, a + off, off, c);
      ReachesOneMore(b, c, -off, a + off);
    }
  }

  lemma {:induction false} ReachesOnBoard(b: Board, a: int, off: int, c: int)
    requires OnBoard(a) && off != 0 && Reaches(b, a, off, c)
    ensures OnBoard(c) && c != a
    ensures off > 0 ==> c > a
    ensures off < 0 ==> c < a
    decreases if off > 0 then 128 - a else a + 1
  {
    if a + off != c {
      ReachesOnBoard(b, a + off, off, c);
    }
  }

  /** The first square with a piece on it, walking from `a` in steps of `off`; -1 if there is none. */
  function FirstMan(b: Board, a: int, off: int): (r: int)
    requires OnBoard(a) && off != 0
    decreases if off > 0 then 128 - a else a + 1
  {
    if !OnBoard(a + off) then -1
    else if b[a + off].Some? then a + off
    else FirstMan(b, a + off, off)
  }

  lemma {:induction false} FirstManIsTheOneReached(b: Board, a: int, off: int, c: int)
    requires OnBoard(a) && off != 0
    ensures FirstMan(b, a, off) == c != -1 <==> OnBoard(c) && b[c].Some? && Reaches(b, a, off, c)
    decreases if off > 0 then 128 - a else a + 1
  {
    if OnBoard(a + off) && b[a + off].None? {
      FirstManIsTheOneReached(b, a + off, off, c);
    }
  }

  method WalkToFirstMan(b: Board, a: int, off: int) returns (t: int)
    requires OnBoard(a) && off != 0
    ensures t == FirstMan(b, a, off)
  {
    t := a + off;
    ghost var last := a;
    while OnBoard(t)
      invariant OnBoard(last) && t == last + off
      invariant FirstMan(b, last, off) == FirstMan(b, a, off)
      decreases if off > 0 then 128 - last else last + 1
    {
      if b[t].Some? {
        return;
      }
      last := t;
      t := t + off;
    }
    t := -1;
  }

  // ---- the backward test

  /** No `who` piece of kind `k` stands one table step away from `sq`. */
  ghost predicate NoLeaper(b: Board, sq: int, who: Color, k: Kind, offsets: seq<int>) {
    forall j :: 0 <= j < |offsets| ==> !(OnBoard(sq + offsets[j]) && Holds(b, sq + offsets[j], who, k))
  }

  /** Along no listed direction is the first man a `who` piece of kind `k` or queen. */
  ghost predicate NoLine(b: Board, sq: int, who: Color, k: Kind, offsets: seq<int>)
    requires OnBoard(sq) && 0 !in offsets
  {
    forall j :: 0 <= j < |offsets| ==>
      !Holds(b, FirstMan(b, sq, offsets[j]), who, k) && !Holds(b, FirstMan(b, sq, offsets[j]), who, Queen)
  }

  /** Walking backward from `sq` along `off`, the first man is exactly what could slide onto `sq`. */
  lemma LineBackward(b: Board, sq: int, off: int, from: int)
    requires OnBoard(sq) && OnBoard(from) && b[from].Some? && off != 0
    ensures Reaches(b, from, -off, sq) <==> FirstMan(b, sq, off) == from
  {
    FirstManIsTheOneReached(b, sq, off, from);
    if Reaches(b, from, -off, sq) {
      ReachesBack(b, from, -off, sq);
    }
    if FirstMan(b, sq, off) == from {
      ReachesBack(b, sq, off, from);
    }
  }

  lemma LeaperSteps(d: int)
    ensures IsKnightJump(d) ==> exists j :: 0 <= j < 8 && KNIGHT_OFFSETS[j] == -d
    ensures IsKingStep(d) ==> exists j :: 0 <= j < 8 && KING_OFFSETS[j] == -d
  {
    if IsKnightJump(d) {
      assert KNIGHT_OFFSETS[(if d == 33 then 4 else if d == 31 then 5 else if d == 18 then 6 else if d == 14 then 7
        else if d == -33 then 0 else if d == -31 then 1 else if d == -18 then 2 else 3)] == -d;
    }
    if IsKingStep(d) {
      assert KING_OFFSETS[(if d == -16 then 0 else if d == 16 then 1 else if d == -1 then 2 else if d == 1 then 3
        else if d == -17 then 4 else if d == -15 then 5 else if d == 17 then 6 else 7)] == -d;
    }
  }

  lemma LineDirections(b: Board, sq: int, who: Color, from: int)
    requires OnBoard(sq) && AttacksFrom(b, from, who, sq)
    ensures b[from].value.kind in {Bishop, Queen} && ReachesDiagonally(b, from, sq) ==>
              exists j :: 0 <= j < 4 && FirstMan(b, sq, BISHOP_OFFSETS[j]) == from
    ensures b[from].value.kind in {Rook, Queen} && ReachesStraight(b, from, sq) ==>
              exists j :: 0 <= j < 4 && FirstMan(b, sq, ROOK_OFFSETS[j]) == from
  {
    forall j | 0 <= j < 4
      ensures Reaches(b, from, -BISHOP_OFFSETS[j], sq) <==> FirstMan(b, sq, BISHOP_OFFSETS[j]) == from
      ensures Reaches(b, from, -ROOK_OFFSETS[j], sq) <==> FirstMan(b, sq, ROOK_OFFSETS[j]) == from
    {
      LineBackward(b, sq, BISHOP_OFFSETS[j], from);
      LineBackward(b, sq, ROOK_OFFSETS[j], from);
    }
    assert BISHOP_OFFSETS[0] == 17 && BISHOP_OFFSETS[1] == 15 && BISHOP_OFFSETS[2] == -17 && BISHOP_OFFSETS[3] == -15;
    assert ROOK_OFFSETS[0] == 16 && ROOK_OFFSETS[1] == -16 && ROOK_OFFSETS[2] == 1 && ROOK_OFFSETS[3] == -1;
  }

  /** Whatever attacks `sq` looking forward is seen by one of the five backward looks. */
  lemma AttackerIsSeen(b: Board, sq: int, who: Color, from: int)
    requires OnBoard(sq) && AttacksFrom(b, from, who, sq)
    ensures !(&& !SeesPawn(b, sq, who)
              && NoLeaper(b, sq, who, Knight, KNIGHT_OFFSETS) && NoLeaper(b, sq, who, King, KING_OFFSETS)
              && NoLine(b, sq, who, Bishop, BISHOP_OFFSETS) && NoLine(b, sq, who, Rook, ROOK_OFFSETS))
  {
    LeaperSteps(sq - from);
    LineDirections(b, sq, who, from);
    assert from == sq + (from - sq);
  }

  predicate SeesPawn(b: Board, sq: int, who: Color) {
    var f := Forward(who);
    || (Holds(b, sq - f - 1, who, Pawn) && OnBoard(sq - f - 1))
    || (Holds(b, sq - f + 1, who, Pawn) && OnBoard(sq - f + 1))
  }

  method SeesLeaper(b: Board, sq: int, who: Color, k: Kind, offsets: seq<int>) returns (r: bool)
    ensures r == !NoLeaper(b, sq, who, k, offsets)
  {
    for i := 0 to |offsets|
      invariant NoLeaper(b, sq, who, k, offsets[..i])
    {
      var t := sq + offsets[i];
      if OnBoard(t) && Holds(b, t, who, k) {
        return true;
      }
    }
    assert offsets[..|offsets|] == offsets;
    r := false;
  }

  method SeesLine(b: Board, sq: int, who: Color, k: Kind, offsets: seq<int>) returns (r: bool)
    requires OnBoard(sq) && 0 !in offsets
    ensures r == !NoLine(b, sq, who, k, offsets)
  {
    for i := 0 to |offsets|
      invariant NoLine(b, sq, who, k, offsets[..i])
    {
      var t := WalkToFirstMan(b, sq, offsets[i]);
      if Holds(b, t, who, k) || Holds(b, t, who, Queen) {
        return true;
      }
    }
    assert offsets[..|offsets|] == offsets;
    r := false;
  }

  lemma SeenPawnAttacks(b: Board, sq: int, who: Color)
    requires OnBoard(sq) && SeesPawn(b, sq, who)
    ensures Attacked(b, sq, who)
  {
    var f := Forward(who);
    assert AttacksFrom(b, sq - f - 1, who, sq) || AttacksFrom(b, sq - f + 1, who, sq);
  }

  lemma SeenLeaperAttacks(b: Board, sq: int, who: Color, k: Kind, offsets: seq<int>)
    requires OnBoard(sq) && !NoLeaper(b, sq, who, k, offsets)
    requires (k == Knight && offsets == KNIGHT_OFFSETS) || (k == King && offsets == KING_OFFSETS)
    ensures Attacked(b, sq, who)
  {
    var j :| 0 <= j < |offsets| && OnBoard(sq + offsets[j]) && Holds(b, sq + offsets[j], who, k);
    assert AttacksFrom(b, sq + offsets[j], who, sq);
  }

  lemma SeenLineAttacks(b: Board, sq: int, who: Color, k: Kind, offsets: seq<int>)
    requires OnBoard(sq)
    requires (k == Bishop && offsets == BISHOP_OFFSETS) || (k == Rook && offsets == ROOK_OFFSETS)
    requires !NoLine(b, sq, who, k, offsets)
    ensures Attacked(b, sq, who)
  {
    var j :| 0 <= j < |offsets| && !(!Holds(b, FirstMan(b, sq, offsets[j]), who, k)
                                     && !Holds(b, FirstMan(b, sq, offsets[j]), who, Queen));
    var t := FirstMan(b, sq, offsets[j]);
    FirstManIsTheOneReached(b, sq, offsets[j], t);
    LineBackward(b, sq, offsets[j], t);
    assert AttacksFrom(b, t, who, sq);
  }

  method IsSquareAttacked(b: Board, sq: int, who: Color) returns (r: bool)
    requires OnBoard(sq)
    ensures r == Attacked(b, sq, who)
  {
    if SeesPawn(b, sq, who) {
      SeenPawnAttacks(b, sq, who);
      return true;
    }
    r := SeesLeaper(b, sq, who, Knight, KNIGHT_OFFSETS);
    if r {
      SeenLeaperAttacks(b, sq, who, Knight, KNIGHT_OFFSETS);
      return;
    }
    r := SeesLeaper(b, sq, who, King, KING_OFFSETS);
    if r {
      SeenLeaperAttacks(b, sq, who, King, KING_OFFSETS);
      return;
    }
    r := SeesLine(b, sq, who, Bishop, BISHOP_OFFSETS);
    if r {
      SeenLineAttacks(b, sq, who, Bishop, BISHOP_OFFSETS);
      return;
    }
    r := SeesLine(b, sq, who, Rook, ROOK_OFFSETS);
    if r {
      SeenLineAttacks(b, sq, who, Rook, ROOK_OFFSETS);
      return;
    }
    forall from | AttacksFrom(b, from, who, sq)
      ensures false
    {
      AttackerIsSeen(b, sq, who, from);
    }
  }

  // ---- kings

  /** Where the king of `c` is first found at or after `sq`; -1 if nowhere. */
  function FindKingFrom(b: Board, c: Color, sq: nat): (r: int)
    ensures r == -1 || (sq <= r && OnBoard(r) && Holds(b, r, c, King))
    ensures r == -1 ==> forall t :: sq <= t && OnBoard(t) ==> !Holds(b, t, c, King)
    ensures r != -1 ==> forall t :: sq <= t < r && OnBoard(t) ==> !Holds(b, t, c, King)
    decreases |b| - sq
  {
    if sq >= |b| then -1
    else if OnBoard(sq) && Holds(b, sq, c, King) then sq
    else FindKingFrom(b, c, sq + 1)
  }

  function KingSquare(b: Board, c: Color): int {
    FindKingFrom(b, c, 0)
  }

  method FindKing(b: Board, c: Color) returns (r: int)
    ensures r == KingSquare(b, c)
  {
    for sq := 0 to |b|
      invariant KingSquare(b, c) == FindKingFrom(b, c, sq)
    {
      if OnBoard(sq) && Holds(b, sq, c, King) {
        return sq;
      }
    }
    r := -1;
  }

  /** Is `c` in check? Connected Atomic kings shield each other. */
  ghost predicate InCheck(b: Board, v: Variant, c: Color) {
    var k := KingSquare(b, c);
    k != -1 && !(v == Atomic && IsAdjacent(k, KingSquare(b, Opposite(c)))) && Attacked(b, k, Opposite(c))
  }

  method ComputeInCheck(b: Board, v: Variant, c: Color) returns (r: bool)
    ensures r == InCheck(b, v, c)
  {
    var k := FindKing(b, c);
    if k == -1 {
      return false;
    }
    if v == Atomic {
      var other := FindKing(b, Opposite(c));
      if IsAdjacent(k, other) {
        return false;
      }
    }
    r := IsSquareAttacked(b, k, Opposite(c));
  }
}
