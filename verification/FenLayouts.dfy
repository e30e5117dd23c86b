/** Where a FEN keeps its counts and clocks: the layouts that are read, and the FENs that are refused
    (packages/chess-core/src/fen.ts, packages/chess-core/src/check-counters.ts). */
module FenLayouts {
  import opened Common
  import opened ChessTypes
  import opened Text
  import opened CastlingField
  import opened Fen
  import opened FenRoundTrip
  import opened FenReading

  /** Remaining checks, `x+y`. */
  predicate PairAt(parts: seq<string>, i: nat, x: string, y: string) {
    i < |parts| && IsPair(parts[i], x, y)
  }

  /** Delivered checks, `+x+y`. */
  predicate PlusPairAt(parts: seq<string>, i: nat, x: string, y: string) {
    i < |parts| && parts[i] != "" && parts[i][0] == '+' && IsPair(parts[i][1..], x, y)
  }

  lemma PlusPairSplits(token: string, x: string, y: string)
    requires token != "" && token[0] == '+' && IsPair(token[1..], x, y)
    ensures SplitOn(token, '+') == ["", x, y]
  {
    PairSplits(token[1..], x, y);
    SplitFirst("", '+', token[1..]);
    assert "" + ['+'] + token[1..] == token;
  }

  lemma PlusPairsAreFound(token: string)
    ensures LooksLikeDelivered(token) <==> exists x, y :: token != "" && token[0] == '+' && IsPair(token[1..], x, y)
  {
    if LooksLikeDelivered(token) {
      var i := IndexOf(token, '+');
      IndexOfFound(token, '+');
      var parts := SplitOn(token, '+');
      assert parts == [token[..i]] + SplitOn(token[i + 1..], '+');
      assert token[..i] == "" && SplitOn(token[1..], '+') == parts[1..];
      PairsAreFound(token[1..]);
      var x, y :| IsPair(token[1..], x, y);
    }
    if x, y :| token != "" && token[0] == '+' && IsPair(token[1..], x, y) {
      PlusPairSplits(token, x, y);
    }
  }

  // ---- what each layout says

  ghost predicate NoPairAt(parts: seq<string>, i: nat) {
    forall x, y :: !PairAt(parts, i, x, y)
  }

  ghost predicate NoPlusPairAt(parts: seq<string>, i: nat) {
    forall x, y :: !PlusPairAt(parts, i, x, y)
  }

  /** Outside Three-Check no counts, and the clocks in the fifth and sixth fields. */
  ghost predicate Plain(parts: seq<string>, l: CheckLayout)
    requires parts != []
  {
    && NoPairAt(parts, 4) && NoPlusPairAt(parts, |parts| - 1)
    && l == CheckLayout(Counters(0, 0), PartAt(parts, 4), PartAt(parts, 5))
  }

  /** Seven fields with the checks still to give in the fifth. */
  ghost predicate Canonical(parts: seq<string>, l: CheckLayout) {
    exists x, y :: PairAt(parts, 4, x, y) && |parts| == 7 && NatValue(x) <= 3 && NatValue(y) <= 3 &&
      IsDigits(parts[5]) && IsDigits(parts[6]) &&
      l == CheckLayout(Counters(3 - NatValue(x), 3 - NatValue(y)), Some(parts[5]), Some(parts[6]))
  }

  /** Seven fields with the checks given in the last. */
  ghost predicate Trailing(parts: seq<string>, l: CheckLayout) {
    NoPairAt(parts, 4) &&
    exists x, y :: PlusPairAt(parts, 6, x, y) && |parts| == 7 && NatValue(x) <= 3 && NatValue(y) <= 3 &&
      IsDigits(parts[4]) && IsDigits(parts[5]) &&
      l == CheckLayout(Counters(NatValue(x), NatValue(y)), Some(parts[4]), Some(parts[5]))
  }

  /** At most six fields and no counts: none has been given. */
  ghost predicate Legacy(parts: seq<string>, l: CheckLayout) {
    && |parts| <= 6 && (|parts| > 4 ==> '+' !in parts[4])
    && l == CheckLayout(Counters(0, 0), PartAt(parts, 4), PartAt(parts, 5))
  }

  lemma PairIsOne(token: string, x: string, y: string, x': string, y': string)
    requires IsPair(token, x, y) && IsPair(token, x', y')
    ensures x == x' && y == y'
  {
    PairSplits(token, x, y);
    PairSplits(token, x', y');
    assert [x, y][0] == [x', y'][0] && [x, y][1] == [x', y'][1];
  }

  lemma PairHoldsPlus(token: string, x: string, y: string)
    requires IsPair(token, x, y)
    ensures '+' in token && '+' in token + ""
  {
    assert token[|x|] == '+';
  }

  lemma PairsAt(parts: seq<string>, i: nat)
    requires i < |parts|
    ensures LooksLikeRemaining(parts[i]) <==> exists x, y :: PairAt(parts, i, x, y)
    ensures LooksLikeDelivered(parts[i]) <==> exists x, y :: PlusPairAt(parts, i, x, y)
  {
    PairsAreFound(parts[i]);
    PlusPairsAreFound(parts[i]);
    if LooksLikeRemaining(parts[i]) {
      var x, y :| IsPair(parts[i], x, y);
      assert PairAt(parts, i, x, y);
    }
    if LooksLikeDelivered(parts[i]) {
      var x, y :| parts[i] != "" && parts[i][0] == '+' && IsPair(parts[i][1..], x, y);
      assert PlusPairAt(parts, i, x, y);
    }
  }

  lemma PlainExactly(parts: seq<string>, v: Variant, l: CheckLayout)
    requires |parts| >= 4 && v != ThreeCheck
    ensures ReadCheckLayout(parts, v) == Ok(l) <==> Plain(parts, l)
  {
    if |parts| > 4 {
      PairsAt(parts, 4);
    }
    PairsAt(parts, |parts| - 1);
  }

  lemma CountsFound(token: string, x: string, y: string)
    requires IsPair(token, x, y)
    ensures LooksLikeRemaining(token)
    ensures ParseRemaining(token) ==
            if NatValue(x) <= 3 && NatValue(y) <= 3 then Ok(Counters(3 - NatValue(x), 3 - NatValue(y)))
            else Err(CounterOutOfRange)
  {
    PairSplits(token, x, y);
  }

  lemma DeliveredFound(token: string, x: string, y: string)
    requires token != "" && token[0] == '+' && IsPair(token[1..], x, y)
    ensures LooksLikeDelivered(token)
    ensures ParseDelivered(token) ==
            if NatValue(x) <= 3 && NatValue(y) <= 3 then Ok(Counters(NatValue(x), NatValue(y)))
            else Err(CounterOutOfRange)
  {
    PlusPairSplits(token, x, y);
  }

  lemma CanonicalExactly(parts: seq<string>, x: string, y: string, l: CheckLayout)
    requires |parts| >= 4 && PairAt(parts, 4, x, y)
    ensures ReadCheckLayout(parts, ThreeCheck) == Ok(l) <==> Canonical(parts, l)
    ensures !Trailing(parts, l) && !Legacy(parts, l)
  {
    CountsFound(parts[4], x, y);
    PairHoldsPlus(parts[4], x, y);
    if x', y' :| PairAt(parts, 4, x', y') && |parts| == 7 && NatValue(x') <= 3 && NatValue(y') <= 3 &&
                 IsDigits(parts[5]) && IsDigits(parts[6]) &&
                 l == CheckLayout(Counters(3 - NatValue(x'), 3 - NatValue(y')), Some(parts[5]), Some(parts[6])) {
      PairIsOne(parts[4], x, y, x', y');
    }
  }

  lemma TrailingExactly(parts: seq<string>, x: string, y: string, l: CheckLayout)
    requires |parts| == 7 && PlusPairAt(parts, 6, x, y) && !LooksLikeRemaining(parts[4])
    ensures ReadCheckLayout(parts, ThreeCheck) == Ok(l) <==> Trailing(parts, l)
    ensures !Canonical(parts, l) && !Legacy(parts, l)
  {
    DeliveredFound(parts[6], x, y);
    PairsAreFound(parts[4]);
    if x', y' :| PlusPairAt(parts, 6, x', y') && |parts| == 7 && NatValue(x') <= 3 && NatValue(y') <= 3 &&
                 IsDigits(parts[4]) && IsDigits(parts[5]) &&
                 l == CheckLayout(Counters(NatValue(x'), NatValue(y')), Some(parts[4]), Some(parts[5])) {
      PairIsOne(parts[6][1..], x, y, x', y');
    }
  }

  lemma LegacyExactly(parts: seq<string>, l: CheckLayout)
    requires |parts| >= 4 && (|parts| > 4 ==> !LooksLikeRemaining(parts[4]))
    requires |parts| == 7 ==> !LooksLikeDelivered(parts[6])
    ensures ReadCheckLayout(parts, ThreeCheck) == Ok(l) <==> Legacy(parts, l)
    ensures !Canonical(parts, l) && !Trailing(parts, l)
  {
    if |parts| > 4 {
      PairsAreFound(parts[4]);
    }
    if |parts| == 7 {
      PlusPairsAreFound(parts[6]);
    }
  }

  /** The counts and clocks of a FEN are read exactly as one of the layouts has them, and no other FEN is taken. */
  lemma LayoutsExactly(parts: seq<string>, v: Variant, l: CheckLayout)
    requires |parts| >= 4
    ensures ReadCheckLayout(parts, v) == Ok(l) <==>
              if v != ThreeCheck then Plain(parts, l)
              else Canonical(parts, l) || Trailing(parts, l) || Legacy(parts, l)
  {
    if v != ThreeCheck {
      PlainExactly(parts, v, l);
    } else if |parts| > 4 && LooksLikeRemaining(parts[4]) {
      PairsAreFound(parts[4]);
      var x, y :| IsPair(parts[4], x, y);
      CanonicalExactly(parts, x, y, l);
    } else if |parts| == 7 && LooksLikeDelivered(parts[6]) {
      PlusPairsAreFound(parts[6]);
      var x, y :| parts[6] != "" && parts[6][0] == '+' && IsPair(parts[6][1..], x, y);
      TrailingExactly(parts, x, y, l);
    } else {
      LegacyExactly(parts, l);
    }
  }

  // ---- the whole record

  /** The position the fields describe, given where the counts and clocks are. */
  ghost predicate Describes(parts: seq<string>, v: Variant, l: CheckLayout, s: State)
    requires |parts| >= 4
  {
    var (pocketText, boardText) := SplitPlacement(parts[0]);
    && ReadClock(l.halfmoveToken, 0) == Ok(s.halfmoves)
    && (exists n :: ReadClock(l.fullmoveToken, 1) == Ok(n) && s.fullmoves == if n < 1 then 1 else n)
    && (forall i :: 0 <= i < |pocketText| ==> ManOf(pocketText[i]).Some?)
    && s.pockets == Pockets(KindsIn(pocketText, White), KindsIn(pocketText, Black))
    && ParseBoard(boardText) == Ok(s.board)
    && parts[1] == (if s.turn == White then "w" else "b")
    && s.castling == ParseCastlingField(parts[2], s.board)
    && s.epSquare == (if parts[3] == "-" then -1 else SquareFromName(parts[3]))
    && s.checkCount == l.delivered && s.variant == v
  }

  lemma FieldsDescribe(parts: seq<string>, v: Variant, l: CheckLayout, s: State)
    requires |parts| >= 4 && ReadCheckLayout(parts, v) == Ok(l)
    ensures ParseParts(parts, v) == Ok(s) <==> Describes(parts, v, l, s)
  {
    var (pocketText, boardText) := SplitPlacement(parts[0]);
    PocketsReadExactly(pocketText);
    assert "w" != "b";
  }

  /** A FEN is read as a position exactly when it has four fields, or more, that describe it in one of the layouts. */
  lemma FenReadsExactly(fen: string, v: Variant, s: State)
    ensures ParseFen(fen, v) == Ok(s) <==>
              var parts := Fields(fen);
              |parts| >= 4 && exists l ::
                && (if v != ThreeCheck then Plain(parts, l)
                    else Canonical(parts, l) || Trailing(parts, l) || Legacy(parts, l))
                && Describes(parts, v, l, s)
  {
    var parts := Fields(fen);
    if |parts| >= 4 {
      forall l ensures ReadCheckLayout(parts, v) == Ok(l) <==>
                         if v != ThreeCheck then Plain(parts, l)
                         else Canonical(parts, l) || Trailing(parts, l) || Legacy(parts, l)
      {
        LayoutsExactly(parts, v, l);
      }
      forall l | ReadCheckLayout(parts, v) == Ok(l)
        ensures ParseParts(parts, v) == Ok(s) <==> Describes(parts, v, l, s)
      {
        FieldsDescribe(parts, v, l, s);
      }
      if ParseFen(fen, v) == Ok(s) {
        var l := ReadCheckLayout(parts, v).value;
        assert ReadCheckLayout(parts, v) == Ok(l);
      }
    }
  }

  // ---- two layouts, one position

  function FirstFour(s: State): seq<string> {
    [PlacementText(s), TurnText(s.turn), FormatCastlingField(s.castling, s.board), EpText(s.epSquare)]
  }

  /** What has been given, `+w+b`, in place of what remains. */
  function DeliveredText(c: Counters): string {
    "+" + IntText(c.w) + "+" + IntText(c.b)
  }

  lemma DeliveredIsPair(c: Counters)
    requires CountsFit(c)
    ensures var t := DeliveredText(c); t[0] == '+' && IsPair(t[1..], IntText(c.w), IntText(c.b))
    ensures NatValue(IntText(c.w)) == c.w && NatValue(IntText(c.b)) == c.b
  {
    IntTextDigits(c.w);
    IntTextDigits(c.b);
    assert DeliveredText(c)[1..] == IntText(c.w) + ['+'] + IntText(c.b);
  }

  lemma RemainingIsPair(c: Counters)
    requires CountsFit(c)
    ensures IsPair(FormatRemaining(c), IntText(3 - c.w), IntText(3 - c.b))
    ensures NatValue(IntText(3 - c.w)) == 3 - c.w && NatValue(IntText(3 - c.b)) == 3 - c.b
  {
    IntTextDigits(3 - c.w);
    IntTextDigits(3 - c.b);
    assert FormatRemaining(c) == IntText(3 - c.w) + ['+'] + IntText(3 - c.b);
  }

  lemma ClockIsNoPair(n: int, x: string, y: string)
    ensures !IsPair(IntText(n), x, y)
  {
    IntTextIsWord(n);
    if IsPair(IntText(n), x, y) {
      PairHoldsPlus(IntText(n), x, y);
    }
  }

  /** The fields with the checks given at the end read as those with the checks remaining in the middle. */
  lemma TrailingReadsAlike(s: State)
    requires CountsFit(s.checkCount) && s.halfmoves >= 0 && s.fullmoves >= 0
    ensures var c, h, f := s.checkCount, IntText(s.halfmoves), IntText(s.fullmoves);
            ParseParts(FirstFour(s) + [h, f, DeliveredText(c)], ThreeCheck) ==
            ParseParts(FirstFour(s) + [FormatRemaining(c), h, f], ThreeCheck)
  {
    var c, h, f := s.checkCount, IntText(s.halfmoves), IntText(s.fullmoves);
    var ending, middle := FirstFour(s) + [h, f, DeliveredText(c)], FirstFour(s) + [FormatRemaining(c), h, f];
    IntTextDigits(s.halfmoves);
    IntTextDigits(s.fullmoves);
    DeliveredIsPair(c);
    RemainingIsPair(c);
    forall x, y ensures !PairAt(ending, 4, x, y) {
      ClockIsNoPair(s.halfmoves, x, y);
    }
    var l := CheckLayout(c, Some(h), Some(f));
    assert PlusPairAt(ending, 6, IntText(c.w), IntText(c.b)) && Trailing(ending, l);
    assert PairAt(middle, 4, IntText(3 - c.w), IntText(3 - c.b)) && Canonical(middle, l);
    LayoutsExactly(ending, ThreeCheck, l);
    LayoutsExactly(middle, ThreeCheck, l);
    SameFields(ending, middle, ThreeCheck, l);
  }

  lemma SameFields(parts: seq<string>, parts': seq<string>, v: Variant, l: CheckLayout)
    requires |parts| >= 4 && |parts'| >= 4 && forall i :: 0 <= i < 4 ==> parts[i] == parts'[i]
    requires ReadCheckLayout(parts, v) == Ok(l) == ReadCheckLayout(parts', v)
    ensures ParseParts(parts, v) == ParseParts(parts', v)
  {
  }

  /** Counts read under other rules are refused: a Three-Check FEN is no FEN of another variant. */
  lemma CountsNeedTheirVariant(s: State, v: Variant)
    requires s.variant == ThreeCheck && CountsFit(s.checkCount) && v != ThreeCheck
    ensures ParseFen(ToFen(s), v).Err?
  {
    FieldsOfFen(s);
    FenFieldsAt(s);
    RemainingIsPair(s.checkCount);
    var parts := FenWords(s);
    assert parts[4] == FormatRemaining(s.checkCount);
    assert PairAt(parts, 4, IntText(3 - s.checkCount.w), IntText(3 - s.checkCount.b));
    if ReadCheckLayout(parts, v).Ok? {
      LayoutsExactly(parts, v, ReadCheckLayout(parts, v).value);
    }
  }

  /** Four fields are enough: no clock run, the first move, no checks. */
  lemma FourFieldsAreEnough(s: State, v: Variant)
    ensures ReadCheckLayout(FirstFour(s), v) == Ok(CheckLayout(Counters(0, 0), None, None))
    ensures ParseParts(FirstFour(s), v).Ok? ==>
              var t := ParseParts(FirstFour(s), v).value;
              t.halfmoves == 0 && t.fullmoves == 1 && t.checkCount == Counters(0, 0)
  {
    EpTextHasNoPlus(s);
  }

  lemma EpTextHasNoPlus(s: State)
    ensures !LooksLikeDelivered(EpText(s.epSquare))
  {
    PlusPairsAreFound(EpText(s.epSquare));
    assert EpText(s.epSquare) != "" && EpText(s.epSquare)[0] != '+';
  }
}
