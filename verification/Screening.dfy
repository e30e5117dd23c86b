/** What the anti-cheat figures count and when they raise suspicion, in whole numbers
    (packages/anti-cheat/src/analyzer.ts, packages/anti-cheat/src/aggregate.ts). */
module Screening {
  import opened CorrelationPooling

  // ---- what a ply is

  function EvalOf(ply: Ply, depth: int, eval: Evaluator): Evaluation {
    eval(ply.fen, ply.playedUci, depth)
  }

  /** Out of the book, with a best move and a value for the move that was played. */
  predicate Scored(ply: Ply, depth: int, eval: Evaluator) {
    var e := EvalOf(ply, depth, eval);
    !ply.isBook && |e.topMoves| > 0 && e.playedCp.Some?
  }

  predicate Unscored(ply: Ply, depth: int, eval: Evaluator) {
    !ply.isBook && !Scored(ply, depth, eval)
  }

  /** There is a second move, less than two pawns worse than the best. */
  predicate HadAChoice(ply: Ply, depth: int, eval: Evaluator) {
    var moves := EvalOf(ply, depth, eval).topMoves;
    Scored(ply, depth, eval) && |moves| >= 2 && moves[0].cp - moves[1].cp < 200.0
  }

  /** With a choice, the move played is the best, or the first of its spelling among the best three. */
  predicate MatchedBest(ply: Ply, depth: int, eval: Evaluator) {
    HadAChoice(ply, depth, eval) && EvalOf(ply, depth, eval).topMoves[0].uci == ply.playedUci
  }

  predicate MatchedTopThree(ply: Ply, depth: int, eval: Evaluator) {
    var moves := EvalOf(ply, depth, eval).topMoves;
    HadAChoice(ply, depth, eval) && exists i :: 0 <= i < 3 && i < |moves| && moves[i].uci == ply.playedUci
  }

  /** Centipawns behind the best move, none for a better one. */
  function LossOf(ply: Ply, depth: int, eval: Evaluator): real {
    var e := EvalOf(ply, depth, eval);
    if Scored(ply, depth, eval) && e.topMoves[0].cp > e.playedCp.value then e.topMoves[0].cp - e.playedCp.value else 0.0
  }

  // ---- counting

  /** How many of the plies pass the test. */
  function CountOf(plies: seq<Ply>, test: Ply -> bool): nat {
    if plies == [] then 0
    else CountOf(plies[..|plies| - 1], test) + if test(plies[|plies| - 1]) then 1 else 0
  }

  function SumOf(plies: seq<Ply>, value: Ply -> real): real {
    if plies == [] then 0.0 else SumOf(plies[..|plies| - 1], value) + value(plies[|plies| - 1])
  }

  lemma {:induction false} RankFinds(ms: seq<TopMove>, uci: string)
    ensures var k := RankOf(ms, uci);
            (k < |ms| ==> ms[k].uci == uci) && forall j :: 0 <= j < k ==> ms[j].uci != uci
  {
    if ms != [] && ms[0].uci != uci {
      RankFinds(ms[1..], uci);
    }
  }

  /** What one ply adds to each total. */
  lemma PlyCounts(ply: Ply, depth: int, eval: Evaluator)
    ensures var c := Contribution(ply, depth, eval); var loss := LossOf(ply, depth, eval);
            && c.sample == (if Scored(ply, depth, eval) then 1 else 0)
            && c.unscored == (if Unscored(ply, depth, eval) then 1 else 0)
            && c.tRate == (if HadAChoice(ply, depth, eval) then 1 else 0)
            && c.onlyMove == (if Scored(ply, depth, eval) && !HadAChoice(ply, depth, eval) then 1 else 0)
            && c.t1 == (if MatchedBest(ply, depth, eval) then 1 else 0)
            && c.t3 == (if MatchedTopThree(ply, depth, eval) then 1 else 0)
            && c.raw == loss && c.capped == (if loss < 300.0 then loss else 300.0)
  {
    var moves := EvalOf(ply, depth, eval).topMoves;
    RankFinds(moves, ply.playedUci);
    var k := RankOf(moves, ply.playedUci);
    if k < |moves| && k < 3 {
      assert moves[k].uci == ply.playedUci;
    }
  }

  lemma {:induction false} TotalsCount(plies: seq<Ply>, depth: int, eval: Evaluator)
    ensures var t := TotalsOf(plies, depth, eval);
            && t.sample == CountOf(plies, p => Scored(p, depth, eval))
            && t.unscored == CountOf(plies, p => Unscored(p, depth, eval))
            && t.tRate == CountOf(plies, p => HadAChoice(p, depth, eval))
            && t.onlyMove == CountOf(plies, p => Scored(p, depth, eval) && !HadAChoice(p, depth, eval))
            && t.t1 == CountOf(plies, p => MatchedBest(p, depth, eval))
            && t.t3 == CountOf(plies, p => MatchedTopThree(p, depth, eval))
    ensures var t := TotalsOf(plies, depth, eval);
            && t.raw == SumOf(plies, p => LossOf(p, depth, eval))
            && t.capped == SumOf(plies, p => if LossOf(p, depth, eval) < 300.0 then LossOf(p, depth, eval) else 300.0)
  {
    if plies != [] {
      TotalsCount(plies[..|plies| - 1], depth, eval);
      PlyCounts(plies[|plies| - 1], depth, eval);
    }
  }

  // ---- the verdict, in whole numbers

  lemma RatioAtLeast(a: nat, n: nat, num: nat, den: nat)
    requires n > 0 && den > 0
    ensures Ratio(a as real, n) >= num as real / den as real <==> den * a >= num * n
  {
    var x, d, m := n as real, den as real, num as real;
    var r := a as real / x;
    assert r * x == a as real;
    assert (m / d) * d == m;
    if r >= m / d {
      ProductKeeps(r, m / d, x * d);
      assert (m / d) * (x * d) == m * x;
      assert r * (x * d) == a as real * d;
    }
    if den * a >= num * n {
      assert d * a as real >= m * x;
      QuotientKeeps(r, m / d, x * d);
    }
  }

  lemma ProductKeeps(x: real, y: real, z: real)
    requires x >= y && z > 0.0
    ensures x * z >= y * z
  {
  }

  lemma QuotientKeeps(x: real, y: real, z: real)
    requires x * z >= y * z && z > 0.0
    ensures x >= y
  {
  }

  lemma AverageAtMost(total: real, n: nat, most: real)
    requires n > 0
    ensures Ratio(total, n) <= most <==> total <= most * n as real
  {
    var r := total / n as real;
    assert r * n as real == total;
    if total <= most * n as real {
      QuotientKeeps(most, r, n as real);
    }
    if r <= most {
      ProductKeeps(most, r, n as real);
    }
  }

  /** `r` is the average of `total` over `n`, or nothing over none. */
  predicate Averages(r: real, total: real, n: nat) {
    if n > 0 then r * n as real == total else r == 0.0
  }

  lemma RatioAverages(total: real, n: nat)
    ensures Averages(Ratio(total, n), total, n)
  {
  }

  /** The figures of a report and of an account are averages: losses over scored plies, matches over those with a
      choice. */
  lemma FiguresAreAverages(t: Totals, depth: int, n: nat, flagged: seq<string>)
    ensures var r := ReportOf(t, depth);
            && Averages(r.acpl, t.raw, t.sample) && Averages(r.acplCapped, t.capped, t.sample)
            && Averages(r.t1Rate, t.t1 as real, t.tRate) && Averages(r.t3Rate, t.t3 as real, t.tRate) && r.totals == t
    ensures var a := AggregateOf(n, t, flagged);
            && Averages(a.acpl, t.raw, t.sample) && Averages(a.acplCapped, t.capped, t.sample)
            && Averages(a.t1Rate, t.t1 as real, t.tRate) && Averages(a.t3Rate, t.t3 as real, t.tRate)
            && a.pooledSampleSize == t.sample && a.pooledTRateSampleCount == t.tRate
  {
    RatioAverages(t.raw, t.sample);
    RatioAverages(t.capped, t.sample);
    RatioAverages(t.t1 as real, t.tRate);
    RatioAverages(t.t3 as real, t.tRate);
  }

  /** With seven of ten best moves found and fifteen centipawns lost on average at most the suspicion is high; with
      eleven of twenty and twenty-five it asks for a review. */
  predicate LooksLike(s: Suspicion, t: Totals) {
    var high := 10 * t.t1 >= 7 * t.tRate && t.capped <= 15.0 * t.sample as real;
    var review := 20 * t.t1 >= 11 * t.tRate && t.capped <= 25.0 * t.sample as real;
    match s
    case High => high
    case Review => review && !high
    case Clean => !review
  }

  lemma BandByNumbers(t: Totals, s: Suspicion)
    requires t.sample > 0 && t.tRate > 0
    ensures Band(Ratio(t.t1 as real, t.tRate), Ratio(t.capped, t.sample)) == s <==> LooksLike(s, t)
  {
    RatioAtLeast(t.t1, t.tRate, 7, 10);
    RatioAtLeast(t.t1, t.tRate, 11, 20);
    AverageAtMost(t.capped, t.sample, 15.0);
    AverageAtMost(t.capped, t.sample, 25.0);
    assert 7 as real / 10 as real == 0.7 && 11 as real / 20 as real == 0.55;
  }

  /** One game says nothing on fewer than twenty scored plies, ten with a choice, or at a depth under fourteen; else its
      suspicion is what the numbers look like. */
  lemma GameVerdict(t: Totals, depth: int, s: Suspicion)
    ensures var enough := t.sample >= 20 && t.tRate >= 10 && depth >= 14;
            && (ReportOf(t, depth).lowConfidence <==> !enough)
            && (ReportOf(t, depth).suspicion == s <==> if enough then LooksLike(s, t) else s == Clean)
  {
    if t.sample >= 20 && t.tRate >= 10 {
      BandByNumbers(t, s);
    }
  }

  /** An account says nothing on fewer than three games or forty plies with a choice. */
  lemma AccountVerdict(n: nat, t: Totals, flagged: seq<string>, s: Suspicion)
    requires CountsFit(t)
    ensures var enough := n >= 3 && t.tRate >= 40; var a := AggregateOf(n, t, flagged);
            && (a.lowConfidence <==> !enough)
            && (a.suspicion == s <==> if enough then LooksLike(s, t) else s == Clean)
            && a.flaggedGameIds == flagged && a.gamesAnalyzed == n
  {
    if t.tRate >= 40 {
      BandByNumbers(t, s);
    }
  }

  predicate SuspectAt(games: seq<Game>, k: int, id: string) {
    0 <= k < |games| && games[k].gameId == id && games[k].report.suspicion != Clean
  }

  /** A game is named for a closer look exactly when its own verdict was not clean. */
  lemma {:induction false} FlaggedExactly(games: seq<Game>, id: string)
    ensures id in Flagged(games) <==>
              exists k :: SuspectAt(games, k, id)
  {
    if games != [] {
      var n := |games| - 1;
      FlaggedExactly(games[..n], id);
      if k :| SuspectAt(games, k, id) {
        assert k < n ==> SuspectAt(games[..n], k, id);
      }
      if k :| SuspectAt(games[..n], k, id) {
        assert SuspectAt(games, k, id);
      }
      assert SuspectAt(games, n, id) <==> games[n].gameId == id && games[n].report.suspicion != Clean;
    }
  }
}
