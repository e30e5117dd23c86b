/** Behavioural bot signals of one game, and their pooling over an account's games
    (packages/anti-cheat/src/bot-behavior.ts, packages/anti-cheat/src/bot-aggregate.ts). Arithmetic is
    exact; the square root is a parameter. */
module BotPooling {
  import opened Common

  datatype TimedMove = TimedMove(ms: real, isBook: bool)

  datatype Suspicion = Clean | Review | High

  datatype Report = Report(suspicion: Suspicion, sampleSize: nat, meanMs: real, stdevMs: real,
                           coefficientOfVariation: real, instantMoves: nat, instantFraction: real,
                           sumMs: real, sumSqMs: real, lowConfidence: bool)

  // ---- one game

  function SampleOf(moves: seq<TimedMove>): seq<real> {
    if moves == [] then []
    else SampleOf(moves[..|moves| - 1]) + if moves[|moves| - 1].isBook then [] else [moves[|moves| - 1].ms]
  }

  function Sum(xs: seq<real>): real {
    if xs == [] then 0.0 else Sum(xs[..|xs| - 1]) + xs[|xs| - 1]
  }

  function SumSq(xs: seq<real>): real {
    if xs == [] then 0.0 else SumSq(xs[..|xs| - 1]) + Square(xs[|xs| - 1])
  }

  /** Sum of squared distances from `m`. */
  function SumSqDev(xs: seq<real>, m: real): real {
    if xs == [] then 0.0 else SumSqDev(xs[..|xs| - 1], m) + Square(xs[|xs| - 1] - m)
  }

  function Instants(xs: seq<real>): nat {
    if xs == [] then 0 else Instants(xs[..|xs| - 1]) + if xs[|xs| - 1] <= 150.0 then 1 else 0
  }

  function Rank(s: Suspicion): nat {
    match s case High => 2 case Review => 1 case Clean => 0
  }

  function CvBand(cv: real): Suspicion {
    if cv <= 0.25 then High else if cv <= 0.5 then Review else Clean
  }

  function InstantBand(fraction: real): Suspicion {
    if fraction >= 0.9 then High else if fraction >= 0.7 then Review else Clean
  }

  /** The more severe of the two bands. */
  function BehaviorSuspicion(cv: real, fraction: real): (s: Suspicion)
    ensures Rank(s) >= Rank(CvBand(cv)) && Rank(s) >= Rank(InstantBand(fraction))
    ensures s == CvBand(cv) || s == InstantBand(fraction)
  {
    if Rank(CvBand(cv)) >= Rank(InstantBand(fraction)) then CvBand(cv) else InstantBand(fraction)
  }

  function Mean(total: real, n: nat): real {
    if n > 0 then total / n as real else 0.0
  }

  function Square(x: real): real {
    x * x
  }

  function Cv(stdev: real, mean: real): real {
    if mean > 0.0 then stdev / mean else 0.0
  }

  const MIN_SAMPLE_SIZE := 10

  function AnalyzeBotBehavior(moves: seq<TimedMove>, root: real -> real): Report {
    var xs := SampleOf(moves);
    var n := |xs|;
    if n == 0 then Report(Clean, 0, 0.0, 0.0, 0.0, 0, 0.0, 0.0, 0.0, true)
    else
      var mean := Mean(Sum(xs), n);
      var stdev := root(Mean(SumSqDev(xs, mean), n));
      var cv := Cv(stdev, mean);
      var fraction := Mean(Instants(xs) as real, n);
      var low := n < MIN_SAMPLE_SIZE;
      Report(if low then Clean else BehaviorSuspicion(cv, fraction), n, mean, stdev, cv,
             Instants(xs), fraction, Sum(xs), SumSq(xs), low)
  }

  // ---- pooling

  datatype Game = Game(gameId: string, report: Report)

  datatype Pool = Pool(games: nat, sampleSize: nat, sumMs: real, sumSqMs: real, instantMoves: nat, flagged: seq<string>)

  const EMPTY := Pool(0, 0, 0.0, 0.0, 0, [])

  function AddGame(p: Pool, g: Game): Pool {
    Pool(p.games + 1, p.sampleSize + g.report.sampleSize, p.sumMs + g.report.sumMs, p.sumSqMs + g.report.sumSqMs,
         p.instantMoves + g.report.instantMoves,
         p.flagged + if g.report.suspicion == Clean then [] else [g.gameId])
  }

  function PoolOf(games: seq<Game>): Pool {
    if games == [] then EMPTY else AddGame(PoolOf(games[..|games| - 1]), games[|games| - 1])
  }

  datatype Aggregate = Aggregate(suspicion: Suspicion, gamesAnalyzed: nat, pooledSampleSize: nat, pooledMeanMs: real,
                                 pooledStdevMs: real, pooledCoefficientOfVariation: real, pooledInstantMoves: nat,
                                 pooledInstantFraction: real, lowConfidence: bool, flaggedGameIds: seq<string>)

  function Max(a: real, b: real): real {
    if a >= b then a else b
  }

  const MIN_GAMES := 3
  const MIN_POOLED_SAMPLE := 40

  /** The reported figures of a pool. */
  function Figures(p: Pool, root: real -> real): Aggregate {
    var n := p.sampleSize;
    var mean := Mean(p.sumMs, n);
    var variance := if n > 0 then Max(0.0, Mean(p.sumSqMs, n) - Square(mean)) else 0.0;
    var stdev := root(variance);
    var cv := Cv(stdev, mean);
    var fraction := Mean(p.instantMoves as real, n);
    var low := p.games < MIN_GAMES || p.sampleSize < MIN_POOLED_SAMPLE;
    Aggregate(if low then Clean else BehaviorSuspicion(cv, fraction), p.games, p.sampleSize, mean, stdev, cv,
              p.instantMoves, fraction, low, p.flagged)
  }

  predicate DistinctGames(games: seq<Game>) {
    forall i, j :: 0 <= i < j < |games| ==> games[i].gameId != games[j].gameId
  }

  datatype PoolError = DuplicateGame(gameId: string)

  /** Game `i` is the first whose id has been seen. */
  predicate FirstRepeat(games: seq<Game>, i: int, id: string) {
    && 0 <= i < |games| && games[i].gameId == id && DistinctGames(games[..i])
    && exists j :: 0 <= j < i && games[j].gameId == id
  }

  method AggregateBotBehavior(games: seq<Game>, root: real -> real) returns (r: Result<Aggregate, PoolError>)
    ensures r.Ok? <==> DistinctGames(games)
    ensures r.Err? ==> exists i :: FirstRepeat(games, i, r.error.gameId)
    ensures r.Ok? ==> r.value == Figures(PoolOf(games), root)
  {
    var pool := EMPTY;
    var seen: set<string> := {};
    for i := 0 to |games|
      invariant pool == PoolOf(games[..i])
      invariant DistinctGames(games[..i])
      invariant forall id :: id in seen <==> exists k :: 0 <= k < i && games[k].gameId == id
    {
      var g := games[i];
      if g.gameId in seen {
        assert FirstRepeat(games, i, g.gameId);
        return Err(DuplicateGame(g.gameId));
      }
      seen := seen + {g.gameId};
      assert games[..i + 1][..i] == games[..i];
      pool := AddGame(pool, g);
    }
    assert games[..|games|] == games;
    r := Ok(Figures(pool, root));
  }

  // ---- sums over concatenations

  lemma {:induction false} SumsAdd(xs: seq<real>, ys: seq<real>)
    ensures Sum(xs + ys) == Sum(xs) + Sum(ys)
    ensures SumSq(xs + ys) == SumSq(xs) + SumSq(ys)
    ensures Instants(xs + ys) == Instants(xs) + Instants(ys)
  {
    if ys == [] {
      assert xs + ys == xs;
    } else {
      var n := |ys| - 1;
      assert (xs + ys)[..|xs + ys| - 1] == xs + ys[..n];
      SumsAdd(xs, ys[..n]);
    }
  }

  lemma {:induction false} SampleAdds(a: seq<TimedMove>, b: seq<TimedMove>)
    ensures SampleOf(a + b) == SampleOf(a) + SampleOf(b)
  {
    if b == [] {
      assert a + b == a;
    } else {
      var n := |b| - 1;
      assert (a + b)[..|a + b| - 1] == a + b[..n];
      SampleAdds(a, b[..n]);
    }
  }

  function Concat(games: seq<seq<TimedMove>>): seq<TimedMove> {
    if games == [] then [] else Concat(games[..|games| - 1]) + games[|games| - 1]
  }

  function Reports(ids: seq<string>, games: seq<seq<TimedMove>>, root: real -> real): seq<Game>
    requires |ids| == |games|
  {
    seq(|games|, i requires 0 <= i < |games| => Game(ids[i], AnalyzeBotBehavior(games[i], root)))
  }

  /** A report carries the raw sums of its sample. */
  lemma ReportSums(moves: seq<TimedMove>, root: real -> real)
    ensures var r := AnalyzeBotBehavior(moves, root); var xs := SampleOf(moves);
            r.sampleSize == |xs| && r.sumMs == Sum(xs) && r.sumSqMs == SumSq(xs) && r.instantMoves == Instants(xs)
  {
  }

  lemma {:induction false} PoolHoldsConcat(ids: seq<string>, games: seq<seq<TimedMove>>, root: real -> real)
    requires |ids| == |games|
    ensures var p := PoolOf(Reports(ids, games, root)); var xs := SampleOf(Concat(games));
            && p.games == |games| && p.sampleSize == |xs| && p.sumMs == Sum(xs) && p.sumSqMs == SumSq(xs)
            && p.instantMoves == Instants(xs)
  {
    if games != [] {
      var n := |games| - 1;
      PoolHoldsConcat(ids[..n], games[..n], root);
      assert Reports(ids, games, root)[..n] == Reports(ids[..n], games[..n], root);
      SampleAdds(Concat(games[..n]), games[n]);
      SumsAdd(SampleOf(Concat(games[..n])), SampleOf(games[n]));
      ReportSums(games[n], root);
    }
  }

  // ---- the two variances are one

  lemma SquareNotNegative(x: real)
    ensures Square(x) >= 0.0
  {
    if x < 0.0 {
      assert x * x == -x * -x;
    }
  }

  lemma SquareOfDifference(x: real, m: real)
    ensures Square(x - m) == Square(x) - 2.0 * (m * x) + Square(m)
  {
  }

  /** One more value `x` in the expansion, the products being given. */
  lemma ExpansionStep(n: real, m: real, s: real, x: real)
    ensures 2.0 * (m * (s + x)) == 2.0 * (m * s) + 2.0 * (m * x)
    ensures (n + 1.0) * Square(m) == n * Square(m) + Square(m)
  {
  }

  /** `d` is the expansion of the squared deviations of `n` values with total `s` and squares `q`. */
  predicate Expands(n: real, m: real, s: real, q: real, d: real) {
    d == q - 2.0 * (m * s) + n * Square(m)
  }

  lemma ExpandsOneMore(n: real, m: real, s: real, q: real, d: real, x: real)
    requires Expands(n, m, s, q, d)
    ensures Expands(n + 1.0, m, s + x, q + Square(x), d + Square(x - m))
  {
    SquareOfDifference(x, m);
    ExpansionStep(n, m, s, x);
  }

  lemma {:induction false} DeviationExpands(xs: seq<real>, m: real)
    ensures Expands(|xs| as real, m, Sum(xs), SumSq(xs), SumSqDev(xs, m)) && SumSqDev(xs, m) >= 0.0
  {
    if xs != [] {
      var n := |xs| - 1;
      DeviationExpands(xs[..n], m);
      SquareNotNegative(xs[n] - m);
      ExpandsOneMore(n as real, m, Sum(xs[..n]), SumSq(xs[..n]), SumSqDev(xs[..n], m), xs[n]);
    }
  }

  lemma TimesOver(x: real, n: real)
    requires n > 0.0
    ensures x * n / n == x
  {
  }

  lemma OverAdds(x: real, y: real, n: real)
    requires n > 0.0
    ensures (x - y) / n == x / n - y / n
    ensures x >= 0.0 ==> x / n >= 0.0
  {
  }

  /** Mean of squares minus square of mean, for total `s`, squares `q` and deviation `d` of `n` values. */
  lemma VarianceAlgebra(n: real, m: real, s: real, q: real, d: real)
    requires n > 0.0 && s == m * n && Expands(n, m, s, q, d)
    ensures d / n == q / n - Square(m)
  {
    assert m * s == Square(m) * n;
    TimesOver(Square(m), n);
    OverAdds(q, Square(m) * n, n);
  }

  lemma MeanTimes(total: real, n: nat)
    requires n > 0
    ensures Mean(total, n) * n as real == total
  {
  }

  lemma MeanVariance(n: nat, s: real, q: real, d: real)
    requires n > 0 && d >= 0.0 && Expands(n as real, Mean(s, n), s, q, d)
    ensures Mean(d, n) == Mean(q, n) - Square(Mean(s, n)) && Mean(d, n) >= 0.0
  {
    MeanTimes(s, n);
    VarianceAlgebra(n as real, Mean(s, n), s, q, d);
    OverAdds(d, 0.0, n as real);
  }

  /** The pooled variance equals the two-pass variance of the whole sample, so the clamp at zero is idle. */
  lemma VarianceAgrees(xs: seq<real>)
    requires xs != []
    ensures var n := |xs|; var mean := Mean(Sum(xs), n);
            && Mean(SumSqDev(xs, mean), n) == Mean(SumSq(xs), n) - Square(mean)
            && Mean(SumSq(xs), n) - Square(mean) >= 0.0
  {
    var mean := Mean(Sum(xs), |xs|);
    DeviationExpands(xs, mean);
    MeanVariance(|xs|, Sum(xs), SumSq(xs), SumSqDev(xs, mean));
  }

  lemma ProductAlgebra(n: real, m: real, s: real, a: real, q: real)
    requires n > 0.0 && s == m * n && q == a * n && a - Square(m) >= 0.0
    ensures n * q >= Square(s)
  {
    assert Square(s) == Square(m) * Square(n);
    assert n * q == a * Square(n);
    SquareNotNegative(n);
    assert (a - Square(m)) * Square(n) >= 0.0;
  }

  lemma MeanProduct(n: nat, s: real, q: real)
    requires n > 0 && Mean(q, n) - Square(Mean(s, n)) >= 0.0
    ensures n as real * q >= Square(s)
  {
    MeanTimes(s, n);
    MeanTimes(q, n);
    ProductAlgebra(n as real, Mean(s, n), s, Mean(q, n), q);
  }

  /** n times the sum of squares is at least the square of the sum. */
  lemma SquareOfSum(xs: seq<real>)
    ensures |xs| as real * SumSq(xs) >= Square(Sum(xs))
  {
    if xs == [] {
      assert Sum(xs) == 0.0 && SumSq(xs) == 0.0 && Square(0.0) == 0.0;
    } else {
      VarianceAgrees(xs);
      MeanProduct(|xs|, Sum(xs), SumSq(xs));
    }
  }

  /** Pooling is a homomorphism: the account-level figures are those of one analysis of all the moves. */
  lemma PoolingIsHomomorphism(ids: seq<string>, games: seq<seq<TimedMove>>, root: real -> real)
    requires |ids| == |games| && root(0.0) == 0.0
    ensures var a := Figures(PoolOf(Reports(ids, games, root)), root); var w := AnalyzeBotBehavior(Concat(games), root);
            && a.pooledSampleSize == w.sampleSize && a.pooledMeanMs == w.meanMs && a.pooledStdevMs == w.stdevMs
            && a.pooledCoefficientOfVariation == w.coefficientOfVariation
            && a.pooledInstantMoves == w.instantMoves && a.pooledInstantFraction == w.instantFraction
            && (!a.lowConfidence ==> a.suspicion == w.suspicion)
  {
    PoolHoldsConcat(ids, games, root);
    var xs := SampleOf(Concat(games));
    if xs != [] {
      VarianceAgrees(xs);
    }
  }
}
