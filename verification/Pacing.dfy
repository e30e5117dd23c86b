/** When a player's pace raises suspicion, told from the moves (packages/anti-cheat/src/bot-behavior.ts,
    packages/anti-cheat/src/bot-aggregate.ts). */
module Pacing {
  import opened BotPooling

  /** The moves outside the book that took a sixth of a second or so at most. */
  function InstantMoves(moves: seq<TimedMove>): nat {
    if moves == [] then 0
    else
      InstantMoves(moves[..|moves| - 1]) +
      if !moves[|moves| - 1].isBook && moves[|moves| - 1].ms <= 150.0 then 1 else 0
  }

  function OwnMoves(moves: seq<TimedMove>): nat {
    if moves == [] then 0 else OwnMoves(moves[..|moves| - 1]) + if moves[|moves| - 1].isBook then 0 else 1
  }

  function TimeSpent(moves: seq<TimedMove>): real {
    if moves == [] then 0.0
    else TimeSpent(moves[..|moves| - 1]) + if moves[|moves| - 1].isBook then 0.0 else moves[|moves| - 1].ms
  }

  function SquaresSpent(moves: seq<TimedMove>): real {
    if moves == [] then 0.0
    else
      SquaresSpent(moves[..|moves| - 1]) +
      if moves[|moves| - 1].isBook then 0.0 else Square(moves[|moves| - 1].ms)
  }

  /** The sample's size, sum, sum of squares and instant moves are those of the moves outside the book. */
  lemma {:induction false} SampleCounts(moves: seq<TimedMove>)
    ensures var xs := SampleOf(moves);
            && |xs| == OwnMoves(moves) && Instants(xs) == InstantMoves(moves)
            && Sum(xs) == TimeSpent(moves) && SumSq(xs) == SquaresSpent(moves)
  {
    if moves != [] {
      var n := |moves| - 1;
      SampleCounts(moves[..n]);
      var before, xs := SampleOf(moves[..n]), SampleOf(moves);
      if moves[n].isBook {
        assert xs == before;
      } else {
        assert xs == before + [moves[n].ms] && xs[..|xs| - 1] == before;
      }
    }
  }

  // ---- the bands

  lemma QuotientAtMost(a: real, b: real, most: real)
    requires b > 0.0
    ensures a / b <= most <==> a <= most * b
    ensures a / b >= most <==> a >= most * b
  {
    var r := a / b;
    assert r * b == a;
    if r <= most { Scales(r, most, b); }
    if r >= most { Scales(most, r, b); }
    if r < most { ScalesUp(r, most, b); }
    if r > most { ScalesUp(most, r, b); }
  }

  lemma Scales(x: real, y: real, z: real)
    requires x <= y && z > 0.0
    ensures x * z <= y * z
  {
  }

  lemma ScalesUp(x: real, y: real, z: real)
    requires x < y && z > 0.0
    ensures x * z < y * z
  {
  }

  /** So even a pace: a spread of a quarter of the mean at most, or of half of it, or no time spent at all. */
  predicate Even(stdev: real, mean: real, part: real) {
    mean <= 0.0 || stdev <= part * mean
  }

  /** So many instant replies among the moves. */
  predicate Often(instants: nat, n: nat, part: real) {
    instants as real >= part * n as real
  }

  /** High for a very even pace or mostly instant replies, a review for less of either. */
  predicate LooksLike(s: Suspicion, stdev: real, mean: real, instants: nat, n: nat) {
    var high := Even(stdev, mean, 0.25) || Often(instants, n, 0.9);
    var review := Even(stdev, mean, 0.5) || Often(instants, n, 0.7);
    match s
    case High => high
    case Review => review && !high
    case Clean => !review && !high
  }

  lemma BandsByNumbers(stdev: real, mean: real, instants: nat, n: nat, s: Suspicion)
    requires n > 0
    ensures BehaviorSuspicion(Cv(stdev, mean), Mean(instants as real, n)) == s <==>
              LooksLike(s, stdev, mean, instants, n)
  {
    if mean > 0.0 {
      QuotientAtMost(stdev, mean, 0.25);
      QuotientAtMost(stdev, mean, 0.5);
    }
    QuotientAtMost(instants as real, n as real, 0.9);
    QuotientAtMost(instants as real, n as real, 0.7);
    assert Cv(stdev, mean) == if mean > 0.0 then stdev / mean else 0.0;
    assert Mean(instants as real, n) == instants as real / n as real;
  }

  /** The mean is time over moves, and the spread the root of the mean square less the square of the mean. */
  lemma GameFigures(moves: seq<TimedMove>, root: real -> real)
    ensures var r, n := AnalyzeBotBehavior(moves, root), OwnMoves(moves);
            && r.sampleSize == n && r.instantMoves == InstantMoves(moves)
            && r.sumMs == TimeSpent(moves) && r.sumSqMs == SquaresSpent(moves)
            && r.meanMs == Mean(TimeSpent(moves), n) && r.instantFraction == Mean(InstantMoves(moves) as real, n)
            && r.coefficientOfVariation == Cv(r.stdevMs, r.meanMs)
            && (n > 0 ==> r.stdevMs == root(Mean(SquaresSpent(moves), n) - Square(r.meanMs)))
  {
    SampleCounts(moves);
    if SampleOf(moves) != [] {
      VarianceAgrees(SampleOf(moves));
    }
  }

  /** A mean is what it was taken of, divided among so many. */
  lemma MeanTimes(total: real, n: nat)
    requires n > 0
    ensures Mean(total, n) * n as real == total
  {
  }

  lemma CvTimes(stdev: real, mean: real)
    requires mean > 0.0
    ensures Cv(stdev, mean) * mean == stdev
  {
  }

  /** One game says nothing on fewer than ten moves outside the book; else its suspicion is what its pace looks like. */
  lemma GameVerdict(moves: seq<TimedMove>, root: real -> real, s: Suspicion)
    ensures var r, n := AnalyzeBotBehavior(moves, root), OwnMoves(moves);
            && (r.lowConfidence <==> n < 10)
            && (r.suspicion == s <==>
                  if n >= 10 then LooksLike(s, r.stdevMs, r.meanMs, InstantMoves(moves), n) else s == Clean)
  {
    SampleCounts(moves);
    var n := OwnMoves(moves);
    if n > 0 {
      var r := AnalyzeBotBehavior(moves, root);
      BandsByNumbers(r.stdevMs, r.meanMs, InstantMoves(moves), n, s);
    }
  }

  /** An account says nothing on fewer than three games or forty moves. */
  lemma AccountVerdict(p: Pool, root: real -> real, s: Suspicion)
    ensures var a := Figures(p, root); var enough := p.games >= 3 && p.sampleSize >= 40;
            && (a.lowConfidence <==> !enough)
            && (a.suspicion == s <==>
                  if enough then LooksLike(s, a.pooledStdevMs, a.pooledMeanMs, p.instantMoves, p.sampleSize)
                  else s == Clean)
            && a.flaggedGameIds == p.flagged && a.gamesAnalyzed == p.games
  {
    if p.sampleSize > 0 {
      var a := Figures(p, root);
      BandsByNumbers(a.pooledStdevMs, a.pooledMeanMs, p.instantMoves, p.sampleSize, s);
    }
  }

  predicate SuspectAt(games: seq<Game>, k: int, id: string) {
    0 <= k < |games| && games[k].gameId == id && games[k].report.suspicion != Clean
  }

  lemma {:induction false} FlaggedExactly(games: seq<Game>, id: string)
    ensures PoolOf(games).games == |games|
    ensures id in PoolOf(games).flagged <==>
              exists k :: SuspectAt(games, k, id)
  {
    if games != [] {
      var n := |games| - 1;
      FlaggedExactly(games[..n], id);
      if k :| SuspectAt(games, k, id) {
        assert k < n ==> SuspectAt(games[..n], k, id);
      }
      if k :| SuspectAt(games[..n], k, id) {
        assert SuspectAt(games, k, id);
      }
      assert SuspectAt(games, n, id) <==> games[n].gameId == id && games[n].report.suspicion != Clean;
    }
  }
}
