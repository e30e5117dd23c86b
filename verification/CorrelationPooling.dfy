/** Engine correlation of one player's plies, and its pooling over games
    (packages/anti-cheat/src/analyzer.ts, packages/anti-cheat/src/aggregate.ts). The evaluator is a parameter. */
module CorrelationPooling {
  import opened Common

  datatype Suspicion = Clean | Review | High

  datatype Ply = Ply(fen: string, playedUci: string, isBook: bool)

  datatype TopMove = TopMove(uci: string, cp: real)

  datatype Evaluation = Evaluation(topMoves: seq<TopMove>, playedCp: Option<real>)

  type Evaluator = (string, string, int) -> Evaluation

  // ---- the totals of one player's plies

  datatype Totals = Totals(raw: real, capped: real, sample: nat, t1: nat, t3: nat, tRate: nat, onlyMove: nat,
                           unscored: nat)

  const ZERO := Totals(0.0, 0.0, 0, 0, 0, 0, 0, 0)

  function Add(a: Totals, b: Totals): Totals {
    Totals(a.raw + b.raw, a.capped + b.capped, a.sample + b.sample, a.t1 + b.t1, a.t3 + b.t3,
           a.tRate + b.tRate, a.onlyMove + b.onlyMove, a.unscored + b.unscored)
  }

  function Loss(e: Evaluation): real
    requires e.topMoves != [] && e.playedCp.Some?
  {
    var d := e.topMoves[0].cp - e.playedCp.value;
    if d > 0.0 then d else 0.0
  }

  const ACPL_CAP := 300.0
  const ONLY_MOVE_GAP := 200.0

  function RankOf(ms: seq<TopMove>, uci: string): nat
    ensures RankOf(ms, uci) <= |ms|
  {
    if ms == [] || ms[0].uci == uci then 0 else 1 + RankOf(ms[1..], uci)
  }

  /** A position whose best move stands alone rewards nobody for finding it. */
  predicate Forced(e: Evaluation)
    requires e.topMoves != []
  {
    |e.topMoves| < 2 || e.topMoves[0].cp - e.topMoves[1].cp >= ONLY_MOVE_GAP
  }

  /** What one ply contributes. */
  function Contribution(ply: Ply, depth: int, eval: Evaluator): Totals {
    if ply.isBook then ZERO
    else
      var e := eval(ply.fen, ply.playedUci, depth);
      if e.topMoves == [] || e.playedCp.None? then ZERO.(unscored := 1)
      else
        var loss := Loss(e);
        var base := ZERO.(raw := loss, capped := if loss < ACPL_CAP then loss else ACPL_CAP, sample := 1);
        if Forced(e) then base.(onlyMove := 1)
        else
          var rank := RankOf(e.topMoves, ply.playedUci);
          base.(tRate := 1, t1 := if rank == 0 then 1 else 0, t3 := if rank < 3 && rank < |e.topMoves| then 1 else 0)
  }

  function TotalsOf(plies: seq<Ply>, depth: int, eval: Evaluator): Totals {
    if plies == [] then ZERO
    else Add(TotalsOf(plies[..|plies| - 1], depth, eval), Contribution(plies[|plies| - 1], depth, eval))
  }

  datatype Report = Report(suspicion: Suspicion, acpl: real, acplCapped: real, t1Rate: real, t3Rate: real,
                           lowConfidence: bool, totals: Totals)

  function Ratio(a: real, n: nat): real {
    if n > 0 then a / n as real else 0.0
  }

  function Band(t1Rate: real, acplCapped: real): Suspicion {
    if t1Rate >= 0.7 && acplCapped <= 15.0 then High
    else if t1Rate >= 0.55 && acplCapped <= 25.0 then Review
    else Clean
  }

  function ReportOf(t: Totals, depth: int): Report {
    var low := t.sample < 20 || t.tRate < 10 || depth < 14;
    var acplCapped, t1Rate := Ratio(t.capped, t.sample), Ratio(t.t1 as real, t.tRate);
    Report(if low then Clean else Band(t1Rate, acplCapped), Ratio(t.raw, t.sample), acplCapped, t1Rate,
           Ratio(t.t3 as real, t.tRate), low, t)
  }

  /** The loop body: one ply either passes by, is unscored, or adds to the totals. */
  method ScorePly(ply: Ply, depth: int, eval: Evaluator, before: Totals) returns (t: Totals)
    ensures t == Add(before, Contribution(ply, depth, eval))
  {
    t := before;
    if ply.isBook {
      return;
    }
    var e := eval(ply.fen, ply.playedUci, depth);
    if e.topMoves == [] || e.playedCp.None? {
      return t.(unscored := t.unscored + 1);
    }
    var loss := Loss(e);
    var capped := if loss < ACPL_CAP then loss else ACPL_CAP;
    t := t.(raw := t.raw + loss, capped := t.capped + capped, sample := t.sample + 1);
    if |e.topMoves| < 2 {
      return t.(onlyMove := t.onlyMove + 1);
    }
    if e.topMoves[0].cp - e.topMoves[1].cp >= ONLY_MOVE_GAP {
      return t.(onlyMove := t.onlyMove + 1);
    }
    t := t.(tRate := t.tRate + 1);
    var rank := RankOf(e.topMoves, ply.playedUci);
    if rank == 0 {
      t := t.(t1 := t.t1 + 1);
    }
    if rank < |e.topMoves| && rank < 3 {
      t := t.(t3 := t.t3 + 1);
    }
  }

  method AnalyzePlayer(plies: seq<Ply>, depth: int, eval: Evaluator) returns (report: Report)
    ensures report == ReportOf(TotalsOf(plies, depth, eval), depth)
  {
    var t := ZERO;
    for i := 0 to |plies|
      invariant t == TotalsOf(plies[..i], depth, eval)
    {
      assert plies[..i + 1][..i] == plies[..i];
      t := ScorePly(plies[i], depth, eval, t);
    }
    assert plies[..|plies|] == plies;
    report := ReportOf(t, depth);
  }

  // ---- pooling games

  datatype Game = Game(gameId: string, report: Report)

  /** The summed totals of the games. */
  function Pooled(games: seq<Game>): Totals {
    if games == [] then ZERO else Add(Pooled(games[..|games| - 1]), games[|games| - 1].report.totals)
  }

  function Flagged(games: seq<Game>): seq<string> {
    if games == [] then []
    else
      var g := games[|games| - 1];
      Flagged(games[..|games| - 1]) + if g.report.suspicion == Clean then [] else [g.gameId]
  }

  datatype Aggregate = Aggregate(
    suspicion: Suspicion, gamesAnalyzed: nat, pooledSampleSize: nat, pooledTRateSampleCount: nat,
    acpl: real, acplCapped: real, t1Rate: real, t3Rate: real, lowConfidence: bool, flaggedGameIds: seq<string>)

  function AggregateOf(n: nat, t: Totals, flagged: seq<string>): Aggregate {
    var low := n < 3 || t.tRate < 40;
    var acplCapped, t1Rate := Ratio(t.capped, t.sample), Ratio(t.t1 as real, t.tRate);
    Aggregate(if low then Clean else Band(t1Rate, acplCapped), n, t.sample, t.tRate, Ratio(t.raw, t.sample), acplCapped,
              t1Rate, Ratio(t.t3 as real, t.tRate), low, flagged)
  }

  predicate DistinctGames(games: seq<Game>) {
    forall i, j :: 0 <= i < j < |games| ==> games[i].gameId != games[j].gameId
  }

  lemma PooledNext(games: seq<Game>, i: nat)
    requires i < |games|
    ensures Pooled(games[..i + 1]) == Add(Pooled(games[..i]), games[i].report.totals)
    ensures Flagged(games[..i + 1]) ==
            Flagged(games[..i]) + if games[i].report.suspicion == Clean then [] else [games[i].gameId]
  {
    assert games[..i + 1][..i] == games[..i];
  }

  function GameIds(games: seq<Game>): set<string> {
    set k | 0 <= k < |games| :: games[k].gameId
  }

  lemma DistinctNext(games: seq<Game>, i: nat)
    requires i < |games| && DistinctGames(games[..i])
    ensures GameIds(games[..i + 1]) == GameIds(games[..i]) + {games[i].gameId}
    ensures if games[i].gameId in GameIds(games[..i]) then !DistinctGames(games) else DistinctGames(games[..i + 1])
  {
    var more := games[..i + 1];
    assert more == games[..i] + [games[i]];
    if games[i].gameId in GameIds(games[..i]) {
      var k :| 0 <= k < i && games[..i][k].gameId == games[i].gameId;
      assert games[k].gameId == games[i].gameId;
    }
  }

  datatype PoolError = DuplicateGame(gameId: string)

  /** Game `i` is the first whose id has been seen. */
  predicate FirstRepeat(games: seq<Game>, i: int, id: string) {
    && 0 <= i < |games| && games[i].gameId == id && DistinctGames(games[..i])
    && exists j :: 0 <= j < i && games[j].gameId == id
  }

  lemma SeenBefore(games: seq<Game>, i: nat)
    requires i < |games| && DistinctGames(games[..i]) && games[i].gameId in GameIds(games[..i])
    ensures FirstRepeat(games, i, games[i].gameId)
  {
    var k :| 0 <= k < i && games[..i][k].gameId == games[i].gameId;
    assert games[k].gameId == games[i].gameId;
  }

  method AggregatePlayer(games: seq<Game>) returns (r: Result<Aggregate, PoolError>)
    ensures r.Ok? <==> DistinctGames(games)
    ensures r.Err? ==> exists i :: FirstRepeat(games, i, r.error.gameId)
    ensures r.Ok? ==> r.value == AggregateOf(|games|, Pooled(games), Flagged(games))
  {
    var n, t, flagged := 0, ZERO, [];
    var seen: set<string> := {};
    for i := 0 to |games|
      invariant n == i && t == Pooled(games[..i]) && flagged == Flagged(games[..i])
      invariant DistinctGames(games[..i]) && seen == GameIds(games[..i])
    {
      var g := games[i];
      PooledNext(games, i);
      DistinctNext(games, i);
      if g.gameId in seen {
        SeenBefore(games, i);
        return Err(DuplicateGame(g.gameId));
      }
      seen := seen + {g.gameId};
      n := n + 1;
      t := Add(t, g.report.totals);
      if g.report.suspicion == Review || g.report.suspicion == High {
        flagged := flagged + [g.gameId];
      }
    }
    assert games[..|games|] == games;
    r := Ok(AggregateOf(n, t, flagged));
  }

  // ---- counts

  /** Best-move matches are among top-three matches, those among the eligible plies, and every scored ply
      is either eligible or forced. */
  predicate CountsFit(t: Totals) {
    t.t1 <= t.t3 <= t.tRate && t.sample == t.tRate + t.onlyMove && 0.0 <= t.capped <= t.raw
  }

  lemma {:induction false} TotalsFit(plies: seq<Ply>, depth: int, eval: Evaluator)
    ensures CountsFit(TotalsOf(plies, depth, eval))
  {
    if plies != [] {
      TotalsFit(plies[..|plies| - 1], depth, eval);
    }
  }

  // ---- pooling is a homomorphism

  function Concat(games: seq<seq<Ply>>): seq<Ply> {
    if games == [] then [] else Concat(games[..|games| - 1]) + games[|games| - 1]
  }

  function Reports(ids: seq<string>, games: seq<seq<Ply>>, depth: int, eval: Evaluator): seq<Game>
    requires |ids| == |games|
  {
    seq(|games|, i requires 0 <= i < |games| => Game(ids[i], ReportOf(TotalsOf(games[i], depth, eval), depth)))
  }

  lemma AddAssociates(a: Totals, b: Totals, c: Totals)
    ensures Add(Add(a, b), c) == Add(a, Add(b, c)) && Add(a, ZERO) == a && Add(Add(a, b), c) == Add(Add(a, c), b)
  {
  }

  lemma {:induction false} TotalsAdd(a: seq<Ply>, b: seq<Ply>, depth: int, eval: Evaluator)
    ensures TotalsOf(a + b, depth, eval) == Add(TotalsOf(a, depth, eval), TotalsOf(b, depth, eval))
  {
    if b == [] {
      assert a + b == a;
      AddAssociates(TotalsOf(a, depth, eval), ZERO, ZERO);
    } else {
      var n := |b| - 1;
      assert (a + b)[..|a + b| - 1] == a + b[..n] && (a + b)[|a + b| - 1] == b[n];
      TotalsAdd(a, b[..n], depth, eval);
      AddAssociates(TotalsOf(a, depth, eval), TotalsOf(b[..n], depth, eval), Contribution(b[n], depth, eval));
    }
  }

  lemma ReportsLast(ids: seq<string>, games: seq<seq<Ply>>, depth: int, eval: Evaluator)
    requires |ids| == |games| > 0
    ensures var n := |games| - 1; var reports := Reports(ids, games, depth, eval);
            && |reports| == n + 1 && reports[..n] == Reports(ids[..n], games[..n], depth, eval)
            && reports[n].report.totals == TotalsOf(games[n], depth, eval)
  {
  }

  lemma {:induction false} PooledIsWhole(ids: seq<string>, games: seq<seq<Ply>>, depth: int, eval: Evaluator)
    requires |ids| == |games|
    ensures Pooled(Reports(ids, games, depth, eval)) == TotalsOf(Concat(games), depth, eval)
  {
    if games != [] {
      var n := |games| - 1;
      PooledIsWhole(ids[..n], games[..n], depth, eval);
      ReportsLast(ids, games, depth, eval);
      TotalsAdd(Concat(games[..n]), games[n], depth, eval);
    }
  }

  /** The account's figures are those of one analysis of all its plies at the same depth; the verdicts
      agree whenever both sides trust theirs. */
  lemma PoolingIsHomomorphism(ids: seq<string>, games: seq<seq<Ply>>, depth: int, eval: Evaluator)
    requires |ids| == |games|
    ensures var reports := Reports(ids, games, depth, eval);
            var a := AggregateOf(|reports|, Pooled(reports), Flagged(reports));
            var w := ReportOf(TotalsOf(Concat(games), depth, eval), depth);
            && a.pooledSampleSize == w.totals.sample && a.pooledTRateSampleCount == w.totals.tRate
            && a.acpl == w.acpl && a.acplCapped == w.acplCapped && a.t1Rate == w.t1Rate && a.t3Rate == w.t3Rate
            && CountsFit(Pooled(reports))
            && (!a.lowConfidence && depth >= 14 ==> !w.lowConfidence && a.suspicion == w.suspicion)
  {
    PooledIsWhole(ids, games, depth, eval);
    TotalsFit(Concat(games), depth, eval);
  }

  // ---- the order of games does not matter

  function Without<T>(xs: seq<T>, i: nat): seq<T>
    requires i < |xs|
  {
    xs[..i] + xs[i + 1..]
  }

  lemma WithoutLast<T>(xs: seq<T>, i: nat)
    requires i < |xs|
    ensures i == |xs| - 1 ==> Without(xs, i) == xs[..i]
    ensures |Without(xs, i)| == |xs| - 1
    ensures i < |xs| - 1 ==>
              Without(xs, i)[..|xs| - 2] == Without(xs[..|xs| - 1], i) && Without(xs, i)[|xs| - 2] == xs[|xs| - 1]
  {
  }

  lemma TakenOut<T>(xs: seq<T>, i: nat)
    requires i < |xs|
    ensures multiset(xs) == multiset(Without(xs, i)) + multiset{xs[i]}
  {
    assert xs == xs[..i] + [xs[i]] + xs[i + 1..];
  }

  lemma SameRest<T>(a: multiset<T>, b: multiset<T>, x: T)
    requires a + multiset{x} == b + multiset{x}
    ensures a == b
  {
    assert a == (a + multiset{x}) - multiset{x};
  }

  /** Taking one and the same element out of both keeps two sequences permutations of each other. */
  lemma StillPermuted<T>(xs: seq<T>, ys: seq<T>, i: nat)
    requires multiset(xs) == multiset(ys) && xs != [] && i < |ys| && ys[i] == xs[|xs| - 1]
    ensures multiset(xs[..|xs| - 1]) == multiset(Without(ys, i))
  {
    var n := |xs| - 1;
    TakenOut(xs, n);
    TakenOut(ys, i);
    WithoutLast(xs, n);
    SameRest(multiset(Without(xs, n)), multiset(Without(ys, i)), ys[i]);
  }

  lemma {:induction false} PooledWithout(games: seq<Game>, i: nat)
    requires i < |games|
    ensures Pooled(games) == Add(Pooled(Without(games, i)), games[i].report.totals)
  {
    var n := |games| - 1;
    WithoutLast(games, i);
    if i < n {
      var rest := Without(games, i);
      PooledWithout(games[..n], i);
      assert Pooled(rest) == Add(Pooled(Without(games[..n], i)), games[n].report.totals);
      AddAssociates(Pooled(Without(games[..n], i)), games[i].report.totals, games[n].report.totals);
    }
  }

  lemma {:induction false} PooledPermutes(games: seq<Game>, others: seq<Game>)
    requires multiset(games) == multiset(others)
    ensures Pooled(games) == Pooled(others) && |games| == |others|
  {
    assert |multiset(games)| == |games| && |multiset(others)| == |others|;
    if games != [] {
      var n := |games| - 1;
      assert games[n] in multiset(others);
      var i :| 0 <= i < |others| && others[i] == games[n];
      StillPermuted(games, others, i);
      PooledPermutes(games[..n], Without(others, i));
      PooledWithout(others, i);
    }
  }

  function FlagOf(g: Game): seq<string> {
    if g.report.suspicion == Clean then [] else [g.gameId]
  }

  lemma {:induction false} FlaggedWithout(games: seq<Game>, i: nat)
    requires i < |games|
    ensures multiset(Flagged(games)) == multiset(Flagged(Without(games, i))) + multiset(FlagOf(games[i]))
  {
    var n := |games| - 1;
    assert Flagged(games) == Flagged(games[..n]) + FlagOf(games[n]);
    WithoutLast(games, i);
    if i < n {
      FlaggedWithout(games[..n], i);
      var rest := Without(games, i);
      assert Flagged(rest) == Flagged(rest[..n - 1]) + FlagOf(games[n]);
    }
  }

  lemma {:induction false} FlaggedPermutes(games: seq<Game>, others: seq<Game>)
    requires multiset(games) == multiset(others)
    ensures multiset(Flagged(games)) == multiset(Flagged(others))
  {
    assert |multiset(games)| == |games| && |multiset(others)| == |others|;
    if games != [] {
      var n := |games| - 1;
      assert games[n] in multiset(others);
      var i :| 0 <= i < |others| && others[i] == games[n];
      StillPermuted(games, others, i);
      FlaggedPermutes(games[..n], Without(others, i));
      FlaggedWithout(others, i);
      assert Flagged(games) == Flagged(games[..n]) + FlagOf(games[n]);
    }
  }

  /** Reordering the games changes nothing but the order of the flagged ids. */
  lemma OrderIsIrrelevant(games: seq<Game>, others: seq<Game>)
    requires multiset(games) == multiset(others)
    ensures AggregateOf(|games|, Pooled(games), []) == AggregateOf(|others|, Pooled(others), [])
    ensures multiset(Flagged(games)) == multiset(Flagged(others))
  {
    PooledPermutes(games, others);
    FlaggedPermutes(games, others);
  }
}
