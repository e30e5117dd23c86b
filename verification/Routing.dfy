/** Whom the AI orchestrator calls, why it stops and what it answers, told from providers, breakers and calls
    (packages/ai-orchestrator/src/router.ts, packages/ai-orchestrator/src/orchestrator.ts). */
module Routing {
  import opened Common
  import opened Breaker
  import opened Failover

  // ---- who suits a request

  /** The model the provider would use: the first of the name asked for, or else its first. */
  predicate Uses(p: Provider, r: Request, k: int) {
    && 0 <= k < |p.models|
    && if exists j :: 0 <= j < |p.models| && Wanted(p.models[j], r)
       then Wanted(p.models[k], r) && forall j :: 0 <= j < k ==> !Wanted(p.models[j], r)
       else k == 0
  }

  predicate Wanted(m: ModelInfo, r: Request) {
    r.model.Some? && r.model.value != "" && m.id == r.model.value
  }

  /** It offers what is asked for, and the model it would use costs no more than the ceiling, if there is one. */
  ghost predicate Suits(p: Provider, r: Request) {
    && (r.modality == None || r.modality == Some("") || r.modality.value in p.modalities)
    && (!r.stream || p.streaming) && (!r.structured || p.structured)
    && (r.costCeiling > 0.0 ==> forall k :: Uses(p, r, k) ==> p.models[k].cost <= r.costCeiling)
  }

  lemma {:induction false} NamedModel(models: seq<ModelInfo>, id: string) returns (k: nat)
    ensures k <= |models| && forall j :: 0 <= j < k ==> models[j].id != id
    ensures if k < |models| then models[k].id == id && ModelNamed(models, id) == Some(models[k])
            else ModelNamed(models, id) == None
  {
    if models == [] || models[0].id == id {
      k := 0;
    } else {
      var i := NamedModel(models[1..], id);
      k := i + 1;
      forall j | 0 <= j < k ensures models[j].id != id {
        assert j > 0 ==> models[1..][j - 1].id != id;
      }
    }
  }

  lemma ModelUsed(p: Provider, r: Request) returns (k: nat)
    ensures if p.models == [] then SelectModel(p, r) == None
            else k < |p.models| && Uses(p, r, k) && SelectModel(p, r) == Some(p.models[k])
  {
    k := 0;
    if r.model.Some? && r.model.value != "" {
      var i := NamedModel(p.models, r.model.value);
      if i < |p.models| {
        k := i;
        assert Wanted(p.models[i], r);
      }
    }
  }

  lemma UsesOne(p: Provider, r: Request, j: int, k: int)
    requires Uses(p, r, j) && Uses(p, r, k)
    ensures j == k
  {
    var first, second := Wanted(p.models[j], r), Wanted(p.models[k], r);
  }

  lemma CapableIsSuiting(p: Provider, r: Request)
    ensures Capable(p, r) <==> Suits(p, r)
  {
    var k := ModelUsed(p, r);
    if p.models != [] {
      forall j | Uses(p, r, j) ensures j == k {
        UsesOne(p, r, j, k);
      }
    }
  }

  // ---- who is called next

  /** Not tried yet by this request, its breaker not holding requests back, and suiting it. */
  ghost predicate Eligible(a: Ask, calls: seq<string>, p: Provider)
    requires |calls| < |a.turns|
  {
    var c := CircuitOf(SharedAfter(a, calls).circuits, p.id);
    && p.id !in calls && Suits(p, a.r)
    && !(c.open && !c.half && a.turns[|calls|].now - c.openedAt <= a.cfg.resetTimeoutMs)
  }

  lemma PoolIsEligible(a: Ask, calls: seq<string>, p: Provider)
    requires |calls| < |a.turns|
    ensures p in PoolAfter(a, calls) <==> p in a.ps && Eligible(a, calls, p)
  {
    CandidatesExact(a.ps, calls, SharedAfter(a, calls).circuits, a.cfg, a.r, a.turns[|calls|].now, p);
    CapableIsSuiting(p, a.r);
  }

  /** The candidates stand in the order of registration. */
  lemma {:induction false} CandidatesInOrder(ps: seq<Provider>, tried: seq<string>, cs: Circuits, cfg: Config,
                                             r: Request, now: int, i: nat, j: nat)
    returns (x: nat, y: nat)
    requires i < j < |Candidates(ps, tried, cs, cfg, r, now)|
    ensures x < y < |ps| && ps[x] == Candidates(ps, tried, cs, cfg, r, now)[i]
    ensures ps[y] == Candidates(ps, tried, cs, cfg, r, now)[j]
  {
    var n := |ps| - 1;
    var before := Candidates(ps[..n], tried, cs, cfg, r, now);
    if j < |before| {
      x, y := CandidatesInOrder(ps[..n], tried, cs, cfg, r, now, i, j);
    } else {
      CandidatesExact(ps[..n], tried, cs, cfg, r, now, before[i]);
      x :| 0 <= x < n && ps[..n][x] == before[i];
      y := n;
    }
  }

  lemma OrderOf(a: Ask, calls: seq<string>, i: nat, j: nat, x: nat, y: nat)
    requires |calls| < |a.turns| && DistinctIds(a.ps) && x < |a.ps| && y < |a.ps|
    requires i < j < |PoolAfter(a, calls)| && PoolAfter(a, calls)[i] == a.ps[x] && PoolAfter(a, calls)[j] == a.ps[y]
    ensures x < y
  {
    var cs, now := SharedAfter(a, calls).circuits, a.turns[|calls|].now;
    var x', y' := CandidatesInOrder(a.ps, calls, cs, a.cfg, a.r, now, i, j);
    assert a.ps[x'].id == a.ps[x].id && a.ps[y'].id == a.ps[y].id;
  }

  /** With the priority strategy the next call goes to the first registered provider that is eligible. */
  lemma PriorityCallsFirst(a: Ask, calls: seq<string>, id: string) returns (k: nat)
    requires |calls| < |a.turns| && PicksNext(a, calls, id) && a.strategy == Priority && DistinctIds(a.ps)
    ensures k < |a.ps| && a.ps[k].id == id && Eligible(a, calls, a.ps[k])
    ensures forall j :: 0 <= j < k ==> !Eligible(a, calls, a.ps[j])
  {
    var pool := PoolAfter(a, calls);
    PoolIsEligible(a, calls, pool[0]);
    k :| 0 <= k < |a.ps| && a.ps[k] == pool[0];
    forall j | 0 <= j < |a.ps| && Eligible(a, calls, a.ps[j]) ensures k <= j {
      PoolIsEligible(a, calls, a.ps[j]);
      var i :| 0 <= i < |pool| && pool[i] == a.ps[j];
      if i > 0 {
        OrderOf(a, calls, 0, i, k, j);
      }
    }
  }

  /** The candidate at `i`, registered as `k`, scores at least what any eligible provider does, and more than those
      registered before it. */
  lemma NoneScoresMore(a: Ask, calls: seq<string>, i: nat, k: nat, j: nat)
    requires |calls| < |a.turns| && DistinctIds(a.ps) && k < |a.ps| && j < |a.ps| && Eligible(a, calls, a.ps[j])
    requires i < |PoolAfter(a, calls)| && PoolAfter(a, calls)[i] == a.ps[k]
    requires var pool, score := PoolAfter(a, calls), a.turns[|calls|].score; forall x :: 0 <= x < |pool| ==>
               score(pool[x]) <= score(pool[i]) && (x < i ==> score(pool[x]) < score(pool[i]))
    ensures var score := a.turns[|calls|].score;
            score(a.ps[j]) <= score(a.ps[k]) && (j < k ==> score(a.ps[j]) < score(a.ps[k]))
  {
    var pool := PoolAfter(a, calls);
    PoolIsEligible(a, calls, a.ps[j]);
    var x :| 0 <= x < |pool| && pool[x] == a.ps[j];
    if j < k && x > i {
      OrderOf(a, calls, i, x, k, j);
    }
  }

  /** With the weighted strategy it goes to the first registered of the eligible providers that score highest. */
  lemma WeightedCallsBest(a: Ask, calls: seq<string>, id: string) returns (k: nat)
    requires |calls| < |a.turns| && PicksNext(a, calls, id) && a.strategy == Weighted && DistinctIds(a.ps)
    ensures k < |a.ps| && a.ps[k].id == id && Eligible(a, calls, a.ps[k])
    ensures var score := a.turns[|calls|].score; forall j :: 0 <= j < |a.ps| && Eligible(a, calls, a.ps[j]) ==>
              score(a.ps[j]) <= score(a.ps[k]) && (j < k ==> score(a.ps[j]) < score(a.ps[k]))
  {
    var pool, score := PoolAfter(a, calls), a.turns[|calls|].score;
    var p: Provider :| p.id == id && Picked(a.strategy, pool, score, SharedAfter(a, calls).index, p);
    assert BestOf(pool, score, p);
    var i :| 0 <= i < |pool| && pool[i] == p && (forall j :: 0 <= j < |pool| ==> score(pool[j]) <= score(p)) &&
             (forall j :: 0 <= j < i ==> score(pool[j]) < score(p));
    PoolIsEligible(a, calls, p);
    k :| 0 <= k < |a.ps| && a.ps[k] == p;
    forall j | 0 <= j < |a.ps| && Eligible(a, calls, a.ps[j])
      ensures score(a.ps[j]) <= score(a.ps[k]) && (j < k ==> score(a.ps[j]) < score(a.ps[k]))
    {
      NoneScoresMore(a, calls, i, k, j);
    }
  }

  /** With round robin it goes to the candidate the shared index points at, and the index moves on to the next. */
  lemma RoundRobinCalls(a: Ask, calls: seq<string>, id: string)
    requires |calls| < |a.turns| && PicksNext(a, calls, id) && a.strategy == RoundRobin
    ensures var pool, i := PoolAfter(a, calls), SharedAfter(a, calls).index;
            && pool != [] && pool[i % |pool|].id == id && Eligible(a, calls, pool[i % |pool|])
            && Routed(a, calls).index == IndexAfter(pool, i, 1)
  {
    var pool, i := PoolAfter(a, calls), SharedAfter(a, calls).index;
    PoolIsEligible(a, calls, pool[i % |pool|]);
    assert IndexAfter(pool, i, 0) == i;
  }

  // ---- round robin

  /** The index after `n` routings over the same candidates. */
  function IndexAfter(pool: seq<Provider>, index: nat, n: nat): nat {
    if n == 0 then index else NextIndex(RoundRobin, pool, IndexAfter(pool, index, n - 1))
  }

  lemma {:induction false} IndexTurns(pool: seq<Provider>, index: nat, n: nat)
    requires pool != []
    ensures IndexAfter(pool, index, n) % |pool| == (index + n) % |pool|
  {
    if n > 0 {
      IndexTurns(pool, index, n - 1);
      StepTurns(IndexAfter(pool, index, n - 1), index + n - 1, |pool|);
    }
  }

  lemma StepTurns(x: nat, y: nat, m: nat)
    requires m > 0 && x % m == y % m
    ensures (x + 1) % m % m == (y + 1) % m
  {
    OneOn(x, m);
    OneOn(y, m);
    Remainder((x + 1) % m, m, 0, (x + 1) % m);
  }

  lemma OneOn(x: nat, m: nat)
    requires m > 0
    ensures (x + 1) % m == if x % m + 1 == m then 0 else x % m + 1
  {
    var q, r := x / m, x % m;
    assert x == m * q + r;
    if r + 1 == m {
      assert x + 1 == m * (q + 1);
      Remainder(x + 1, m, q + 1, 0);
    } else {
      Remainder(x + 1, m, q, r + 1);
    }
  }

  lemma Remainder(x: nat, m: nat, q: nat, r: nat)
    requires m > 0 && x == m * q + r && r < m
    ensures x % m == r
  {
    var q', r' := x / m, x % m;
    assert x == m * q' + r';
    assert m * (q - q') == r' - r;
    AtLeastOnce(m, q - q');
  }

  lemma AtLeastOnce(m: int, d: int)
    requires m > 0
    ensures d >= 1 ==> m * d >= m
    ensures d <= -1 ==> m * d <= -m
  {
  }

  /** Over as many routings as there are candidates, round robin picks each of them exactly once. */
  lemma RoundRobinIsFair(pool: seq<Provider>, index: nat, k: nat) returns (n: nat)
    requires k < |pool|
    ensures n < |pool| && IndexAfter(pool, index, n) % |pool| == k
    ensures forall j :: 0 <= j < |pool| && IndexAfter(pool, index, j) % |pool| == k ==> j == n
  {
    var m := |pool|;
    var r := index % m;
    n := if k >= r then k - r else k + m - r;
    forall j | 0 <= j < m ensures IndexAfter(pool, index, j) % m == if r + j < m then r + j else r + j - m {
      IndexTurns(pool, index, j);
      TurnsBy(index, m, j);
    }
  }

  lemma TurnsBy(x: nat, m: nat, j: nat)
    requires 0 <= j < m
    ensures (x + j) % m == if x % m + j < m then x % m + j else x % m + j - m
  {
    var q, r := x / m, x % m;
    assert x == m * q + r;
    if r + j < m {
      Remainder(x + j, m, q, r + j);
    } else {
      assert x + j == m * (q + 1) + (r + j - m);
      Remainder(x + j, m, q + 1, r + j - m);
    }
  }

  // ---- what the request comes to

  lemma {:induction false} EarlierCallsFailed(a: Ask, calls: seq<string>, i: nat)
    requires Made(a, calls) && i + 1 < |calls|
    ensures |calls| <= |a.turns| && a.turns[i].result == FailedCall(true)
    decreases |calls|
  {
    var n := |calls| - 1;
    if i + 1 < n {
      EarlierCallsFailed(a, calls[..n], i);
    }
  }

  /** Nobody the request could still go to. */
  ghost predicate NobodyEligible(a: Ask, calls: seq<string>)
    requires |calls| < |a.turns|
  {
    forall p :: p in a.ps ==> !Eligible(a, calls, p)
  }

  /** The request is answered by its last call, exactly when that succeeded; it is cancelled only when the caller had
      aborted with attempts left; it fails with its last provider, or for want of any, only when that failed for good,
      the attempts were used up, or nobody eligible was left. Every call before the last failed and allowed another. */
  lemma AnswersTell(a: Ask, calls: seq<string>, e: Ending, verdict: Verdict, there: Shared)
    requires Concluded(a, calls, e, verdict, there)
    ensures |calls| <= |a.turns|
    ensures forall i :: 0 <= i < |calls| - 1 ==> a.turns[i].result == FailedCall(true)
    ensures verdict.Response? <==> calls != [] && a.turns[|calls| - 1].result == Answered
    ensures verdict.Response? || verdict.ProviderFailed? ==> calls != [] && verdict.provider == calls[|calls| - 1]
    ensures verdict == CancelledBefore ==>
              |calls| < a.max && |calls| < |a.turns| && a.turns[|calls|].aborted
    ensures verdict == NoProvider ==>
              calls == [] && (a.max <= 0 || (|a.turns| > 0 && !a.turns[0].aborted && NobodyEligible(a, calls)))
    ensures verdict.ProviderFailed? ==>
              || a.turns[|calls| - 1].result == FailedCall(false)
              || |calls| >= a.max
              || (|calls| < |a.turns| && !a.turns[|calls|].aborted && NobodyEligible(a, calls))
  {
    forall i | 0 <= i < |calls| - 1 ensures a.turns[i].result == FailedCall(true) {
      EarlierCallsFailed(a, calls, i);
    }
    if e.NobodyLeft? {
      forall p | p in a.ps ensures !Eligible(a, calls, p) {
        PoolIsEligible(a, calls, p);
      }
    }
  }

  /** While no other request overlaps, a failover is counted for each failed call that had an attempt to come. */
  lemma {:induction false} FailoversAreCounted(a: Ask, calls: seq<string>)
    requires Alone(a) && Made(a, calls)
    ensures var failed := if calls != [] && a.turns[|calls| - 1].result == Answered then |calls| - 1 else |calls|;
            SharedAfter(a, calls).failovers ==
            a.start.failovers + if failed < a.max then failed else if a.max > 0 then a.max - 1 else 0
    decreases |calls|
  {
    if calls != [] {
      FailoversAreCounted(a, calls[..|calls| - 1]);
    }
  }
}
