/** Routing and failover of the AI orchestrator (packages/ai-orchestrator/src/router.ts,
    packages/ai-orchestrator/src/orchestrator.ts). What each provider call comes to is an argument. */
module Failover {
  import opened Common
  import opened Breaker

  datatype ModelInfo = ModelInfo(id: string, cost: real)

  datatype Provider = Provider(id: string, modalities: set<string>, streaming: bool, structured: bool,
                               models: seq<ModelInfo>)

  datatype Request = Request(modality: Option<string>, stream: bool, structured: bool, costCeiling: real,
                             model: Option<string>)

  datatype Strategy = Priority | Weighted | RoundRobin

  type Circuits = map<string, Circuit>

  // ---- candidates

  function ModelNamed(models: seq<ModelInfo>, id: string): Option<ModelInfo> {
    if models == [] then None else if models[0].id == id then Some(models[0]) else ModelNamed(models[1..], id)
  }

  function SelectModel(p: Provider, r: Request): Option<ModelInfo> {
    var named := if r.model.Some? && r.model.value != "" then ModelNamed(p.models, r.model.value) else None;
    if named.Some? then named else if p.models != [] then Some(p.models[0]) else None
  }

  predicate Capable(p: Provider, r: Request) {
    && (r.modality.Some? && r.modality.value != "" ==> r.modality.value in p.modalities)
    && (r.stream ==> p.streaming)
    && (r.structured ==> p.structured)
    && (r.costCeiling > 0.0 && SelectModel(p, r).Some? ==> SelectModel(p, r).value.cost <= r.costCeiling)
  }

  function CircuitOf(cs: Circuits, id: string): Circuit {
    if id in cs then cs[id] else CLOSED
  }

  /** Not tried yet and not held back: the filter latches its half-open transition. */
  predicate Probed(p: Provider, tried: seq<string>, cs: Circuits, cfg: Config, now: int) {
    p.id !in tried && !IsCircuitOpen(CircuitOf(cs, p.id), cfg, now)
  }

  function Candidates(ps: seq<Provider>, tried: seq<string>, cs: Circuits, cfg: Config, r: Request,
                      now: int): seq<Provider> {
    if ps == [] then []
    else
      var p := ps[|ps| - 1];
      Candidates(ps[..|ps| - 1], tried, cs, cfg, r, now)
      + if Probed(p, tried, cs, cfg, now) && Capable(p, r) then [p] else []
  }

  predicate DistinctIds(ps: seq<Provider>) {
    forall i, j :: 0 <= i < j < |ps| ==> ps[i].id != ps[j].id
  }

  lemma {:induction false} CandidatesExact(ps: seq<Provider>, tried: seq<string>, cs: Circuits, cfg: Config,
                                           r: Request, now: int, p: Provider)
    ensures p in Candidates(ps, tried, cs, cfg, r, now) <==> p in ps && Probed(p, tried, cs, cfg, now) && Capable(p, r)
  {
    if ps != [] {
      var n := |ps| - 1;
      CandidatesExact(ps[..n], tried, cs, cfg, r, now, p);
      assert ps == ps[..n] + [ps[n]];
    }
  }

  lemma CandidatesNext(ps: seq<Provider>, i: nat, tried: seq<string>, cs: Circuits, cfg: Config, r: Request, now: int)
    requires i < |ps|
    ensures Candidates(ps[..i + 1], tried, cs, cfg, r, now)
            == Candidates(ps[..i], tried, cs, cfg, r, now)
               + if Probed(ps[i], tried, cs, cfg, now) && Capable(ps[i], r) then [ps[i]] else []
  {
    var upTo := ps[..i + 1];
    assert upTo[..i] == ps[..i] && upTo[i] == ps[i];
  }

  // ---- the record of what breakers were told

  datatype Note = Note(id: string, event: Event)

  function Replay(cs: Circuits, log: seq<Note>, cfg: Config): Circuits {
    if log == [] then cs
    else
      var before := Replay(cs, log[..|log| - 1], cfg);
      var note := log[|log| - 1];
      before[note.id := Breaker.Step(CircuitOf(before, note.id), cfg, note.event)]
  }

  /** How many outcomes, successes or failures, the log holds for `id`. */
  function Outcomes(log: seq<Note>, id: string): nat {
    if log == [] then 0
    else
      var note := log[|log| - 1];
      Outcomes(log[..|log| - 1], id) + if note.id == id && !note.event.Try? then 1 else 0
  }

  lemma NoteAdds(cs: Circuits, log: seq<Note>, note: Note, cfg: Config, id: string)
    ensures Replay(cs, log + [note], cfg)
            == Replay(cs, log, cfg)[note.id := Breaker.Step(CircuitOf(Replay(cs, log, cfg), note.id), cfg, note.event)]
    ensures Outcomes(log + [note], id) == Outcomes(log, id) + if note.id == id && !note.event.Try? then 1 else 0
  {
    assert (log + [note])[..|log|] == log;
  }

  /** The breakers the filter tries, in its order. */
  function Tries(ps: seq<Provider>, tried: seq<string>, cs: Circuits, cfg: Config, now: int): seq<Note> {
    if ps == [] then []
    else
      var p := ps[|ps| - 1];
      Tries(ps[..|ps| - 1], tried, cs, cfg, now) + if Probed(p, tried, cs, cfg, now) then [Note(p.id, Try(now))] else []
  }

  lemma TriesNext(ps: seq<Provider>, i: nat, tried: seq<string>, cs: Circuits, cfg: Config, now: int)
    requires i < |ps|
    ensures Tries(ps[..i + 1], tried, cs, cfg, now)
            == Tries(ps[..i], tried, cs, cfg, now)
               + if Probed(ps[i], tried, cs, cfg, now) then [Note(ps[i].id, Try(now))] else []
  {
    var upTo := ps[..i + 1];
    assert upTo[..i] == ps[..i] && upTo[i] == ps[i];
  }

  predicate ProbedId(ps: seq<Provider>, tried: seq<string>, cs: Circuits, cfg: Config, now: int, id: string) {
    exists p :: p in ps && p.id == id && Probed(p, tried, cs, cfg, now)
  }

  /** A probed provider's breaker has been tried at `now`; every other is as it was. */
  ghost predicate Latched(ps: seq<Provider>, tried: seq<string>, was: Circuits, cs: Circuits, cfg: Config, now: int) {
    forall id ::
      CircuitOf(cs, id) ==
      if ProbedId(ps, tried, was, cfg, now, id) then AfterTry(CircuitOf(was, id), cfg, now) else CircuitOf(was, id)
  }

  lemma ProbedByOneMore(ps: seq<Provider>, tried: seq<string>, cs: Circuits, cfg: Config, now: int, id: string)
    requires ps != []
    ensures var n := |ps| - 1;
            ProbedId(ps, tried, cs, cfg, now, id) <==>
              ProbedId(ps[..n], tried, cs, cfg, now, id) || (ps[n].id == id && Probed(ps[n], tried, cs, cfg, now))
  {
    assert ps == ps[..|ps| - 1] + [ps[|ps| - 1]];
  }

  lemma {:induction false} TriesLatch(ps: seq<Provider>, tried: seq<string>, cs: Circuits, cfg: Config, now: int)
    requires DistinctIds(ps)
    ensures Latched(ps, tried, cs, Replay(cs, Tries(ps, tried, cs, cfg, now), cfg), cfg, now)
  {
    if ps != [] {
      var n := |ps| - 1;
      var p, before := ps[n], Tries(ps[..n], tried, cs, cfg, now);
      TriesLatch(ps[..n], tried, cs, cfg, now);
      NoteAdds(cs, before, Note(p.id, Try(now)), cfg, p.id);
      assert !ProbedId(ps[..n], tried, cs, cfg, now, p.id);
      forall id
        ensures CircuitOf(Replay(cs, Tries(ps, tried, cs, cfg, now), cfg), id) ==
                if ProbedId(ps, tried, cs, cfg, now, id) then AfterTry(CircuitOf(cs, id), cfg, now)
                else CircuitOf(cs, id)
      {
        ProbedByOneMore(ps, tried, cs, cfg, now, id);
        assert before + [] == before;
      }
    }
  }

  lemma {:induction false} TriesAreTries(ps: seq<Provider>, tried: seq<string>, cs: Circuits, cfg: Config, now: int,
                                         i: nat)
    requires i < |Tries(ps, tried, cs, cfg, now)|
    ensures Tries(ps, tried, cs, cfg, now)[i].event == Try(now)
  {
    var n := |ps| - 1;
    if i < |Tries(ps[..n], tried, cs, cfg, now)| {
      TriesAreTries(ps[..n], tried, cs, cfg, now, i);
    }
  }

  // ---- provider calls

  datatype CallResult = Answered | FailedCall(retryable: bool)

  /** What all requests share. */
  datatype Shared = Shared(circuits: Circuits, index: nat, failovers: int)

  /** One turn of the failover loop, as the environment plays it: the clock when it routes and when the
      provider's answer is in, whether the caller has aborted, how the call goes, how providers score, and what
      other requests do to the shared state while this one awaits. */
  datatype Turn = Turn(now: int, aborted: bool, result: CallResult, score: Provider -> real,
                       meanwhile: Shared -> Shared, doneAt: int)

  datatype Verdict = Response(provider: string) | CancelledBefore | NoProvider | ProviderFailed(provider: string)

  /** A request as it arrives: its attempt limit, the shared state it finds, and the turns to come. */
  datatype Ask = Ask(cfg: Config, strategy: Strategy, max: int, ps: seq<Provider>, r: Request, turns: seq<Turn>,
                     start: Shared)

  function EventOf(turn: Turn): Event {
    if turn.result.Answered? then Success(turn.doneAt) else Failure(turn.doneAt)
  }

  function NextIndex(strategy: Strategy, pool: seq<Provider>, index: nat): nat {
    if strategy == RoundRobin && pool != [] then (index + 1) % |pool| else index
  }

  /** The provider's breaker is told how the call went. */
  function Told(a: Ask, id: string, turn: Turn, there: Shared): Shared {
    there.(circuits := there.circuits[id := Breaker.Step(CircuitOf(there.circuits, id), a.cfg, EventOf(turn))])
  }

  /** The n-th call has failed with attempts to come: a failover is counted. */
  function Bumped(a: Ask, n: nat, there: Shared): Shared {
    if n < a.max - 1 then there.(failovers := there.failovers + 1) else there
  }

  /** The shared state once these calls have been made, and the request goes on. */
  function SharedAfter(a: Ask, calls: seq<string>): Shared
    requires |calls| <= |a.turns|
    decreases |calls|, 0
  {
    if calls == [] then a.start
    else
      var n := |calls| - 1;
      var told := Told(a, calls[n], a.turns[n], a.turns[n].meanwhile(Routed(a, calls[..n])));
      if a.turns[n].result.Answered? then told else Bumped(a, n, told)
  }

  /** The breakers tried by the routing that follows these calls. */
  function TriesAfter(a: Ask, calls: seq<string>): seq<Note>
    requires |calls| < |a.turns|
    decreases |calls|, 1
  {
    Tries(a.ps, calls, SharedAfter(a, calls).circuits, a.cfg, a.turns[|calls|].now)
  }

  /** The providers that routing has to choose from. */
  function PoolAfter(a: Ask, calls: seq<string>): seq<Provider>
    requires |calls| < |a.turns|
    decreases |calls|, 1
  {
    Candidates(a.ps, calls, SharedAfter(a, calls).circuits, a.cfg, a.r, a.turns[|calls|].now)
  }

  /** The shared state that routing leaves. */
  function Routed(a: Ask, calls: seq<string>): Shared
    requires |calls| < |a.turns|
    decreases |calls|, 2
  {
    var s := SharedAfter(a, calls);
    Shared(Replay(s.circuits, TriesAfter(a, calls), a.cfg),
           NextIndex(a.strategy, PoolAfter(a, calls), s.index), s.failovers)
  }

  /** What this request itself has told the breakers. */
  function LogAfter(a: Ask, calls: seq<string>): seq<Note>
    requires |calls| <= |a.turns|
    decreases |calls|
  {
    if calls == [] then []
    else
      var n := |calls| - 1;
      LogAfter(a, calls[..n]) + TriesAfter(a, calls[..n]) + [Note(calls[n], EventOf(a.turns[n]))]
  }

  /** `p` is the first of the best-scored candidates. */
  predicate BestOf(pool: seq<Provider>, score: Provider -> real, p: Provider) {
    exists k :: 0 <= k < |pool| && pool[k] == p
                && (forall j :: 0 <= j < |pool| ==> score(pool[j]) <= score(p))
                && (forall j :: 0 <= j < k ==> score(pool[j]) < score(p))
  }

  predicate Picked(strategy: Strategy, pool: seq<Provider>, score: Provider -> real, index: nat, p: Provider) {
    pool != [] &&
    match strategy
    case Priority => p == pool[0]
    case Weighted => BestOf(pool, score, p)
    case RoundRobin => p == pool[index % |pool|]
  }

  ghost predicate PicksNext(a: Ask, calls: seq<string>, id: string)
    requires |calls| < |a.turns|
  {
    exists p: Provider :: p.id == id &&
        Picked(a.strategy, PoolAfter(a, calls), a.turns[|calls|].score, SharedAfter(a, calls).index, p)
  }

  /** These calls are the request's so far: each to the provider the strategy picks at its turn, each
      after a retryable failure of the one before, none once the caller has aborted. */
  ghost predicate Made(a: Ask, calls: seq<string>)
    decreases |calls|
  {
    |calls| <= |a.turns| &&
    (calls == [] ||
     var n := |calls| - 1;
     && Made(a, calls[..n]) && !a.turns[n].aborted && PicksNext(a, calls[..n], calls[n])
     && (n > 0 ==> a.turns[n - 1].result == FailedCall(true)))
  }

  /** Why a request makes no further call. */
  datatype Ending = GotAnswer | NotRetryable | AttemptsUsedUp | Aborted | NobodyLeft

  ghost predicate Ends(a: Ask, calls: seq<string>, e: Ending) {
    var n := |calls|;
    var last := if n > 0 && n <= |a.turns| then a.turns[n - 1].result else FailedCall(true);
    match e
    case GotAnswer => last.Answered?
    case NotRetryable => last == FailedCall(false)
    case AttemptsUsedUp => last == FailedCall(true) && n >= a.max
    case Aborted => last == FailedCall(true) && n < a.max && n < |a.turns| && a.turns[n].aborted
    case NobodyLeft =>
      last == FailedCall(true) && n < a.max && n < |a.turns| && !a.turns[n].aborted && PoolAfter(a, calls) == []
  }

  function VerdictOf(calls: seq<string>, e: Ending): Verdict {
    if e.Aborted? then CancelledBefore
    else if calls == [] then NoProvider
    else if e.GotAnswer? then Response(calls[|calls| - 1])
    else ProviderFailed(calls[|calls| - 1])
  }

  /** All this request told the breakers: a last routing that finds nobody has tried them too. */
  function WholeLog(a: Ask, calls: seq<string>, e: Ending): seq<Note>
    requires |calls| <= |a.turns|
  {
    if e.NobodyLeft? && |calls| < |a.turns| then LogAfter(a, calls) + TriesAfter(a, calls) else LogAfter(a, calls)
  }

  /** The shared state the request leaves. */
  function LeftBehind(a: Ask, calls: seq<string>, e: Ending): Shared
    requires |calls| <= |a.turns|
  {
    if e.NobodyLeft? && |calls| < |a.turns| then Routed(a, calls) else SharedAfter(a, calls)
  }

  class AiOrchestrator {
    const cfg: Config
    const strategy: Strategy
    const failoverEnabled: bool
    const maxFailoverAttempts: int
    var circuits: Circuits
    var index: nat
    var totalFailovers: int

    constructor (cfg: Config, strategy: Strategy, failoverEnabled: bool, maxFailoverAttempts: int)
      ensures this.cfg == cfg && this.strategy == strategy
      ensures this.failoverEnabled == failoverEnabled && this.maxFailoverAttempts == maxFailoverAttempts
      ensures circuits == map[] && index == 0 && totalFailovers == 0
    {
      this.cfg, this.strategy := cfg, strategy;
      this.failoverEnabled, this.maxFailoverAttempts := failoverEnabled, maxFailoverAttempts;
      circuits, index, totalFailovers := map[], 0, 0;
    }

    function MaxAttempts(): int {
      if failoverEnabled then maxFailoverAttempts else 1
    }

    function State(): Shared
      reads this
    {
      Shared(circuits, index, totalFailovers)
    }

    function Asked(ps: seq<Provider>, r: Request, turns: seq<Turn>): Ask
      reads this
    {
      Ask(cfg, strategy, MaxAttempts(), ps, r, turns, State())
    }

    /** Keep, in order, the untried capable providers whose breaker lets a request through, and try the
        breaker of every provider looked at on the way. */
    method FilterCandidates(ps: seq<Provider>, tried: seq<string>, r: Request, now: int)
      returns (candidates: seq<Provider>)
      requires DistinctIds(ps)
      modifies this`circuits
      ensures candidates == Candidates(ps, tried, old(circuits), cfg, r, now)
      ensures circuits == Replay(old(circuits), Tries(ps, tried, old(circuits), cfg, now), cfg)
      ensures Latched(ps, tried, old(circuits), circuits, cfg, now)
    {
      candidates := [];
      ghost var log: seq<Note> := [];
      for i := 0 to |ps|
        invariant candidates == Candidates(ps[..i], tried, old(circuits), cfg, r, now)
        invariant log == Tries(ps[..i], tried, old(circuits), cfg, now) && circuits == Replay(old(circuits), log, cfg)
        invariant forall k :: i <= k < |ps| ==> CircuitOf(circuits, ps[k].id) == CircuitOf(old(circuits), ps[k].id)
      {
        var p := ps[i];
        CandidatesNext(ps, i, tried, old(circuits), cfg, r, now);
        TriesNext(ps, i, tried, old(circuits), cfg, now);
        if p.id in tried {
          continue;
        }
        var circuit := CircuitOf(circuits, p.id);
        if IsCircuitOpen(circuit, cfg, now) {
          continue;
        }
        NoteAdds(old(circuits), log, Note(p.id, Try(now)), cfg, p.id);
        circuits := circuits[p.id := AfterTry(circuit, cfg, now)];
        log := log + [Note(p.id, Try(now))];
        if Capable(p, r) {
          candidates := candidates + [p];
        }
      }
      assert ps[..|ps|] == ps;
      TriesLatch(ps, tried, old(circuits), cfg, now);
    }

    /** Keep the first of the best-scored candidates. */
    method BestScored(candidates: seq<Provider>, score: Provider -> real) returns (best: Provider)
      requires candidates != []
      ensures BestOf(candidates, score, best)
    {
      best := candidates[0];
      ghost var k := 0;
      for i := 0 to |candidates|
        invariant 0 <= k < |candidates| && best == candidates[k] && (k < i || k == i == 0)
        invariant forall j :: 0 <= j < i ==> score(candidates[j]) <= score(best)
        invariant forall j :: 0 <= j < k ==> score(candidates[j]) < score(best)
      {
        if score(candidates[i]) > score(best) {
          best := candidates[i];
          k := i;
        }
      }
    }

    method Route(ps: seq<Provider>, tried: seq<string>, r: Request, now: int, score: Provider -> real)
      returns (chosen: Option<Provider>)
      requires DistinctIds(ps)
      modifies this`circuits, this`index
      ensures circuits == Replay(old(circuits), Tries(ps, tried, old(circuits), cfg, now), cfg)
      ensures Latched(ps, tried, old(circuits), circuits, cfg, now)
      ensures var pool := Candidates(ps, tried, old(circuits), cfg, r, now);
              && (chosen.None? <==> pool == [])
              && (chosen.Some? ==> Picked(strategy, pool, score, old(index), chosen.value))
              && index == NextIndex(strategy, pool, old(index))
    {
      var candidates := FilterCandidates(ps, tried, r, now);
      if |candidates| == 0 {
        return None;
      }
      match strategy {
        case Priority => chosen := Some(candidates[0]);
        case Weighted =>
          var best := BestScored(candidates, score);
          chosen := Some(best);
        case RoundRobin =>
          chosen := Some(candidates[index % |candidates|]);
          index := (index + 1) % |candidates|;
      }
    }

    /** One request, up to its end: which calls it makes, what each tells its provider's breaker, why it
        makes no more, what the caller gets, and the shared state it leaves among other requests. */
    method ExecuteWithFailover(ps: seq<Provider>, r: Request, turns: seq<Turn>)
      returns (verdict: Verdict, calls: seq<string>, ghost e: Ending)
      requires DistinctIds(ps) && |turns| >= MaxAttempts()
      modifies this
      ensures Concluded(old(Asked(ps, r, turns)), calls, e, verdict, State())
    {
      ghost var a := Asked(ps, r, turns);
      calls := [];
      var lastError: Option<string> := None;
      var maxAttempts := MaxAttempts();
      var attempt := 0;
      while attempt < maxAttempts
        invariant attempt == |calls|
        invariant lastError == if calls == [] then None else Some(calls[attempt - 1])
        invariant Running(a, calls, State())
      {
        var turn := turns[attempt];
        if turn.aborted {
          RunningEnds(a, calls, Aborted, State());
          return CancelledBefore, calls, Aborted;
        }
        var called := AttemptOnce(a, ps, r, turn, calls);
        if called.None? {
          return if lastError.Some? then ProviderFailed(lastError.value) else NoProvider, calls, NobodyLeft;
        }
        var id := called.value;
        calls := calls + [id];
        if turn.result.Answered? {
          return Response(id), calls, GotAnswer;
        }
        lastError := Some(id);
        if attempt < maxAttempts - 1 {
          totalFailovers := totalFailovers + 1;
        }
        attempt := attempt + 1;
        if !turn.result.retryable {
          return ProviderFailed(id), calls, NotRetryable;
        }
      }
      verdict := if lastError.Some? then ProviderFailed(lastError.value) else NoProvider;
      e := AttemptsUsedUp;
      RunningEnds(a, calls, e, State());
    }

    /** Route, await the provider while other requests go on, and tell its breaker how it went. */
    method AttemptOnce(ghost a: Ask, ps: seq<Provider>, r: Request, turn: Turn, calls: seq<string>)
      returns (called: Option<string>)
      requires a.ps == ps && a.r == r && a.cfg == cfg && a.strategy == strategy && DistinctIds(ps)
      requires |calls| < a.max && |calls| < |a.turns| && a.turns[|calls|] == turn && !turn.aborted
      requires Running(a, calls, State())
      modifies this
      ensures called.None? ==> Concluded(a, calls, NobodyLeft, VerdictOf(calls, NobodyLeft), State())
      ensures called.Some? ==> GoesOn(a, calls, called.value, State())
    {
      var chosen := Route(ps, calls, r, turn.now, turn.score);
      assert State() == Routed(a, calls);
      if chosen.None? {
        RunningEnds(a, calls, NobodyLeft, State());
        return None;
      }
      var id := chosen.value.id;
      var there := turn.meanwhile(State());
      circuits, index, totalFailovers := there.circuits, there.index, there.failovers;
      circuits := circuits[id := Breaker.Step(CircuitOf(circuits, id), cfg, EventOf(turn))];
      RunningNext(a, calls, id, State());
      called := Some(id);
    }
  }

  /** How a request has gone: its calls, its end, the answer, and the shared state it leaves. */
  ghost predicate Concluded(a: Ask, calls: seq<string>, e: Ending, verdict: Verdict, there: Shared) {
    && Made(a, calls) && (|calls| <= a.max || calls == []) && Ends(a, calls, e) && verdict == VerdictOf(calls, e)
    && there == LeftBehind(a, calls, e)
  }

  /** The calls so far, all of them failed and worth another attempt. */
  ghost predicate Underway(a: Ask, calls: seq<string>) {
    && Made(a, calls) && (calls != [] ==> a.turns[|calls| - 1].result == FailedCall(true))
    && (|calls| <= a.max || calls == [])
  }

  ghost predicate Running(a: Ask, calls: seq<string>, there: Shared) {
    Underway(a, calls) && there == SharedAfter(a, calls)
  }

  /** The ways to end without another call. */
  lemma RunningEnds(a: Ask, calls: seq<string>, e: Ending, there: Shared)
    requires Underway(a, calls)
    requires match e
             case AttemptsUsedUp => |calls| >= a.max
             case Aborted => |calls| < a.max && |calls| < |a.turns| && a.turns[|calls|].aborted
             case NobodyLeft =>
               |calls| < a.max && |calls| < |a.turns| && !a.turns[|calls|].aborted && PoolAfter(a, calls) == []
             case _ => false
    requires there == LeftBehind(a, calls, e)
    ensures Concluded(a, calls, e, VerdictOf(calls, e), there)
  {
  }

  lemma MadeNext(a: Ask, calls: seq<string>, id: string)
    requires Underway(a, calls) && |calls| < |a.turns| && !a.turns[|calls|].aborted && PicksNext(a, calls, id)
    ensures Made(a, calls + [id])
  {
    assert (calls + [id])[..|calls|] == calls;
  }

  /** The provider's breaker has just been told: where the request stands. */
  ghost predicate GoesOn(a: Ask, calls: seq<string>, id: string, there: Shared)
    requires |calls| < |a.turns|
  {
    var more := calls + [id];
    match a.turns[|calls|].result
    case Answered => Concluded(a, more, GotAnswer, Response(id), there)
    case FailedCall(again) =>
      var bumped := Bumped(a, |calls|, there);
      if again then Running(a, more, bumped) else Concluded(a, more, NotRetryable, ProviderFailed(id), bumped)
  }

  /** One more call ends the request or leaves it running, by how it went. */
  lemma RunningNext(a: Ask, calls: seq<string>, id: string, there: Shared)
    requires Underway(a, calls) && |calls| < a.max && |calls| < |a.turns| && !a.turns[|calls|].aborted
    requires PicksNext(a, calls, id)
    requires there == Told(a, id, a.turns[|calls|], a.turns[|calls|].meanwhile(Routed(a, calls)))
    ensures GoesOn(a, calls, id, there)
  {
    MadeNext(a, calls, id);
    assert (calls + [id])[..|calls|] == calls;
  }

  // ---- what follows for every request

  function CapableIds(ps: seq<Provider>, r: Request): set<string> {
    set p | p in ps && Capable(p, r) :: p.id
  }

  lemma {:induction false} OutcomesConcat(log: seq<Note>, more: seq<Note>, id: string)
    ensures Outcomes(log + more, id) == Outcomes(log, id) + Outcomes(more, id)
  {
    if more == [] {
      assert log + more == log;
    } else {
      var n := |more| - 1;
      OutcomesConcat(log, more[..n], id);
      assert (log + more)[..|log + more| - 1] == log + more[..n];
    }
  }

  lemma {:induction false} NoOutcomes(log: seq<Note>, id: string)
    requires forall i :: 0 <= i < |log| ==> log[i].event.Try?
    ensures Outcomes(log, id) == 0
  {
    if log != [] {
      NoOutcomes(log[..|log| - 1], id);
    }
  }

  lemma TriesHoldNoOutcome(a: Ask, calls: seq<string>, id: string)
    requires |calls| < |a.turns|
    ensures Outcomes(TriesAfter(a, calls), id) == 0
  {
    forall i | 0 <= i < |TriesAfter(a, calls)| ensures TriesAfter(a, calls)[i].event.Try? {
      TriesAreTries(a.ps, calls, SharedAfter(a, calls).circuits, a.cfg, a.turns[|calls|].now, i);
    }
    NoOutcomes(TriesAfter(a, calls), id);
  }

  lemma PickedIsCandidate(strategy: Strategy, pool: seq<Provider>, score: Provider -> real, index: nat, p: Provider)
    requires Picked(strategy, pool, score, index, p)
    ensures p in pool
  {
  }

  lemma PickedIsNew(a: Ask, calls: seq<string>, id: string)
    requires |calls| < |a.turns| && PicksNext(a, calls, id)
    ensures id !in calls && id in CapableIds(a.ps, a.r)
  {
    var p: Provider :| p.id == id &&
        Picked(a.strategy, PoolAfter(a, calls), a.turns[|calls|].score, SharedAfter(a, calls).index, p);
    PickedIsCandidate(a.strategy, PoolAfter(a, calls), a.turns[|calls|].score, SharedAfter(a, calls).index, p);
    CandidatesExact(a.ps, calls, SharedAfter(a, calls).circuits, a.cfg, a.r, a.turns[|calls|].now, p);
  }

  lemma {:induction false} CallsDiffer(a: Ask, calls: seq<string>)
    requires Made(a, calls)
    ensures forall i, j :: 0 <= i < j < |calls| ==> calls[i] != calls[j]
    ensures forall i :: 0 <= i < |calls| ==> calls[i] in CapableIds(a.ps, a.r)
    decreases |calls|
  {
    if calls != [] {
      var n := |calls| - 1;
      CallsDiffer(a, calls[..n]);
      PickedIsNew(a, calls[..n], calls[n]);
    }
  }

  lemma OutcomesNext(a: Ask, calls: seq<string>, id: string)
    requires 0 < |calls| <= |a.turns|
    ensures var n := |calls| - 1;
            Outcomes(LogAfter(a, calls), id) == Outcomes(LogAfter(a, calls[..n]), id) + if calls[n] == id then 1 else 0
  {
    var n := |calls| - 1;
    var before := calls[..n];
    TriesHoldNoOutcome(a, before, id);
    OutcomesConcat(LogAfter(a, before), TriesAfter(a, before), id);
    NoteAdds(map[], LogAfter(a, before) + TriesAfter(a, before), Note(calls[n], EventOf(a.turns[n])), a.cfg, id);
  }

  lemma {:induction false} OneOutcomeEach(a: Ask, calls: seq<string>, id: string)
    requires Made(a, calls)
    ensures Outcomes(LogAfter(a, calls), id) == if id in calls then 1 else 0
    decreases |calls|
  {
    if calls != [] {
      var n := |calls| - 1;
      OneOutcomeEach(a, calls[..n], id);
      PickedIsNew(a, calls[..n], calls[n]);
      OutcomesNext(a, calls, id);
      assert id in calls <==> id in calls[..n] || id == calls[n] by {
        assert calls == calls[..n] + [calls[n]];
      }
    }
  }

  /** Whatever other requests do meanwhile: no provider is called twice or without being capable, and this
      request tells the breakers of one outcome for each call and of none for anyone else. */
  lemma EachCallOnce(a: Ask, calls: seq<string>, e: Ending, verdict: Verdict, there: Shared, id: string)
    requires Concluded(a, calls, e, verdict, there)
    ensures |calls| <= a.max || calls == []
    ensures forall i, j :: 0 <= i < j < |calls| ==> calls[i] != calls[j]
    ensures forall i :: 0 <= i < |calls| ==> calls[i] in CapableIds(a.ps, a.r)
    ensures Outcomes(WholeLog(a, calls, e), id) == if id in calls then 1 else 0
  {
    CallsDiffer(a, calls);
    OneOutcomeEach(a, calls, id);
    if e.NobodyLeft? {
      TriesHoldNoOutcome(a, calls, id);
      OutcomesConcat(LogAfter(a, calls), TriesAfter(a, calls), id);
    }
  }

  /** Nobody else touches the shared state while this request awaits. */
  ghost predicate Alone(a: Ask) {
    forall i, s :: 0 <= i < |a.turns| ==> a.turns[i].meanwhile(s) == s
  }

  lemma {:induction false} AloneAfter(a: Ask, calls: seq<string>)
    requires Alone(a) && |calls| <= |a.turns|
    ensures SharedAfter(a, calls).circuits == Replay(a.start.circuits, LogAfter(a, calls), a.cfg)
    decreases |calls|
  {
    if calls != [] {
      var n := |calls| - 1;
      AloneAfter(a, calls[..n]);
      ReplayConcat(a.start.circuits, LogAfter(a, calls[..n]), TriesAfter(a, calls[..n]), a.cfg);
      NoteAdds(a.start.circuits, LogAfter(a, calls[..n]) + TriesAfter(a, calls[..n]),
               Note(calls[n], EventOf(a.turns[n])), a.cfg, calls[n]);
    }
  }

  /** A request that no other overlaps leaves each breaker as its own log makes it. */
  lemma AloneIsReplayed(a: Ask, calls: seq<string>, e: Ending, verdict: Verdict, there: Shared)
    requires Alone(a) && Concluded(a, calls, e, verdict, there)
    ensures there.circuits == Replay(a.start.circuits, WholeLog(a, calls, e), a.cfg)
  {
    AloneAfter(a, calls);
    if e.NobodyLeft? {
      ReplayConcat(a.start.circuits, LogAfter(a, calls), TriesAfter(a, calls), a.cfg);
    }
  }

  /** The outcome a breaker is told of is that of the call: success exactly when it was answered. */
  lemma {:induction false} OutcomeIsTheCalls(a: Ask, calls: seq<string>, note: Note)
    requires Made(a, calls) && note in LogAfter(a, calls) && !note.event.Try?
    ensures exists i :: 0 <= i < |calls| && note == Note(calls[i], EventOf(a.turns[i]))
    decreases |calls|
  {
    if calls != [] {
      var n := |calls| - 1;
      if note in LogAfter(a, calls[..n]) {
        OutcomeIsTheCalls(a, calls[..n], note);
        var i :| 0 <= i < n && note == Note(calls[..n][i], EventOf(a.turns[i]));
        assert note == Note(calls[i], EventOf(a.turns[i]));
      } else {
        forall i | 0 <= i < |TriesAfter(a, calls[..n])| ensures TriesAfter(a, calls[..n])[i] != note {
          TriesAreTries(a.ps, calls[..n], SharedAfter(a, calls[..n]).circuits, a.cfg, a.turns[n].now, i);
        }
        assert note == Note(calls[n], EventOf(a.turns[n]));
      }
    }
  }

  lemma {:induction false} ReplayConcat(cs: Circuits, log: seq<Note>, more: seq<Note>, cfg: Config)
    ensures Replay(cs, log + more, cfg) == Replay(Replay(cs, log, cfg), more, cfg)
  {
    if more == [] {
      assert log + more == log;
    } else {
      var n := |more| - 1;
      ReplayConcat(cs, log, more[..n], cfg);
      assert (log + more)[..|log + more| - 1] == log + more[..n];
    }
  }
}
