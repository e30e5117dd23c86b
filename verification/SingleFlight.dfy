/** The protocol of the single-flight analysis orchestrator as a transition system
    (packages/engine/src/analysis-orchestrator.ts): arrivals, aborts, promise settlement, the cleanup
    callback and the consumer callbacks, interleaved in any order the runtime allows. */
module SingleFlight {
  import opened Common

  // ---- analysis results

  /** A value whose shape nobody has checked yet; an array's holes read as `Undefined`. */
  datatype Value =
    | Undefined | Null | Flag(flag: bool) | Number(number: real) | NotFinite | Text(text: string)
    | List(items: seq<Value>) | Record(fields: map<string, Value>)

  const MAX_SAFE_INTEGER := 9007199254740991.0

  function Field(v: Value, name: string): Value {
    if v.Record? && name in v.fields then v.fields[name] else Undefined
  }

  predicate IsSafeInteger(v: Value) {
    v.Number? && v.number.Floor as real == v.number && -MAX_SAFE_INTEGER <= v.number <= MAX_SAFE_INTEGER
  }

  predicate IsNonNegativeInteger(v: Value) {
    IsSafeInteger(v) && v.number >= 0.0
  }

  predicate IsEvaluation(v: Value) {
    v.Record? && Field(v, "type") in {Text("cp"), Text("mate")} && IsSafeInteger(Field(v, "value"))
  }

  predicate HasValidBound(line: Value) {
    Field(line, "evaluationBound") in {Undefined, Text("lowerbound"), Text("upperbound")}
  }

  predicate HasValidPrincipalVariation(line: Value) {
    var variation := Field(line, "principalVariation");
    variation.List? && forall i :: 0 <= i < |variation.items| ==> variation.items[i].Text?
  }

  predicate HasValidSearchCounts(line: Value) {
    && IsNonNegativeInteger(Field(line, "depth"))
    && (Field(line, "selDepth") == Undefined || IsNonNegativeInteger(Field(line, "selDepth")))
    && IsNonNegativeInteger(Field(line, "nodes"))
    && IsNonNegativeInteger(Field(line, "nps"))
    && IsNonNegativeInteger(Field(line, "timeMs"))
  }

  predicate IsAnalysisLine(line: Value, expectedMultiPv: int) {
    && line.Record?
    && Field(line, "multipv") == Number(expectedMultiPv as real)
    && IsEvaluation(Field(line, "evaluation"))
    && HasValidBound(line)
    && HasValidPrincipalVariation(line)
    && HasValidSearchCounts(line)
  }

  /** Between one and `multiPv` lines, numbered from one. */
  predicate IsAnalysisResultSet(v: Value, multiPv: int) {
    && v.List? && 0 < |v.items| <= multiPv
    && forall i :: 0 <= i < |v.items| ==> IsAnalysisLine(v.items[i], i + 1)
  }

  // ---- state

  /** What a flight is identified by; built from the analysis key, the limits and the priority class. */
  datatype Identity = Identity(text: string, multiPv: int)

  datatype Failure = EngineCancelled | Protocol | EngineError

  datatype Outcome = Results(lines: Value) | Failed(error: Failure)

  /** How far the shared promise has come. */
  datatype Phase = ReadingCache | Computing | WritingCache(lines: Value) | Settled(outcome: Outcome)

  /** What runs when the promise settles, in order of registration. */
  datatype Reaction = Cleanup | Notify(consumer: nat)

  datatype Flight = Flight(identity: Identity, aborted: bool, phase: Phase, consumers: int, settled: bool,
                           reactions: seq<Reaction>, ran: nat)

  /** What a consumer was told: its own cancellation, or the outcome of the flight. */
  datatype Told = Cancelled | Shared(outcome: Outcome)

  datatype Consumer = Consumer(flight: nat, finished: bool, told: seq<Told>)

  datatype Table = Table(inFlight: map<Identity, nat>, flights: seq<Flight>, waiting: seq<Consumer>)

  const EMPTY := Table(map[], [], [])

  function WithFlight(t: Table, f: nat, flight: Flight): Table
    requires f < |t.flights|
  {
    t.(flights := t.flights[f := flight])
  }

  /** Remove the entry of `f`, if it is still `f` that is listed. */
  function Unlist(inFlight: map<Identity, nat>, id: Identity, f: nat): map<Identity, nat> {
    if id in inFlight && inFlight[id] == f then inFlight - {id} else inFlight
  }

  predicate Indexed(t: Table) {
    && (forall c :: 0 <= c < |t.waiting| ==> t.waiting[c].flight < |t.flights|)
    && (forall id :: id in t.inFlight ==> t.inFlight[id] < |t.flights|)
    && (forall f, i ::
          0 <= f < |t.flights| && 0 <= i < |t.flights[f].reactions| && t.flights[f].reactions[i].Notify? ==>
            t.flights[f].reactions[i].consumer < |t.waiting|)
  }

  // ---- steps

  /** A new consumer takes its place in `f`: counted, queued behind the cleanup, waiting. */
  function Join(t: Table, f: nat): Table
    requires f < |t.flights|
  {
    var flight := t.flights[f];
    WithFlight(t, f, flight.(consumers := flight.consumers + 1, reactions := flight.reactions + [Notify(|t.waiting|)]))
      .(waiting := t.waiting + [Consumer(f, false, [])])
  }

  function Start(t: Table, id: Identity): Table {
    t.(flights := t.flights + [Flight(id, false, ReadingCache, 0, false, [Cleanup], 0)],
       inFlight := t.inFlight[id := |t.flights|])
  }

  /** An arrival joins the listed flight of its identity or starts one. */
  function Arrive(t: Table, id: Identity): Table
    requires Indexed(t)
  {
    if id in t.inFlight then Join(t, t.inFlight[id]) else Join(Start(t, id), |t.flights|)
  }

  /** Finish a consumer, telling it `told`, unless it has finished before. */
  function Release(t: Table, c: nat, told: Told): Table
    requires c < |t.waiting| && t.waiting[c].flight < |t.flights|
  {
    var consumer := t.waiting[c];
    if consumer.finished then t
    else
      var flight := t.flights[consumer.flight];
      WithFlight(t, consumer.flight, flight.(consumers := flight.consumers - 1))
        .(waiting := t.waiting[c := consumer.(finished := true, told := consumer.told + [told])])
  }

  /** Abort a flight nobody waits for, and stop listing it, unless it has been cleaned up. */
  function AbortIfAbandoned(t: Table, f: nat): Table
    requires f < |t.flights|
  {
    var flight := t.flights[f];
    if flight.consumers != 0 || flight.settled then t
    else WithFlight(t, f, flight.(aborted := true)).(inFlight := Unlist(t.inFlight, flight.identity, f))
  }

  function Cancel(t: Table, c: nat): Table
    requires c < |t.waiting| && t.waiting[c].flight < |t.flights|
  {
    if t.waiting[c].finished then t else AbortIfAbandoned(Release(t, c, Cancelled), t.waiting[c].flight)
  }

  function CleanUp(t: Table, f: nat): Table
    requires f < |t.flights|
  {
    var flight := t.flights[f];
    WithFlight(t, f, flight.(settled := true)).(inFlight := Unlist(t.inFlight, flight.identity, f))
  }

  /** Run the next reaction of a settled flight. */
  function React(t: Table, f: nat): Table
    requires Indexed(t) && CanReact(t, f)
  {
    var flight := t.flights[f];
    var t' := WithFlight(t, f, flight.(ran := flight.ran + 1));
    match flight.reactions[flight.ran]
    case Cleanup => CleanUp(t', f)
    case Notify(c) => Release(t', c, Shared(flight.phase.outcome))
  }

  predicate CanReact(t: Table, f: nat) {
    f < |t.flights| && t.flights[f].phase.Settled? && t.flights[f].ran < |t.flights[f].reactions|
  }

  /** The cache answers: an aborted flight ends, a valid cached result ends it too, anything else computes. */
  function AfterCacheRead(flight: Flight, cached: Option<Value>): Phase {
    if flight.aborted then Settled(Failed(EngineCancelled))
    else if cached.Some? && IsAnalysisResultSet(cached.value, flight.identity.multiPv)
        then Settled(Results(cached.value))
    else Computing
  }

  function AfterEngine(flight: Flight, outcome: Outcome): Phase {
    match outcome
    case Failed(_) => Settled(outcome)
    case Results(lines) =>
      if IsAnalysisResultSet(lines, flight.identity.multiPv) then WritingCache(lines) else Settled(Failed(Protocol))
  }

  datatype Event =
    | Arrival(id: Identity)
    | ArrivalAborted(id: Identity)  // the signal is found aborted once joined
    | Abort(consumer: nat)
    | CacheRead(flight: nat, cached: Option<Value>)
    | EngineDone(flight: nat, outcome: Outcome)
    | CacheWritten(flight: nat)
    | RunReaction(flight: nat)

  predicate InPhase(t: Table, f: nat, e: Event) {
    f < |t.flights| &&
    match e
    case CacheRead(_, _) => t.flights[f].phase.ReadingCache?
    case EngineDone(_, _) => t.flights[f].phase.Computing?
    case CacheWritten(_) => t.flights[f].phase.WritingCache?
    case _ => false
  }

  predicate Enabled(t: Table, e: Event) {
    match e
    case Arrival(_) => true
    case ArrivalAborted(_) => true
    case Abort(c) => c < |t.waiting|
    case CacheRead(f, _) => InPhase(t, f, e)
    case EngineDone(f, _) => InPhase(t, f, e)
    case CacheWritten(f) => InPhase(t, f, e)
    case RunReaction(f) => CanReact(t, f)
  }

  function Next(t: Table, e: Event): Table
    requires Indexed(t) && Enabled(t, e)
  {
    match e
    case Arrival(id) => Arrive(t, id)
    case ArrivalAborted(id) =>
      var t' := Arrive(t, id);
      Cancel(t', |t.waiting|)
    case Abort(c) => Cancel(t, c)
    case CacheRead(f, cached) => WithFlight(t, f, t.flights[f].(phase := AfterCacheRead(t.flights[f], cached)))
    case EngineDone(f, outcome) => WithFlight(t, f, t.flights[f].(phase := AfterEngine(t.flights[f], outcome)))
    case CacheWritten(f) => WithFlight(t, f, t.flights[f].(phase := Settled(Results(t.flights[f].phase.lines))))
    case RunReaction(f) => React(t, f)
  }

  // ---- the invariant

  /** How many consumers of `f` are still waiting. */
  function Waiting(cs: seq<Consumer>, f: nat): nat {
    if cs == [] then 0
    else
      var c := cs[|cs| - 1];
      Waiting(cs[..|cs| - 1], f) + if c.flight == f && !c.finished then 1 else 0
  }

  /** Cleanup is registered first; the callbacks after it belong to consumers of this flight. */
  predicate QueueFits(t: Table, f: nat)
    requires f < |t.flights|
  {
    var flight := t.flights[f];
    && |flight.reactions| >= 1 && flight.reactions[0] == Cleanup
    && flight.ran <= |flight.reactions|
    && (flight.settled <==> flight.ran > 0)
    && (flight.ran > 0 ==> flight.phase.Settled?)
    && forall i :: 1 <= i < |flight.reactions| ==>
         && flight.reactions[i].Notify? && flight.reactions[i].consumer < |t.waiting|
         && t.waiting[flight.reactions[i].consumer].flight == f
  }

  /** Listed exactly while neither aborted nor cleaned up; aborted only when nobody is left. */
  predicate FlightFits(t: Table, f: nat)
    requires f < |t.flights|
  {
    var flight := t.flights[f];
    && flight.consumers == Waiting(t.waiting, f)
    && (flight.identity in t.inFlight && t.inFlight[flight.identity] == f <==> !flight.aborted && !flight.settled)
    && (flight.phase.WritingCache? ==> IsAnalysisResultSet(flight.phase.lines, flight.identity.multiPv))
    && (flight.phase.Settled? && flight.phase.outcome.Results? ==>
          IsAnalysisResultSet(flight.phase.outcome.lines, flight.identity.multiPv))
  }

  /** Told once when finished, never before; told the shared outcome only after the cleanup, and not by
      an aborted flight; unfinished only while its callback is still to come. */
  predicate ConsumerFits(t: Table, c: nat)
    requires c < |t.waiting|
  {
    var consumer := t.waiting[c];
    consumer.flight < |t.flights| &&
    var flight := t.flights[consumer.flight];
    && |consumer.told| == (if consumer.finished then 1 else 0)
    && (consumer.finished && consumer.told[0].Shared? ==>
          flight.settled && !flight.aborted && flight.phase == Settled(consumer.told[0].outcome))
    && (flight.aborted ==> consumer.finished)
    && (!consumer.finished ==>
          exists i :: 0 <= i < |flight.reactions| && flight.ran <= i && flight.reactions[i] == Notify(c))
  }

  ghost predicate Inv(t: Table) {
    && (forall id :: id in t.inFlight ==> t.inFlight[id] < |t.flights| && t.flights[t.inFlight[id]].identity == id)
    && (forall f :: 0 <= f < |t.flights| ==> QueueFits(t, f) && FlightFits(t, f))
    && (forall c :: 0 <= c < |t.waiting| ==> ConsumerFits(t, c))
  }

  lemma InvIndexed(t: Table)
    requires Inv(t)
    ensures Indexed(t)
  {
    forall f, i | 0 <= f < |t.flights| && 0 <= i < |t.flights[f].reactions| && t.flights[f].reactions[i].Notify?
      ensures t.flights[f].reactions[i].consumer < |t.waiting|
    {
      assert QueueFits(t, f);
    }
    forall c | 0 <= c < |t.waiting|
      ensures t.waiting[c].flight < |t.flights|
    {
      assert ConsumerFits(t, c);
    }
  }

  // ---- counting

  lemma {:induction false} FinishCounts(cs: seq<Consumer>, c: nat, told: Told, f: nat)
    requires c < |cs| && !cs[c].finished
    ensures Waiting(cs[c := cs[c].(finished := true, told := cs[c].told + [told])], f)
            == Waiting(cs, f) - if cs[c].flight == f then 1 else 0
  {
    var n := |cs| - 1;
    var cs' := cs[c := cs[c].(finished := true, told := cs[c].told + [told])];
    if c < n {
      assert cs'[..n] == cs[..n][c := cs'[c]];
      FinishCounts(cs[..n], c, told, f);
    } else {
      assert cs'[..n] == cs[..n];
    }
  }

  lemma JoinCounts(cs: seq<Consumer>, c: Consumer, f: nat)
    ensures Waiting(cs + [c], f) == Waiting(cs, f) + if c.flight == f && !c.finished then 1 else 0
  {
    assert (cs + [c])[..|cs|] == cs;
  }

  lemma {:induction false} NoneWaiting(cs: seq<Consumer>, f: nat, c: nat)
    requires Waiting(cs, f) == 0 && c < |cs| && cs[c].flight == f
    ensures cs[c].finished
  {
    var n := |cs| - 1;
    if c < n {
      NoneWaiting(cs[..n], f, c);
    }
  }

  lemma {:induction false} NobodyYet(cs: seq<Consumer>, f: nat)
    requires forall c :: 0 <= c < |cs| ==> cs[c].flight != f
    ensures Waiting(cs, f) == 0
  {
    if cs != [] {
      NobodyYet(cs[..|cs| - 1], f);
    }
  }

  // ---- every step keeps the invariant

  lemma StartKeeps(t: Table, id: Identity)
    requires Inv(t) && id !in t.inFlight
    ensures Inv(Start(t, id))
  {
    var t' := Start(t, id);
    var n := |t.flights|;
    forall c | 0 <= c < |t.waiting|
      ensures ConsumerFits(t', c)
    {
      assert ConsumerFits(t, c);
    }
    forall f | 0 <= f < |t'.flights|
      ensures QueueFits(t', f) && FlightFits(t', f)
    {
      if f < n {
        assert QueueFits(t, f) && FlightFits(t, f);
      } else {
        forall c | 0 <= c < |t.waiting|
          ensures t.waiting[c].flight != n
        {
          assert ConsumerFits(t, c);
        }
        NobodyYet(t.waiting, n);
      }
    }
  }

  lemma JoinKeeps(t: Table, f: nat)
    requires Inv(t) && f < |t.flights| && !t.flights[f].aborted
    ensures Inv(Join(t, f))
  {
    var t' := Join(t, f);
    var n := |t.waiting|;
    forall g | 0 <= g < |t'.flights|
      ensures QueueFits(t', g) && FlightFits(t', g)
    {
      assert QueueFits(t, g) && FlightFits(t, g);
      JoinCounts(t.waiting, t'.waiting[n], g);
    }
    forall c | 0 <= c < |t'.waiting|
      ensures ConsumerFits(t', c)
    {
      var g := t'.waiting[c].flight;
      if c < n {
        assert ConsumerFits(t, c);
        if !t.waiting[c].finished {
          var i :| 0 <= i < |t.flights[g].reactions| && t.flights[g].ran <= i && t.flights[g].reactions[i] == Notify(c);
          assert t'.flights[g].reactions[i] == Notify(c);
        }
      } else {
        assert QueueFits(t, f);
        assert t'.flights[f].reactions[|t.flights[f].reactions|] == Notify(n);
      }
    }
  }

  lemma ArriveKeeps(t: Table, id: Identity)
    requires Inv(t) && Indexed(t)
    ensures Inv(Arrive(t, id))
    ensures |Arrive(t, id).waiting| == |t.waiting| + 1
    ensures |Arrive(t, id).flights| >= |t.flights|
  {
    if id in t.inFlight {
      assert FlightFits(t, t.inFlight[id]);
      JoinKeeps(t, t.inFlight[id]);
    } else {
      StartKeeps(t, id);
      JoinKeeps(Start(t, id), |t.flights|);
    }
  }

  /** Every clause but the consumer's own queue position, once `c` is finished. */
  lemma ReleaseKeeps(t: Table, c: nat, told: Told)
    requires Inv(t) && c < |t.waiting| && t.waiting[c].flight < |t.flights|
    requires told.Shared? ==>
      var flight := t.flights[t.waiting[c].flight];
          flight.settled && flight.phase == Settled(told.outcome) && !flight.aborted
    ensures Inv(Release(t, c, told))
  {
    var t' := Release(t, c, told);
    if !t.waiting[c].finished {
      forall g | 0 <= g < |t'.flights|
        ensures QueueFits(t', g) && FlightFits(t', g)
      {
        assert QueueFits(t, g) && FlightFits(t, g);
        FinishCounts(t.waiting, c, told, g);
      }
      forall d | 0 <= d < |t'.waiting|
        ensures ConsumerFits(t', d)
      {
        assert ConsumerFits(t, d);
        var g := t.waiting[d].flight;
        if !t'.waiting[d].finished {
          var i :| 0 <= i < |t.flights[g].reactions| && t.flights[g].ran <= i && t.flights[g].reactions[i] == Notify(d);
          assert t'.flights[g].reactions[i] == Notify(d);
        }
      }
    }
  }

  lemma UnlistFits(t: Table, f: nat, g: nat)
    requires Inv(t) && f < |t.flights| && g < |t.flights| && f != g
    ensures var m := Unlist(t.inFlight, t.flights[f].identity, f); var id := t.flights[g].identity;
            (id in m && m[id] == g) <==> (id in t.inFlight && t.inFlight[id] == g)
  {
  }

  lemma AbandonKeeps(t: Table, f: nat)
    requires Inv(t) && f < |t.flights|
    requires forall c :: 0 <= c < |t.waiting| && t.waiting[c].flight == f && t.waiting[c].finished ==>
             t.waiting[c].told == [Cancelled] || t.flights[f].settled
    ensures Inv(AbortIfAbandoned(t, f))
  {
    var t' := AbortIfAbandoned(t, f);
    if t.flights[f].consumers == 0 && !t.flights[f].settled {
      forall g | 0 <= g < |t'.flights|
        ensures QueueFits(t', g) && FlightFits(t', g)
      {
        assert QueueFits(t, g) && FlightFits(t, g);
        if g != f { UnlistFits(t, f, g); }
      }
      forall c | 0 <= c < |t'.waiting|
        ensures ConsumerFits(t', c)
      {
        assert ConsumerFits(t, c) && FlightFits(t, f);
        if t.waiting[c].flight == f {
          NoneWaiting(t.waiting, f, c);
        }
      }
    }
  }

  lemma CancelKeeps(t: Table, c: nat)
    requires Inv(t) && c < |t.waiting| && t.waiting[c].flight < |t.flights|
    ensures Inv(Cancel(t, c))
  {
    if !t.waiting[c].finished {
      var t' := Release(t, c, Cancelled);
      var f := t.waiting[c].flight;
      ReleaseKeeps(t, c, Cancelled);
      forall d | 0 <= d < |t'.waiting| && t'.waiting[d].flight == f && t'.waiting[d].finished
        ensures t'.waiting[d].told == [Cancelled] || t'.flights[f].settled
      {
        assert ConsumerFits(t', d);
        assert t'.waiting[d].told[0].Shared? || t'.waiting[d].told == [Cancelled];
      }
      AbandonKeeps(t', f);
    }
  }

  lemma PhaseKeeps(t: Table, f: nat, phase: Phase)
    requires Inv(t) && f < |t.flights| && !t.flights[f].phase.Settled?
    requires phase.WritingCache? ==> IsAnalysisResultSet(phase.lines, t.flights[f].identity.multiPv)
    requires phase.Settled? && phase.outcome.Results? ==>
               IsAnalysisResultSet(phase.outcome.lines, t.flights[f].identity.multiPv)
    ensures Inv(WithFlight(t, f, t.flights[f].(phase := phase)))
  {
    var t' := WithFlight(t, f, t.flights[f].(phase := phase));
    forall g | 0 <= g < |t'.flights|
      ensures QueueFits(t', g) && FlightFits(t', g)
    {
      assert QueueFits(t, g) && FlightFits(t, g);
    }
    forall c | 0 <= c < |t'.waiting|
      ensures ConsumerFits(t', c)
    {
      assert ConsumerFits(t, c) && QueueFits(t, f);
    }
  }

  lemma CleanUpKeeps(t: Table, f: nat)
    requires Inv(t) && Indexed(t) && CanReact(t, f) && t.flights[f].ran == 0
    ensures Inv(React(t, f))
  {
    assert QueueFits(t, f);
    var t' := React(t, f);
    forall g | 0 <= g < |t'.flights|
      ensures QueueFits(t', g) && FlightFits(t', g)
    {
      assert QueueFits(t, g) && FlightFits(t, g);
      if g != f { UnlistFits(t, f, g); }
    }
    forall c | 0 <= c < |t'.waiting|
      ensures ConsumerFits(t', c)
    {
      assert ConsumerFits(t, c) && QueueFits(t, f);
    }
  }

  lemma NotifyQueues(t: Table, f: nat, g: nat)
    requires Inv(t) && Indexed(t) && CanReact(t, f) && t.flights[f].ran > 0 && g < |t.flights|
    ensures |React(t, f).flights| == |t.flights| && QueueFits(React(t, f), g)
  {
    assert QueueFits(t, f) && QueueFits(t, g);
  }

  lemma NotifyFlights(t: Table, f: nat, g: nat)
    requires Inv(t) && Indexed(t) && CanReact(t, f) && t.flights[f].ran > 0 && g < |t.flights|
    ensures |React(t, f).flights| == |t.flights| && FlightFits(React(t, f), g)
  {
    assert QueueFits(t, f) && FlightFits(t, g);
    var c := t.flights[f].reactions[t.flights[f].ran].consumer;
    if !t.waiting[c].finished {
      FinishCounts(t.waiting, c, Shared(t.flights[f].phase.outcome), g);
    }
  }

  lemma NotifyConsumer(t: Table, f: nat, d: nat)
    requires Inv(t) && Indexed(t) && CanReact(t, f) && t.flights[f].ran > 0 && d < |t.waiting|
    ensures |React(t, f).waiting| == |t.waiting|
    ensures ConsumerFits(React(t, f), d)
  {
    assert QueueFits(t, f) && ConsumerFits(t, d);
    var t' := React(t, f);
    var g := t.waiting[d].flight;
    if !t'.waiting[d].finished {
      var i :| 0 <= i < |t.flights[g].reactions| && t.flights[g].ran <= i && t.flights[g].reactions[i] == Notify(d);
      assert t'.flights[g].reactions[i] == Notify(d);
    }
  }

  lemma NotifyKeeps(t: Table, f: nat)
    requires Inv(t) && Indexed(t) && CanReact(t, f) && t.flights[f].ran > 0
    ensures Inv(React(t, f))
  {
    NotifyFlights(t, f, f);
    var t' := React(t, f);
    forall g | 0 <= g < |t.flights|
      ensures QueueFits(t', g) && FlightFits(t', g)
    {
      NotifyQueues(t, f, g);
      NotifyFlights(t, f, g);
    }
    forall d | 0 <= d < |t'.waiting|
      ensures ConsumerFits(t', d)
    {
      assert |t'.waiting| == |t.waiting| by { assert QueueFits(t, f); }
      NotifyConsumer(t, f, d);
    }
    assert t'.inFlight == t.inFlight by { assert QueueFits(t, f); }
  }

  /** Every step any interleaving can take keeps the invariant. */
  lemma NextKeeps(t: Table, e: Event)
    requires Inv(t) && Indexed(t) && Enabled(t, e)
    ensures Inv(Next(t, e))
  {
    match e
    case Arrival(id) => ArriveKeeps(t, id);
    case ArrivalAborted(id) =>
      ArriveKeeps(t, id);
      CancelKeeps(Arrive(t, id), |t.waiting|);
    case Abort(c) => CancelKeeps(t, c);
    case CacheRead(f, cached) => PhaseKeeps(t, f, AfterCacheRead(t.flights[f], cached));
    case EngineDone(f, outcome) => PhaseKeeps(t, f, AfterEngine(t.flights[f], outcome));
    case CacheWritten(f) =>
      assert FlightFits(t, f);
      PhaseKeeps(t, f, Settled(Results(t.flights[f].phase.lines)));
    case RunReaction(f) =>
      assert QueueFits(t, f);
      if t.flights[f].ran == 0 { CleanUpKeeps(t, f); } else { NotifyKeeps(t, f); }
  }

  // ---- runs

  /** `ts` are the successive states of a run from the empty table by the events `es`. */
  ghost predicate Run(ts: seq<Table>, es: seq<Event>) {
    && |ts| == |es| + 1 && ts[0] == EMPTY
    && forall i {:trigger es[i]} :: 0 <= i < |es| ==>
       Indexed(ts[i]) && Enabled(ts[i], es[i]) && ts[i + 1] == Next(ts[i], es[i])
  }

  lemma {:induction false} RunKeeps(ts: seq<Table>, es: seq<Event>, i: nat)
    requires Run(ts, es) && i < |ts|
    ensures Inv(ts[i]) && Indexed(ts[i])
  {
    if i > 0 {
      RunKeeps(ts, es, i - 1);
      NextKeeps(ts[i - 1], es[i - 1]);
    }
    InvIndexed(ts[i]);
  }

  /** In every reachable state at most one live flight exists per identity, and exactly the live flights
      can be joined. */
  lemma OneLiveFlight(ts: seq<Table>, es: seq<Event>, i: nat, f: nat, g: nat)
    requires Run(ts, es) && i < |ts| && f < |ts[i].flights| && g < |ts[i].flights|
    requires ts[i].flights[f].identity == ts[i].flights[g].identity
    requires !ts[i].flights[f].aborted && !ts[i].flights[f].settled
    requires !ts[i].flights[g].aborted && !ts[i].flights[g].settled
    ensures f == g && ts[i].flights[f].identity in ts[i].inFlight && ts[i].inFlight[ts[i].flights[f].identity] == f
  {
    RunKeeps(ts, es, i);
    assert FlightFits(ts[i], f) && FlightFits(ts[i], g);
  }

  /** In every reachable state a listed flight is not aborted, and each flight's counter is the number of
      its consumers still waiting. */
  lemma CountersAreExact(ts: seq<Table>, es: seq<Event>, i: nat, f: nat)
    requires Run(ts, es) && i < |ts| && f < |ts[i].flights|
    ensures ts[i].flights[f].consumers == Waiting(ts[i].waiting, f)
    ensures (exists id :: id in ts[i].inFlight && ts[i].inFlight[id] == f) ==> !ts[i].flights[f].aborted
  {
    RunKeeps(ts, es, i);
    assert FlightFits(ts[i], f);
  }

  /** A consumer is told at most once over the whole run, and what it was told never changes. */
  lemma {:induction false} ToldOnce(ts: seq<Table>, es: seq<Event>, i: nat, j: nat, c: nat)
    requires Run(ts, es) && i <= j < |ts| && c < |ts[i].waiting|
    ensures |ts[i].waiting| <= |ts[j].waiting|
    ensures |ts[j].waiting[c].told| <= 1 && ts[i].waiting[c].told <= ts[j].waiting[c].told
    ensures ts[j].waiting[c].flight == ts[i].waiting[c].flight
  {
    if i < j {
      ToldOnce(ts, es, i, j - 1, c);
      ToldStep(ts, es, j - 1, c);
    }
    ToldAtMostOnce(ts, es, j, c);
  }

  lemma ToldAtMostOnce(ts: seq<Table>, es: seq<Event>, i: nat, c: nat)
    requires Run(ts, es) && i < |ts| && c < |ts[i].waiting|
    ensures |ts[i].waiting[c].told| <= 1
  {
    RunKeeps(ts, es, i);
    assert ConsumerFits(ts[i], c);
  }

  lemma ToldStep(ts: seq<Table>, es: seq<Event>, i: nat, c: nat)
    requires Run(ts, es) && i + 1 < |ts| && c < |ts[i].waiting|
    ensures |ts[i].waiting| <= |ts[i + 1].waiting|
    ensures ts[i].waiting[c].told <= ts[i + 1].waiting[c].told && ts[i + 1].waiting[c].flight == ts[i].waiting[c].flight
  {
    RunKeeps(ts, es, i);
    ToldGrows(ts[i], es[i], c);
  }

  lemma ToldGrows(t: Table, e: Event, c: nat)
    requires Inv(t) && Indexed(t) && Enabled(t, e) && c < |t.waiting|
    ensures |t.waiting| <= |Next(t, e).waiting|
    ensures t.waiting[c].told <= Next(t, e).waiting[c].told && Next(t, e).waiting[c].flight == t.waiting[c].flight
  {
    if e.ArrivalAborted? {
      ArriveKeeps(t, e.id);
    }
  }

  /** A flight is aborted only once every consumer that ever joins it has cancelled: none of them is
      told a shared outcome, then or later. */
  lemma AbortedMeansCancelled(ts: seq<Table>, es: seq<Event>, i: nat, j: nat, c: nat)
    requires Run(ts, es) && i < |ts| && j < |ts| && c < |ts[i].waiting| && c < |ts[j].waiting|
    requires ts[i].waiting[c].flight < |ts[i].flights| && ts[i].flights[ts[i].waiting[c].flight].aborted
    ensures ts[i].waiting[c].told == [Cancelled]
    ensures i <= j ==> ts[j].waiting[c].told == [Cancelled]
  {
    RunKeeps(ts, es, i);
    assert ConsumerFits(ts[i], c);
    if i <= j {
      ToldOnce(ts, es, i, j, c);
    }
  }

  /** No one joins an aborted flight: after the abort its consumers are those it had. */
  lemma AbortedIsClosed(t: Table, e: Event, c: nat)
    requires Inv(t) && Indexed(t) && Enabled(t, e)
    requires |t.waiting| <= c < |Next(t, e).waiting|
    ensures var f := Next(t, e).waiting[c].flight; f < |t.flights| ==> !t.flights[f].aborted && !t.flights[f].settled
  {
    if e.Arrival? || e.ArrivalAborted? {
      ArriveKeeps(t, e.id);
      if e.id in t.inFlight {
        assert FlightFits(t, t.inFlight[e.id]);
      }
    }
  }

  /** A cleanup, stale or not, removes no listing but its own flight's. */
  lemma CleanupSparesOthers(t: Table, f: nat, id: Identity)
    requires Inv(t) && Indexed(t) && CanReact(t, f) && id in t.inFlight && t.inFlight[id] != f
    ensures id in React(t, f).inFlight && React(t, f).inFlight[id] == t.inFlight[id]
  {
  }

  /** Once a flight has settled and its reactions have run, it is unlisted and each of its consumers has
      been told exactly once: its own cancellation, or what the flight came to. */
  lemma QuiescentFlight(ts: seq<Table>, es: seq<Event>, i: nat, c: nat)
    requires Run(ts, es) && i < |ts| && c < |ts[i].waiting| && ts[i].waiting[c].flight < |ts[i].flights|
    requires var flight := ts[i].flights[ts[i].waiting[c].flight];
             flight.phase.Settled? && flight.ran == |flight.reactions|
    ensures var f := ts[i].waiting[c].flight; var flight := ts[i].flights[f];
            && (flight.identity in ts[i].inFlight ==> ts[i].inFlight[flight.identity] != f)
            && (ts[i].waiting[c].told == [Cancelled] || ts[i].waiting[c].told == [Shared(flight.phase.outcome)])
  {
    RunKeeps(ts, es, i);
    var f := ts[i].waiting[c].flight;
    assert ConsumerFits(ts[i], c) && QueueFits(ts[i], f) && FlightFits(ts[i], f);
  }

  /** Whatever results a consumer is handed, cached or computed, are a well-formed set for its request. */
  lemma ToldResultsAreValid(ts: seq<Table>, es: seq<Event>, i: nat, c: nat, lines: Value)
    requires Run(ts, es) && i < |ts| && c < |ts[i].waiting| && ts[i].waiting[c].told == [Shared(Results(lines))]
    ensures ts[i].waiting[c].flight < |ts[i].flights|
    ensures IsAnalysisResultSet(lines, ts[i].flights[ts[i].waiting[c].flight].identity.multiPv)
  {
    RunKeeps(ts, es, i);
    assert ConsumerFits(ts[i], c);
    assert FlightFits(ts[i], ts[i].waiting[c].flight);
  }

  // ---- the race the cleanup guards against

  /** A lone consumer arrives and cancels, a second one starts a new flight, and only then does the
      abandoned flight settle and its cleanup run. */
  function RaceEvents(id: Identity): seq<Event> {
    [Arrival(id), Abort(0), Arrival(id), CacheRead(0, None), RunReaction(0)]
  }

  function RaceStates(id: Identity): seq<Table> {
    var queue0, queue1 := [Cleanup, Notify(0)], [Cleanup, Notify(1)];
    var gone := Consumer(0, true, [Cancelled]);
    var ended := Settled(Failed(EngineCancelled));
    var newer := Flight(id, false, ReadingCache, 1, false, queue1, 0);
    [EMPTY,
     Table(map[id := 0], [Flight(id, false, ReadingCache, 1, false, queue0, 0)], [Consumer(0, false, [])]),
     Table(map[], [Flight(id, true, ReadingCache, 0, false, queue0, 0)], [gone]),
     Table(map[id := 1], [Flight(id, true, ReadingCache, 0, false, queue0, 0), newer], [gone, Consumer(1, false, [])]),
     Table(map[id := 1], [Flight(id, true, ended, 0, false, queue0, 0), newer], [gone, Consumer(1, false, [])]),
     Table(map[id := 1], [Flight(id, true, ended, 0, true, queue0, 1), newer], [gone, Consumer(1, false, [])])]
  }

  lemma SameTables(t: Table, u: Table)
    requires t.inFlight == u.inFlight && t.flights == u.flights && t.waiting == u.waiting
    ensures t == u
  {
  }

  ghost predicate StepsTo(t: Table, e: Event, u: Table) {
    Indexed(t) && Enabled(t, e) && Next(t, e) == u
  }

  lemma RaceStarts(id: Identity)
    ensures var ts, es := RaceStates(id), RaceEvents(id); StepsTo(ts[0], es[0], ts[1]) && StepsTo(ts[1], es[1], ts[2])
  {
    var ts, es := RaceStates(id), RaceEvents(id);
    assert [Cleanup] + [Notify(0)] == [Cleanup, Notify(0)];
    assert [] + [Cancelled] == [Cancelled];
    SameTables(Next(ts[0], es[0]), ts[1]);
    SameTables(Next(ts[1], es[1]), ts[2]);
  }

  lemma RaceRestarts(id: Identity)
    ensures var ts, es := RaceStates(id), RaceEvents(id); StepsTo(ts[2], es[2], ts[3]) && StepsTo(ts[3], es[3], ts[4])
  {
    var ts, es := RaceStates(id), RaceEvents(id);
    assert [Cleanup] + [Notify(1)] == [Cleanup, Notify(1)];
    SameTables(Next(ts[2], es[2]), ts[3]);
  }

  lemma RaceEnds(id: Identity)
    ensures var ts, es := RaceStates(id), RaceEvents(id); StepsTo(ts[4], es[4], ts[5])
  {
  }

  /** The stale cleanup does happen, and leaves the newer flight of the same identity listed. */
  lemma StaleCleanupIsReachable(id: Identity)
    ensures Run(RaceStates(id), RaceEvents(id))
    ensures var last := RaceStates(id)[5];
            last.flights[0].aborted && last.flights[0].settled && last.inFlight == map[id := 1]
  {
    RaceStarts(id);
    RaceRestarts(id);
    RaceEnds(id);
    var ts, es := RaceStates(id), RaceEvents(id);
    forall i | 0 <= i < |es| ensures StepsTo(ts[i], es[i], ts[i + 1]) {
      assert i == 0 || i == 1 || i == 2 || i == 3 || i == 4;
    }
  }

  // ---- the class

  class AnalysisOrchestrator {
    var inFlight: map<Identity, nat>
    var flights: seq<Flight>
    var waiting: seq<Consumer>

    ghost function State(): Table
      reads this
    {
      Table(inFlight, flights, waiting)
    }

    ghost predicate Valid()
      reads this
    {
      Inv(State()) && Indexed(State())
    }

    constructor ()
      ensures State() == EMPTY && Valid()
    {
      inFlight, flights, waiting := map[], [], [];
    }

    /** `None` when the signal is aborted on arrival: the caller is refused and nothing is touched. */
    method Analyze(id: Identity, aborted: bool, abortedOnceJoined: bool) returns (consumer: Option<nat>)
      requires Valid()
      modifies this
      ensures Valid()
      ensures if aborted then consumer == None && State() == old(State())
              else consumer == Some(old(|waiting|)) &&
                   State() == Next(old(State()), if abortedOnceJoined then ArrivalAborted(id) else Arrival(id))
    {
      if aborted {
        return None;
      }
      ghost var t := State();
      NextKeeps(t, if abortedOnceJoined then ArrivalAborted(id) else Arrival(id));
      consumer := Some(|waiting|);
      if id in inFlight {
        JoinFlight(inFlight[id]);
      } else {
        var flight := StartFlight(id);
        JoinFlight(flight);
      }
      assert State() == Arrive(t, id);
      if abortedOnceJoined {
        CancelConsumer(|waiting| - 1);
      }
      InvIndexed(State());
    }

    /** A new flight is listed, and its cleanup registered before any consumer. */
    method StartFlight(id: Identity) returns (flight: nat)
      modifies this
      ensures flight == old(|flights|) && State() == Start(old(State()), id)
    {
      flight := |flights|;
      flights := flights + [Flight(id, false, ReadingCache, 0, false, [Cleanup], 0)];
      inFlight := inFlight[id := flight];
    }

    method JoinFlight(flight: nat)
      requires flight < |flights|
      modifies this
      ensures State() == Join(old(State()), flight)
    {
      flights := flights[flight := flights[flight].(consumers := flights[flight].consumers + 1,
                                                    reactions := flights[flight].reactions + [Notify(|waiting|)])];
      waiting := waiting + [Consumer(flight, false, [])];
    }

    method ReleaseConsumer(c: nat, told: Told) returns (released: bool)
      requires c < |waiting| && waiting[c].flight < |flights|
      modifies this
      ensures State() == Release(old(State()), c, told) && released == !old(waiting[c].finished)
    {
      var consumer := waiting[c];
      if consumer.finished {
        return false;
      }
      waiting := waiting[c := consumer.(finished := true, told := consumer.told + [told])];
      var f := consumer.flight;
      flights := flights[f := flights[f].(consumers := flights[f].consumers - 1)];
      released := true;
    }

    method CancelConsumer(c: nat)
      requires c < |waiting| && waiting[c].flight < |flights|
      modifies this
      ensures State() == Cancel(old(State()), c)
    {
      var released := ReleaseConsumer(c, Cancelled);
      if !released {
        return;
      }
      AbortFlightIfAbandoned(waiting[c].flight);
    }

    method AbortFlightIfAbandoned(f: nat)
      requires f < |flights|
      modifies this
      ensures State() == AbortIfAbandoned(old(State()), f)
    {
      if flights[f].consumers != 0 || flights[f].settled {
        return;
      }
      var id := flights[f].identity;
      if id in inFlight && inFlight[id] == f {
        inFlight := inFlight - {id};
      }
      flights := flights[f := flights[f].(aborted := true)];
    }

    method CleanUpFlight(f: nat)
      requires f < |flights|
      modifies this
      ensures State() == CleanUp(old(State()), f)
    {
      flights := flights[f := flights[f].(settled := true)];
      var id := flights[f].identity;
      if id in inFlight && inFlight[id] == f {
        inFlight := inFlight - {id};
      }
    }

    /** The next callback of a settled flight: its cleanup first, then its consumers in joining order. */
    method RunNextReaction(f: nat)
      requires Valid() && CanReact(State(), f)
      modifies this
      ensures Valid() && State() == Next(old(State()), RunReaction(f))
    {
      ghost var t := State();
      NextKeeps(t, RunReaction(f));
      var reaction := flights[f].reactions[flights[f].ran];
      flights := flights[f := flights[f].(ran := flights[f].ran + 1)];
      match reaction {
        case Cleanup => CleanUpFlight(f);
        case Notify(c) =>
          var released := ReleaseConsumer(c, Shared(flights[f].phase.outcome));
      }
      assert State() == React(t, f);
      InvIndexed(State());
    }

    /** The cache has answered: an aborted flight ends, a well-formed value ends it too, anything else computes. */
    method CacheAnswered(f: nat, cached: Option<Value>)
      requires Valid() && Enabled(State(), CacheRead(f, cached))
      modifies this
      ensures Valid() && State() == Next(old(State()), CacheRead(f, cached))
    {
      ghost var t := State();
      NextKeeps(t, CacheRead(f, cached));
      var phase := Computing;
      if flights[f].aborted {
        phase := Settled(Failed(EngineCancelled));
      } else if cached.Some? {
        var wellFormed := CheckResultSet(cached.value, flights[f].identity.multiPv);
        if wellFormed {
          phase := Settled(Results(cached.value));
        }
      }
      flights := flights[f := flights[f].(phase := phase)];
      assert State() == Next(t, CacheRead(f, cached));
      InvIndexed(State());
    }

    /** The engine is done: its failure is passed on, and its lines are checked before they go to the cache. */
    method EngineAnswered(f: nat, outcome: Outcome)
      requires Valid() && Enabled(State(), EngineDone(f, outcome))
      modifies this
      ensures Valid() && State() == Next(old(State()), EngineDone(f, outcome))
    {
      ghost var t := State();
      NextKeeps(t, EngineDone(f, outcome));
      var phase := Settled(outcome);
      if outcome.Results? {
        var wellFormed := CheckResultSet(outcome.lines, flights[f].identity.multiPv);
        phase := if wellFormed then WritingCache(outcome.lines) else Settled(Failed(Protocol));
      }
      flights := flights[f := flights[f].(phase := phase)];
      assert State() == Next(t, EngineDone(f, outcome));
      InvIndexed(State());
    }

    /** The cache has taken the lines, or failed to: they are the flight's results either way. */
    method CacheStored(f: nat)
      requires Valid() && Enabled(State(), CacheWritten(f))
      modifies this
      ensures Valid() && State() == Next(old(State()), CacheWritten(f))
    {
      ghost var t := State();
      NextKeeps(t, CacheWritten(f));
      flights := flights[f := flights[f].(phase := Settled(Results(flights[f].phase.lines)))];
      assert State() == Next(t, CacheWritten(f));
      InvIndexed(State());
    }

    /** Every line in turn is numbered and formed as it should be. */
    method CheckResultSet(v: Value, multiPv: int) returns (r: bool)
      ensures r == IsAnalysisResultSet(v, multiPv)
    {
      if !v.List? || |v.items| == 0 || |v.items| > multiPv {
        return false;
      }
      for i := 0 to |v.items|
        invariant forall j :: 0 <= j < i ==> IsAnalysisLine(v.items[j], j + 1)
      {
        if !IsAnalysisLine(v.items[i], i + 1) {
          return false;
        }
      }
      r := true;
    }
  }
}
