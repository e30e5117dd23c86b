/** What the consumers of a flight are told, from the events of the run alone
    (packages/engine/src/analysis-orchestrator.ts). */
module Delivery {
  import opened Common
  import opened SingleFlight

  /** The event settles what the consumers of `f` will be told: a cached value that is well formed, an engine failure
      as it is, and engine lines as they are when they are well formed, and as a protocol error when not. */
  predicate Decides(e: Event, f: nat, multiPv: int, o: Outcome) {
    match e
    case CacheRead(g, cached) =>
      g == f && cached.Some? && IsAnalysisResultSet(cached.value, multiPv) && o == Results(cached.value)
    case EngineDone(g, Failed(error)) => g == f && o == Failed(error)
    case EngineDone(g, Results(lines)) =>
      g == f && o == if IsAnalysisResultSet(lines, multiPv) then Results(lines) else Failed(Protocol)
    case _ => false
  }

  predicate OfFlight(e: Event, f: nat) {
    (e.CacheRead? || e.EngineDone? || e.CacheWritten?) && e.flight == f
  }

  // ---- what is well formed

  predicate WholeNumber(v: Value, least: real) {
    v.Number? && v.number.Floor as real == v.number && least <= v.number <= 9007199254740991.0
  }

  /** A line numbered `n`: an evaluation in centipawns or moves to mate, no bound or an upper or lower one, a variation
      of texts, and counts that are whole and not negative. */
  predicate LineNumbered(f: map<string, Value>, n: int) {
    && "multipv" in f && f["multipv"] == Number(n as real)
    && "evaluation" in f && f["evaluation"].Record?
    && (var e := f["evaluation"].fields;
        && "type" in e && (e["type"] == Text("cp") || e["type"] == Text("mate"))
        && "value" in e && WholeNumber(e["value"], -9007199254740991.0))
    && ("evaluationBound" in f ==>
          f["evaluationBound"] in {Undefined, Text("lowerbound"), Text("upperbound")})
    && "principalVariation" in f && f["principalVariation"].List?
    && (forall i :: 0 <= i < |f["principalVariation"].items| ==> f["principalVariation"].items[i].Text?)
    && "depth" in f && WholeNumber(f["depth"], 0.0) && "nodes" in f && WholeNumber(f["nodes"], 0.0)
    && "nps" in f && WholeNumber(f["nps"], 0.0) && "timeMs" in f && WholeNumber(f["timeMs"], 0.0)
    && ("selDepth" in f && f["selDepth"] != Undefined ==> WholeNumber(f["selDepth"], 0.0))
  }

  lemma LinesExactly(line: Value, n: int)
    ensures IsAnalysisLine(line, n) <==> line.Record? && LineNumbered(line.fields, n)
  {
  }

  /** A result set is a list of one to `multiPv` lines, numbered from one. */
  lemma ResultSetsExactly(v: Value, multiPv: int)
    ensures IsAnalysisResultSet(v, multiPv) <==>
              && v.List? && 1 <= |v.items| <= multiPv
              && forall i :: 0 <= i < |v.items| ==> v.items[i].Record? && LineNumbered(v.items[i].fields, i + 1)
  {
    if v.List? {
      forall i | 0 <= i < |v.items|
        ensures IsAnalysisLine(v.items[i], i + 1) <==> v.items[i].Record? && LineNumbered(v.items[i].fields, i + 1)
      {
        LinesExactly(v.items[i], i + 1);
      }
    }
  }

  // ---- one step

  lemma OthersLeavePhase(t: Table, e: Event, f: nat)
    requires Inv(t) && Indexed(t) && Enabled(t, e) && f < |t.flights| && !OfFlight(e, f)
    ensures f < |Next(t, e).flights|
    ensures Next(t, e).flights[f].phase == t.flights[f].phase && Next(t, e).flights[f].identity == t.flights[f].identity
    ensures t.flights[f].aborted ==> Next(t, e).flights[f].aborted
  {
    if e.ArrivalAborted? {
      ArriveKeeps(t, e.id);
      ArrivingLeavesPhase(t, e.id, f);
    }
  }

  lemma ArrivingLeavesPhase(t: Table, id: Identity, f: nat)
    requires Indexed(t) && f < |t.flights|
    ensures f < |Arrive(t, id).flights|
    ensures var flight, now := t.flights[f], Arrive(t, id).flights[f];
            now.phase == flight.phase && now.identity == flight.identity && now.aborted == flight.aborted
  {
  }

  lemma OwnEventSetsPhase(t: Table, e: Event, f: nat)
    requires Inv(t) && Indexed(t) && Enabled(t, e) && OfFlight(e, f)
    ensures f < |t.flights| && |Next(t, e).flights| == |t.flights|
    ensures var flight, now := t.flights[f], Next(t, e).flights[f];
            && now.identity == flight.identity && now.aborted == flight.aborted
            && !flight.phase.Settled?
            && (e.CacheRead? ==> flight.phase.ReadingCache?)
            && (e.EngineDone? ==> flight.phase.Computing?)
            && (e.CacheWritten? ==> flight.phase.WritingCache? && now.phase == Settled(Results(flight.phase.lines)))
    ensures var flight, phase := t.flights[f], Next(t, e).flights[f].phase;
            e.CacheRead? ==>
              if flight.aborted then phase == Settled(Failed(EngineCancelled))
              else if e.cached.Some? && IsAnalysisResultSet(e.cached.value, flight.identity.multiPv)
                   then phase == Settled(Results(e.cached.value))
              else phase == Computing
    ensures var flight, phase := t.flights[f], Next(t, e).flights[f].phase;
            e.EngineDone? ==>
              if e.outcome.Failed? then phase == Settled(e.outcome)
              else if IsAnalysisResultSet(e.outcome.lines, flight.identity.multiPv)
                   then phase == WritingCache(e.outcome.lines)
              else phase == Settled(Failed(Protocol))
  {
  }

  lemma NewFlightsRead(t: Table, e: Event, f: nat)
    requires Inv(t) && Indexed(t) && Enabled(t, e) && |t.flights| <= f < |Next(t, e).flights|
    ensures Next(t, e).flights[f].phase == ReadingCache && !Next(t, e).flights[f].phase.Settled?
  {
    if e.ArrivalAborted? {
      ArriveKeeps(t, e.id);
    }
  }

  lemma RunAt(ts: seq<Table>, es: seq<Event>, i: nat)
    requires Run(ts, es) && i < |es|
    ensures Inv(ts[i]) && Indexed(ts[i]) && Enabled(ts[i], es[i]) && ts[i + 1] == Next(ts[i], es[i])
  {
    RunKeeps(ts, es, i);
    assert Enabled(ts[i], es[i]);
  }

  // ---- a flight stays what it is

  /** A settled phase, and an abort, stay; so does the identity. */
  lemma {:induction false} FlightStays(ts: seq<Table>, es: seq<Event>, i: nat, j: nat, f: nat)
    requires Run(ts, es) && i <= j < |ts| && f < |ts[i].flights|
    ensures f < |ts[j].flights| && ts[j].flights[f].identity == ts[i].flights[f].identity
    ensures ts[i].flights[f].aborted ==> ts[j].flights[f].aborted
    ensures ts[i].flights[f].phase.Settled? ==> ts[j].flights[f].phase == ts[i].flights[f].phase
  {
    if i < j {
      FlightStays(ts, es, i, j - 1, f);
      RunAt(ts, es, j - 1);
      if OfFlight(es[j - 1], f) {
        OwnEventSetsPhase(ts[j - 1], es[j - 1], f);
      } else {
        OthersLeavePhase(ts[j - 1], es[j - 1], f);
      }
    }
  }

  // ---- where an outcome comes from

  lemma {:induction false} WritingComesFromEngine(ts: seq<Table>, es: seq<Event>, i: nat, f: nat) returns (j: nat)
    requires Run(ts, es) && i < |ts| && f < |ts[i].flights| && ts[i].flights[f].phase.WritingCache?
    ensures j < i && f < |ts[j].flights|
    ensures Decides(es[j], f, ts[i].flights[f].identity.multiPv, Results(ts[i].flights[f].phase.lines))
  {
    RunAt(ts, es, i - 1);
    if f >= |ts[i - 1].flights| {
      NewFlightsRead(ts[i - 1], es[i - 1], f);
    } else if OfFlight(es[i - 1], f) {
      OwnEventSetsPhase(ts[i - 1], es[i - 1], f);
      j := i - 1;
    } else {
      OthersLeavePhase(ts[i - 1], es[i - 1], f);
      j := WritingComesFromEngine(ts, es, i - 1, f);
    }
  }

  /** What a flight has come to was decided by one of its events, or it was aborted when its cache answered. */
  lemma {:induction false} SettledComesFromEvent(ts: seq<Table>, es: seq<Event>, i: nat, f: nat) returns (j: nat)
    requires Run(ts, es) && i < |ts| && f < |ts[i].flights| && ts[i].flights[f].phase.Settled?
    ensures j < i && f < |ts[j].flights|
    ensures Decides(es[j], f, ts[i].flights[f].identity.multiPv, ts[i].flights[f].phase.outcome) ||
              ts[j].flights[f].aborted
  {
    RunAt(ts, es, i - 1);
    if f >= |ts[i - 1].flights| {
      NewFlightsRead(ts[i - 1], es[i - 1], f);
    } else if OfFlight(es[i - 1], f) {
      OwnEventSetsPhase(ts[i - 1], es[i - 1], f);
      if es[i - 1].CacheWritten? {
        j := WritingComesFromEngine(ts, es, i - 1, f);
      } else {
        j := i - 1;
      }
    } else {
      OthersLeavePhase(ts[i - 1], es[i - 1], f);
      j := SettledComesFromEvent(ts, es, i - 1, f);
    }
  }

  /** A consumer is told nothing but its own cancellation and what an event of its flight decided: a protocol error
      only for engine lines that are not well formed, or for an engine that failed with one. */
  lemma ToldIsDecided(ts: seq<Table>, es: seq<Event>, i: nat, c: nat, o: Outcome) returns (j: nat)
    requires Run(ts, es) && i < |ts| && c < |ts[i].waiting| && ts[i].waiting[c].told == [Shared(o)]
    ensures ts[i].waiting[c].flight < |ts[i].flights|
    ensures var f := ts[i].waiting[c].flight; j < i && Decides(es[j], f, ts[i].flights[f].identity.multiPv, o)
  {
    RunKeeps(ts, es, i);
    assert ConsumerFits(ts[i], c);
    var f := ts[i].waiting[c].flight;
    j := SettledComesFromEvent(ts, es, i, f);
    FlightStays(ts, es, j, i, f);
  }

  // ---- what is decided is told

  /** The flight's lines have been written to the cache after step `j` and before state `i`. */
  predicate WrittenBetween(es: seq<Event>, j: nat, i: nat, f: nat)
    requires i <= |es|
  {
    exists w :: j < w < i && es[w] == CacheWritten(f)
  }

  lemma WrittenOneMore(es: seq<Event>, j: nat, i: nat, f: nat)
    requires j < i - 1 < |es|
    ensures WrittenBetween(es, j, i, f) <==> WrittenBetween(es, j, i - 1, f) || es[i - 1] == CacheWritten(f)
  {
    if WrittenBetween(es, j, i, f) && es[i - 1] != CacheWritten(f) {
      var w :| j < w < i && es[w] == CacheWritten(f);
      assert w < i - 1;
    }
  }

  /** Well-formed engine lines are on their way to the cache, or settled once it is written. */
  lemma {:induction false} LinesAreKept(ts: seq<Table>, es: seq<Event>, j: nat, i: nat, f: nat, lines: Value)
    requires Run(ts, es) && j < i < |ts| && f < |ts[j].flights| && es[j] == EngineDone(f, Results(lines))
    requires IsAnalysisResultSet(lines, ts[j].flights[f].identity.multiPv)
    ensures f < |ts[i].flights|
    ensures ts[i].flights[f].phase ==
            if WrittenBetween(es, j, i, f) then Settled(Results(lines)) else WritingCache(lines)
  {
    RunAt(ts, es, i - 1);
    if j == i - 1 {
      OwnEventSetsPhase(ts[j], es[j], f);
    } else {
      LinesAreKept(ts, es, j, i - 1, f, lines);
      WrittenOneMore(es, j, i, f);
      if OfFlight(es[i - 1], f) {
        OwnEventSetsPhase(ts[i - 1], es[i - 1], f);
      } else {
        OthersLeavePhase(ts[i - 1], es[i - 1], f);
      }
    }
  }

  /** Unless the flight is aborted, the decision is what it comes to; fresh lines are written to the cache first. */
  lemma DecidedIsSettled(ts: seq<Table>, es: seq<Event>, j: nat, i: nat, f: nat, o: Outcome)
    requires Run(ts, es) && j < i < |ts| && f < |ts[j].flights|
    requires Decides(es[j], f, ts[j].flights[f].identity.multiPv, o) && !ts[j].flights[f].aborted
    requires es[j].EngineDone? && o.Results? ==> WrittenBetween(es, j, i, f)
    ensures f < |ts[i].flights| && ts[i].flights[f].phase == Settled(o)
  {
    RunAt(ts, es, j);
    OwnEventSetsPhase(ts[j], es[j], f);
    if es[j].EngineDone? && o.Results? {
      LinesAreKept(ts, es, j, i, f, o.lines);
    } else {
      FlightStays(ts, es, j + 1, i, f);
    }
  }

  lemma UncancelledMeansAlive(ts: seq<Table>, es: seq<Event>, i: nat, c: nat)
    requires Run(ts, es) && i < |ts| && c < |ts[i].waiting| && ts[i].waiting[c].told != [Cancelled]
    ensures ts[i].waiting[c].flight < |ts[i].flights| && !ts[i].flights[ts[i].waiting[c].flight].aborted
  {
    RunKeeps(ts, es, i);
    assert ConsumerFits(ts[i], c);
    var told := ts[i].waiting[c].told;
    assert |told| == 1 ==> told == [told[0]];
  }

  /** Once an event has decided, fresh lines have been written to the cache, and no reaction of the flight is left to
      run, every consumer that has not cancelled has been told exactly what was decided. */
  lemma DecidedIsTold(ts: seq<Table>, es: seq<Event>, j: nat, i: nat, c: nat, o: Outcome)
    requires Run(ts, es) && j < i < |ts| && c < |ts[i].waiting| && ts[i].waiting[c].flight < |ts[j].flights|
    requires var f := ts[i].waiting[c].flight;
             && Decides(es[j], f, ts[j].flights[f].identity.multiPv, o)
             && (es[j].EngineDone? && o.Results? ==> WrittenBetween(es, j, i, f))
             && !Enabled(ts[i], RunReaction(f))
    ensures ts[i].waiting[c].told == [Cancelled] || ts[i].waiting[c].told == [Shared(o)]
  {
    var f := ts[i].waiting[c].flight;
    if ts[i].waiting[c].told != [Cancelled] {
      UncancelledMeansAlive(ts, es, i, c);
      FlightStays(ts, es, j, i, f);
      DecidedIsSettled(ts, es, j, i, f, o);
      RunKeeps(ts, es, i);
      assert QueueFits(ts[i], f);
      QuiescentFlight(ts, es, i, c);
    }
  }

  /** A cache that has nothing, or nothing well formed, sends a live flight to the engine. */
  lemma MissGoesToTheEngine(ts: seq<Table>, es: seq<Event>, j: nat, f: nat, cached: Option<Value>, o: Outcome)
    requires Run(ts, es) && j < |es| && es[j] == CacheRead(f, cached)
    requires f < |ts[j].flights| && !ts[j].flights[f].aborted
    requires cached.Some? ==> !IsAnalysisResultSet(cached.value, ts[j].flights[f].identity.multiPv)
    ensures Enabled(ts[j + 1], EngineDone(f, o))
  {
    RunAt(ts, es, j);
    OwnEventSetsPhase(ts[j], es[j], f);
  }

  // ---- arrivals and cancellations

  predicate Live(flight: Flight) {
    !flight.aborted && !flight.settled
  }

  /** An arrival joins the live flight of its identity when there is one, and starts one only when there is none. */
  lemma ArrivalsShare(t: Table, e: Event)
    requires Inv(t) && Indexed(t) && (e.Arrival? || e.ArrivalAborted?)
    ensures |Next(t, e).waiting| == |t.waiting| + 1
    ensures var t', f := Next(t, e), Next(t, e).waiting[|t.waiting|].flight;
            && f < |t'.flights| && t'.flights[f].identity == e.id
            && if exists g :: 0 <= g < |t.flights| && Live(t.flights[g]) && t.flights[g].identity == e.id
               then f < |t.flights| == |t'.flights| && Live(t.flights[f])
               else f == |t.flights| == |t'.flights| - 1
  {
    ArriveKeeps(t, e.id);
    if g :| 0 <= g < |t.flights| && Live(t.flights[g]) && t.flights[g].identity == e.id {
      assert FlightFits(t, g);
    }
    if e.id in t.inFlight {
      assert FlightFits(t, t.inFlight[e.id]);
    }
  }

  /** A consumer that aborts before it has been told anything is told its cancellation, and takes the flight with it
      exactly when no other consumer of it is waiting and it has not been cleaned up. */
  lemma AbortCancels(t: Table, c: nat)
    requires Inv(t) && Indexed(t) && c < |t.waiting| && t.waiting[c].told == [] && t.waiting[c].flight < |t.flights|
    ensures var t', f := Next(t, Abort(c)), t.waiting[c].flight;
            && t'.waiting[c].told == [Cancelled]
            && (forall d :: 0 <= d < |t.waiting| && d != c ==> t'.waiting[d] == t.waiting[d])
            && (t'.flights[f].aborted <==> Waiting(t.waiting, f) == 1 && !t.flights[f].settled)
  {
    assert ConsumerFits(t, c);
    assert FlightFits(t, t.waiting[c].flight);
  }

  /** A consumer whose signal is found aborted once it has joined is told so at once. */
  lemma AbortedArrivalIsCancelled(t: Table, id: Identity)
    requires Inv(t) && Indexed(t)
    ensures var t' := Next(t, ArrivalAborted(id)); t'.waiting[|t.waiting|].told == [Cancelled]
  {
    ArriveKeeps(t, id);
    assert ConsumerFits(Arrive(t, id), |t.waiting|);
  }
}
