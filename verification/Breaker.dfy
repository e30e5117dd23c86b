/** The circuit breaker of a provider's health tracker (packages/ai-orchestrator/src/health.ts). */
module Breaker {
  datatype Config = Config(failureThreshold: int, resetTimeoutMs: int, successThreshold: int, windowSize: nat)

  datatype Circuit = Circuit(failures: nat, open: bool, openedAt: int, half: bool, successes: nat)

  const CLOSED := Circuit(0, false, 0, false, 0)

  datatype Event = Success(now: int) | Failure(now: int) | Try(now: int)

  function AfterSuccess(c: Circuit, cfg: Config): Circuit {
    var c' := c.(failures := 0);
    if !c.half then c'
    else if c.successes + 1 >= cfg.successThreshold then c'.(open := false, half := false, successes := 0)
    else c'.(successes := c.successes + 1)
  }

  function AfterFailure(c: Circuit, cfg: Config, now: int): Circuit {
    var c' := c.(failures := c.failures + 1);
    if c.half then c'.(open := true, half := false, successes := 0, openedAt := now)
    else if c'.failures >= cfg.failureThreshold && !c.open then c'.(open := true, openedAt := now)
    else c'
  }

  predicate MayTry(c: Circuit, cfg: Config, now: int) {
    c.open && !c.half && now - c.openedAt > cfg.resetTimeoutMs
  }

  function AfterTry(c: Circuit, cfg: Config, now: int): Circuit {
    if MayTry(c, cfg, now) then c.(half := true, successes := 0) else c
  }

  /** Should requests be held back? */
  predicate IsCircuitOpen(c: Circuit, cfg: Config, now: int) {
    c.open && !c.half && now - c.openedAt <= cfg.resetTimeoutMs
  }

  function Step(c: Circuit, cfg: Config, e: Event): Circuit {
    match e
    case Success(_) => AfterSuccess(c, cfg)
    case Failure(now) => AfterFailure(c, cfg, now)
    case Try(now) => AfterTry(c, cfg, now)
  }

  // ---- the tracker

  datatype Outcome = Outcome(success: bool, latencyMs: int, timestamp: int)

  /** The newest `n` outcomes. */
  function Newest(outcomes: seq<Outcome>, n: nat): seq<Outcome> {
    if |outcomes| > n then outcomes[|outcomes| - n..] else outcomes
  }

  class HealthTracker {
    const cfg: Config
    var outcomes: seq<Outcome>
    var consecutiveFailures: nat
    var circuitOpen: bool
    var circuitOpenedAt: int
    var successSinceHalfOpen: nat
    var halfOpen: bool

    ghost function State(): Circuit
      reads this
    {
      Circuit(consecutiveFailures, circuitOpen, circuitOpenedAt, halfOpen, successSinceHalfOpen)
    }

    constructor (cfg: Config)
      ensures this.cfg == cfg && State() == CLOSED && outcomes == []
    {
      this.cfg := cfg;
      outcomes, consecutiveFailures, circuitOpen, circuitOpenedAt := [], 0, false, 0;
      successSinceHalfOpen, halfOpen := 0, false;
    }

    method Trim()
      modifies this`outcomes
      ensures outcomes == Newest(old(outcomes), cfg.windowSize)
    {
      ghost var dropped := 0;
      while |outcomes| > cfg.windowSize
        invariant dropped <= |old(outcomes)| && outcomes == old(outcomes)[dropped..]
        invariant |outcomes| >= cfg.windowSize || dropped == 0
        decreases |outcomes|
      {
        outcomes, dropped := outcomes[1..], dropped + 1;
      }
    }

    method RecordSuccess(latencyMs: int, now: int)
      modifies this
      ensures State() == Step(old(State()), cfg, Success(now))
      ensures outcomes == Newest(old(outcomes) + [Outcome(true, latencyMs, now)], cfg.windowSize)
    {
      outcomes := outcomes + [Outcome(true, latencyMs, now)];
      Trim();
      consecutiveFailures := 0;
      if halfOpen {
        successSinceHalfOpen := successSinceHalfOpen + 1;
        if successSinceHalfOpen >= cfg.successThreshold {
          circuitOpen := false;
          halfOpen := false;
          successSinceHalfOpen := 0;
        }
      }
    }

    method RecordFailure(now: int)
      modifies this
      ensures State() == Step(old(State()), cfg, Failure(now))
      ensures outcomes == Newest(old(outcomes) + [Outcome(false, 0, now)], cfg.windowSize)
    {
      outcomes := outcomes + [Outcome(false, 0, now)];
      Trim();
      consecutiveFailures := consecutiveFailures + 1;
      if halfOpen {
        circuitOpen := true;
        halfOpen := false;
        successSinceHalfOpen := 0;
        circuitOpenedAt := now;
      } else if consecutiveFailures >= cfg.failureThreshold && !circuitOpen {
        circuitOpen := true;
        circuitOpenedAt := now;
      }
    }

    method TryEnterHalfOpen(now: int) returns (entered: bool)
      modifies this
      ensures State() == Step(old(State()), cfg, Try(now)) && entered == MayTry(old(State()), cfg, now)
      ensures outcomes == old(outcomes)
    {
      if !circuitOpen || halfOpen {
        return false;
      }
      if now - circuitOpenedAt <= cfg.resetTimeoutMs {
        return false;
      }
      halfOpen := true;
      successSinceHalfOpen := 0;
      entered := true;
    }
  }

  // ---- runs without reset

  /** `cs` are the circuits a fresh breaker goes through by the events `es`. */
  ghost predicate Run(cs: seq<Circuit>, es: seq<Event>, cfg: Config) {
    && |cs| == |es| + 1 && cs[0] == CLOSED
    && forall i :: 0 <= i < |es| ==> cs[i + 1] == Step(cs[i], cfg, es[i])
  }

  predicate Inv(c: Circuit, cfg: Config) {
    && (c.half ==> c.open)
    && (!c.open ==> c.failures < cfg.failureThreshold || c.failures == 0)
    && (c.successes < cfg.successThreshold || c.successes == 0)
    && (c.successes > 0 ==> c.half)
  }

  /** Half-open implies open; a closed breaker has seen fewer failures in a row than the threshold; a
      half-open one fewer successes than it needs. */
  lemma {:induction false} RunKeeps(cs: seq<Circuit>, es: seq<Event>, cfg: Config, i: nat)
    requires Run(cs, es, cfg) && i < |cs|
    ensures Inv(cs[i], cfg)
  {
    if i > 0 {
      RunKeeps(cs, es, cfg, i - 1);
    }
  }

  function Successes(es: seq<Event>): nat {
    if es == [] then 0 else Successes(es[..|es| - 1]) + if es[|es| - 1].Success? then 1 else 0
  }

  /** The breaker opened by the failure at `o` and has stayed open, with that opening time, until `i`. */
  ghost predicate OpenSince(cs: seq<Circuit>, es: seq<Event>, o: nat, i: nat) {
    && o < i < |cs| && |cs| == |es| + 1
    && es[o].Failure? && cs[o + 1].openedAt == es[o].now
    && forall k :: o < k <= i ==> cs[k].open && cs[k].openedAt == es[o].now
  }

  lemma {:induction false} OpenedByFailure(cs: seq<Circuit>, es: seq<Event>, cfg: Config, i: nat) returns (o: nat)
    requires Run(cs, es, cfg) && i < |cs| && cs[i].open
    ensures OpenSince(cs, es, o, i)
  {
    if !cs[i - 1].open || (cs[i - 1].half && es[i - 1].Failure?) {
      o := i - 1;
    } else {
      o := OpenedByFailure(cs, es, cfg, i - 1);
    }
  }

  /** The probe phase began at the attempt `a`, after the cooldown, and has had no failure since. */
  ghost predicate ProbingSince(cs: seq<Circuit>, es: seq<Event>, cfg: Config, a: nat, i: nat) {
    && a < i < |cs| && |cs| == |es| + 1
    && es[a].Try? && MayTry(cs[a], cfg, es[a].now)
    && (forall k :: a < k < i ==> !es[k].Failure?)
    && (forall k :: a < k <= i ==> cs[k].half && cs[k].openedAt == cs[a].openedAt)
    && cs[i].successes == Successes(es[a + 1..i])
  }

  lemma {:induction false} HalfOpenSince(cs: seq<Circuit>, es: seq<Event>, cfg: Config, i: nat) returns (a: nat)
    requires Run(cs, es, cfg) && i < |cs| && cs[i].half
    ensures ProbingSince(cs, es, cfg, a, i)
  {
    RunKeeps(cs, es, cfg, i - 1);
    if !cs[i - 1].half {
      a := i - 1;
      assert es[a + 1..i] == [];
    } else {
      a := HalfOpenSince(cs, es, cfg, i - 1);
      assert es[a + 1..i] == es[a + 1..i - 1] + [es[i - 1]];
    }
  }

  /** An open breaker closes only by a success that completes `successThreshold` of them (at least one),
      none of them interrupted by a failure, since an attempt made more than `resetTimeoutMs` after the
      failure that last opened it. */
  lemma ClosesOnlyAfterProbing(cs: seq<Circuit>, es: seq<Event>, cfg: Config, i: nat) returns (o: nat, a: nat)
    requires Run(cs, es, cfg) && i < |es| && cs[i].open && !cs[i + 1].open
    ensures OpenSince(cs, es, o, i) && ProbingSince(cs, es, cfg, a, i) && o < a
    ensures es[a].now - es[o].now > cfg.resetTimeoutMs
    ensures es[i].Success?
    ensures Successes(es[a + 1..i + 1]) == if cfg.successThreshold >= 1 then cfg.successThreshold else 1
  {
    RunKeeps(cs, es, cfg, i);
    a := HalfOpenSince(cs, es, cfg, i);
    o := OpenedByFailure(cs, es, cfg, a);
    assert forall k :: a < k <= i ==> cs[k].open by {
      forall k | a < k <= i
        ensures cs[k].open
      {
        RunKeeps(cs, es, cfg, k);
      }
    }
    assert es[a + 1..i + 1] == es[a + 1..i] + [es[i]];
  }

  // ---- exactly when it opens, probes and closes

  /** How many failures there have been since the last success. */
  function FailuresInARow(es: seq<Event>): nat {
    if es == [] then 0
    else
      match es[|es| - 1]
      case Success(_) => 0
      case Failure(_) => FailuresInARow(es[..|es| - 1]) + 1
      case Try(_) => FailuresInARow(es[..|es| - 1])
  }

  lemma {:induction false} FailuresAreCounted(cs: seq<Circuit>, es: seq<Event>, cfg: Config, i: nat)
    requires Run(cs, es, cfg) && i < |cs|
    ensures cs[i].failures == FailuresInARow(es[..i])
  {
    if i > 0 {
      FailuresAreCounted(cs, es, cfg, i - 1);
      assert es[..i][..i - 1] == es[..i - 1];
    }
  }

  /** A closed breaker opens exactly at the failure that makes the threshold, and then holds from that moment. */
  lemma OpensExactly(cs: seq<Circuit>, es: seq<Event>, cfg: Config, i: nat)
    requires Run(cs, es, cfg) && i < |es| && !cs[i].open
    ensures cs[i + 1].open <==> es[i].Failure? && FailuresInARow(es[..i + 1]) >= cfg.failureThreshold
    ensures cs[i + 1].open ==> cs[i + 1].openedAt == es[i].now && !cs[i + 1].half
  {
    RunKeeps(cs, es, cfg, i);
    FailuresAreCounted(cs, es, cfg, i);
    assert es[..i + 1][..i] == es[..i];
  }

  /** An open breaker that is not probing begins to at the first attempt after the cooldown, and until then stays as it
      is but for the failures it counts. */
  lemma ProbesExactly(cs: seq<Circuit>, es: seq<Event>, cfg: Config, i: nat) returns (o: nat)
    requires Run(cs, es, cfg) && i < |es| && cs[i].open && !cs[i].half
    ensures OpenSince(cs, es, o, i)
    ensures cs[i + 1].open && cs[i + 1].openedAt == es[o].now
    ensures cs[i + 1].half <==> es[i].Try? && es[i].now - es[o].now > cfg.resetTimeoutMs
  {
    o := OpenedByFailure(cs, es, cfg, i);
    RunKeeps(cs, es, cfg, i);
  }

  /** A probing breaker opens anew at a failure, closes exactly at the success that completes the successes asked for
      since the probing began, and otherwise goes on probing. */
  lemma ProbeEndsExactly(cs: seq<Circuit>, es: seq<Event>, cfg: Config, i: nat) returns (a: nat)
    requires Run(cs, es, cfg) && i < |es| && cs[i].half
    ensures ProbingSince(cs, es, cfg, a, i)
    ensures cs[i + 1].open <==> !(es[i].Success? && Successes(es[a + 1..i + 1]) >= cfg.successThreshold)
    ensures cs[i + 1].half <==> cs[i + 1].open && !es[i].Failure?
    ensures es[i].Failure? ==> cs[i + 1].openedAt == es[i].now
  {
    a := HalfOpenSince(cs, es, cfg, i);
    RunKeeps(cs, es, cfg, i);
    assert es[a + 1..i + 1] == es[a + 1..i] + [es[i]];
  }

  /** Requests are held back exactly from an opening failure until the cooldown is over, unless it is probing. */
  lemma HoldsBackExactly(cs: seq<Circuit>, es: seq<Event>, cfg: Config, i: nat, now: int)
    requires Run(cs, es, cfg) && i < |cs|
    ensures IsCircuitOpen(cs[i], cfg, now) <==>
              !cs[i].half && exists o: nat :: OpenSince(cs, es, o, i) && now - es[o].now <= cfg.resetTimeoutMs
  {
    if cs[i].open {
      var o := OpenedByFailure(cs, es, cfg, i);
      assert cs[i].openedAt == es[o].now;
    }
  }
}
