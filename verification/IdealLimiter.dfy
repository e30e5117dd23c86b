/** The rate limiter answers like one that tops every bucket up continuously: its lazy refills, its forgotten buckets
    and its sweeps show in no answer (packages/ai-orchestrator/src/rate-limiter.ts). */
module IdealLimiter {
  import opened Common
  import opened RateLimit

  /** What stands in a bucket of this capacity after so many more milliseconds. */
  function Filled(level: real, capacity: real, elapsed: real): real {
    var full := level + elapsed * (capacity / 60000.0);
    if full < capacity then full else capacity
  }

  /** The answers of buckets that fill all the time: first the one that all share, then the caller's own; an admitted
      request takes one from each it met. */
  function Answers(cfg: Config, since: real, overall: real, level: string -> real, calls: seq<Call>): seq<Verdict>
    decreases |calls|
  {
    if calls == [] then []
    else
      var user, now := calls[0].user, calls[0].now;
      var own := user.Some? && user.value != "";
      var o := Filled(overall, cfg.overall, now - since);
      var at := (u: string) => Filled(level(u), cfg.perUser, now - since);
      if o < 1.0 then [OverallRefused] + Answers(cfg, now, o, at, calls[1..])
      else if own && at(user.value) < 1.0 then [UserRefused] + Answers(cfg, now, o, at, calls[1..])
      else
        [Admitted] +
        Answers(cfg, now, o - 1.0, (u: string) => if own && u == user.value then at(u) - 1.0 else at(u), calls[1..])
  }

  /** The limiter's buckets, brought up to `now`, hold these levels. */
  ghost predicate HoldsLevels(cfg: Config, l: Limiter, now: real, overall: real, level: string -> real) {
    && Fits(cfg, l, now) && Refill(l.overall, cfg.overall, now).tokens == overall
    && forall u :: u != "" ==> Credit(cfg, l, u, now) == level(u)
  }

  /** Filling in two goes is filling in one. */
  lemma RefillsCompose(b: Bucket, capacity: real, since: real, now: real)
    requires BucketFits(b, capacity, since) && capacity >= 0.0 && since <= now
    ensures Refill(b, capacity, now).tokens == Filled(Refill(b, capacity, since).tokens, capacity, now - since)
  {
    EarnedAdds(now - since, since - b.lastRefill, capacity);
    EarnedNotNegative(now - since, capacity);
    EarnedNotNegative(since - b.lastRefill, capacity);
  }

  lemma CreditFills(cfg: Config, l: Limiter, user: string, since: real, now: real)
    requires Fits(cfg, l, since) && since <= now
    ensures Credit(cfg, l, user, now) == Filled(Credit(cfg, l, user, since), cfg.perUser, now - since)
  {
    EarnedNotNegative(now - since, cfg.perUser);
    if user in l.buckets {
      RefillsCompose(l.buckets[user], cfg.perUser, since, now);
    }
  }

  lemma RefilledStays(b: Bucket, capacity: real, now: real)
    requires b.tokens <= capacity && b.lastRefill == now
    ensures Refill(b, capacity, now).tokens == b.tokens
  {
    EarnedNothing(capacity);
  }

  /** A refusal leaves everyone's credit, an admission takes one from the caller's. */
  lemma ChargeLeaves(cfg: Config, l: Limiter, user: Option<string>, now: real, u: string)
    requires Fits(cfg, l, now) && u != ""
    ensures var (l', v) := Charge(cfg, l, user, now);
            Credit(cfg, l', u, now) ==
            Credit(cfg, l, u, now) - if v == Admitted && user == Some(u) then 1.0 else 0.0
  {
    ChargeSpends(cfg, l, Call(user, now), u);
  }

  lemma ChargeAnswers(cfg: Config, l: Limiter, user: Option<string>, now: real)
    requires Fits(cfg, l, now)
    ensures var (l', v) := Charge(cfg, l, user, now); var o := Refill(l.overall, cfg.overall, now).tokens;
            && v == (if o < 1.0 then OverallRefused
                     else if Named(user) && Credit(cfg, l, user.value, now) < 1.0 then UserRefused
                     else Admitted)
            && Refill(l'.overall, cfg.overall, now).tokens == if v == Admitted then o - 1.0 else o
  {
    var refilled := Refill(l.overall, cfg.overall, now);
    RefillNotNegative(l.overall, cfg.overall, now);
    RefilledStays(refilled, cfg.overall, now);
    RefilledStays(refilled.(tokens := refilled.tokens - 1.0), cfg.overall, now);
    FreshIsFull(cfg.perUser, now);
  }

  lemma LevelsAt(cfg: Config, l: Limiter, since: real, now: real, overall: real, level: string -> real)
    requires HoldsLevels(cfg, l, since, overall, level) && since <= now
    ensures Fits(cfg, Tick(l, now, true), now)
    ensures Refill(Tick(l, now, true).overall, cfg.overall, now).tokens == Filled(overall, cfg.overall, now - since)
    ensures forall u :: u != "" ==>
              Credit(cfg, Tick(l, now, true), u, now) == Filled(level(u), cfg.perUser, now - since)
  {
    RefillsCompose(l.overall, cfg.overall, since, now);
    forall u | u != "" ensures Credit(cfg, Tick(l, now, true), u, now) == Filled(level(u), cfg.perUser, now - since) {
      CreditFills(cfg, l, u, since, now);
      TickKeepsCredit(cfg, l, u, now);
    }
    TickKeepsCredit(cfg, l, "", now);
  }

  lemma {:induction false} AnswersAgree(cfg: Config, l: Limiter, since: real, overall: real, level: string -> real,
                                        calls: seq<Call>)
    requires cfg.enabled && HoldsLevels(cfg, l, since, overall, level) && Monotone(calls, since)
    ensures Verdicts(cfg, l, calls, true) == Answers(cfg, since, overall, level, calls)
    decreases |calls|
  {
    if calls != [] {
      var user, now := calls[0].user, calls[0].now;
      var t := Tick(l, now, true);
      var (l', v) := Check(cfg, l, user, now, true);
      LevelsAt(cfg, l, since, now, overall, level);
      ChargeAnswers(cfg, t, user, now);
      CheckFits(cfg, l, user, since, now);
      forall u | u != ""
        ensures Credit(cfg, l', u, now) ==
                Credit(cfg, t, u, now) - if v == Admitted && user == Some(u) then 1.0 else 0.0
      {
        ChargeLeaves(cfg, t, user, now, u);
      }
      var own := user.Some? && user.value != "";
      var o := Filled(overall, cfg.overall, now - since);
      var at := (u: string) => Filled(level(u), cfg.perUser, now - since);
      if v == Admitted {
        var less := (u: string) => if own && u == user.value then at(u) - 1.0 else at(u);
        AnswersAgree(cfg, l', now, o - 1.0, less, calls[1..]);
      } else {
        AnswersAgree(cfg, l', now, o, at, calls[1..]);
      }
    }
  }

  /** Whatever calls come, in time order, the limiter answers each as buckets do that start full and fill all the
      time. */
  lemma AnswersLikeIdeal(cfg: Config, start: real, calls: seq<Call>)
    requires cfg.perUser >= 0.0 && cfg.overall >= 0.0 && Monotone(calls, start)
    ensures Verdicts(cfg, Fresh(cfg, start), calls, true) ==
            if cfg.enabled then Answers(cfg, start, cfg.overall, (u: string) => cfg.perUser, calls)
            else seq(|calls|, i => Admitted)
  {
    if cfg.enabled {
      FreshIsFull(cfg.overall, start);
      AnswersAgree(cfg, Fresh(cfg, start), start, cfg.overall, (u: string) => cfg.perUser, calls);
    } else {
      AllAdmitted(cfg, Fresh(cfg, start), calls);
    }
  }

  lemma {:induction false} AllAdmitted(cfg: Config, l: Limiter, calls: seq<Call>)
    requires !cfg.enabled
    ensures Verdicts(cfg, l, calls, true) == seq(|calls|, i => Admitted)
    decreases |calls|
  {
    if calls != [] {
      AllAdmitted(cfg, l, calls[1..]);
    }
  }
}
