/** The token-bucket rate limiter and its sweep (packages/ai-orchestrator/src/rate-limiter.ts). Tokens
    and times are reals; the clock is an argument, monotone where a lemma says so. */
module RateLimit {
  import opened Common

  datatype Bucket = Bucket(tokens: real, lastRefill: real)

  datatype Config = Config(enabled: bool, perUser: real, overall: real)

  datatype Limiter = Limiter(buckets: map<string, Bucket>, overall: Bucket, checks: nat)

  datatype Verdict = Admitted | OverallRefused | UserRefused

  const SWEEP_EVERY: nat := 500

  /** Tokens earned in `elapsed` milliseconds at `capacity` tokens a minute. */
  function Earned(elapsed: real, capacity: real): real {
    elapsed * (capacity / 60000.0)
  }

  function Refill(b: Bucket, capacity: real, now: real): Bucket {
    var full := b.tokens + Earned(now - b.lastRefill, capacity);
    Bucket(if full < capacity then full else capacity, now)
  }

  function Sweep(buckets: map<string, Bucket>, now: real): map<string, Bucket> {
    map u | u in buckets && now - buckets[u].lastRefill < 60000.0 :: buckets[u]
  }

  function Fresh(cfg: Config, now: real): Limiter {
    Limiter(map[], Bucket(cfg.overall, now), 0)
  }

  /** A request without a user, or with the empty user, meets the overall bucket only. */
  predicate Named(user: Option<string>) {
    user.Some? && user.value != ""
  }

  /** The limiter once the overall bucket has let the request through. */
  function ChargeUser(cfg: Config, l: Limiter, user: string, now: real): (Limiter, Verdict) {
    var b := Refill(if user in l.buckets then l.buckets[user] else Bucket(cfg.perUser, now), cfg.perUser, now);
    if b.tokens < 1.0 then (l.(buckets := l.buckets[user := b]), UserRefused)
    else (l.(buckets := l.buckets[user := b.(tokens := b.tokens - 1.0)],
             overall := l.overall.(tokens := l.overall.tokens - 1.0)), Admitted)
  }

  function Charge(cfg: Config, l: Limiter, user: Option<string>, now: real): (Limiter, Verdict) {
    var l' := l.(overall := Refill(l.overall, cfg.overall, now));
    if l'.overall.tokens < 1.0 then (l', OverallRefused)
    else if Named(user) then ChargeUser(cfg, l', user.value, now)
    else (l'.(overall := l'.overall.(tokens := l'.overall.tokens - 1.0)), Admitted)
  }

  function Tick(l: Limiter, now: real, sweeps: bool): Limiter {
    if l.checks + 1 >= SWEEP_EVERY then Limiter(if sweeps then Sweep(l.buckets, now) else l.buckets, l.overall, 0)
    else l.(checks := l.checks + 1)
  }

  /** One check; `sweeps` false is the limiter that never forgets a bucket. */
  function Check(cfg: Config, l: Limiter, user: Option<string>, now: real, sweeps: bool): (Limiter, Verdict) {
    if !cfg.enabled then (l, Admitted) else Charge(cfg, Tick(l, now, sweeps), user, now)
  }

  // ---- the class

  class RateLimiter {
    var buckets: map<string, Bucket>
    var overall: Bucket
    var checksSinceSweep: nat
    const cfg: Config

    ghost function State(): Limiter
      reads this
    {
      Limiter(buckets, overall, checksSinceSweep)
    }

    constructor (cfg: Config, now: real)
      ensures this.cfg == cfg && State() == Fresh(cfg, now)
    {
      this.cfg := cfg;
      buckets, overall, checksSinceSweep := map[], Bucket(cfg.overall, now), 0;
    }

    method CheckRequest(user: Option<string>, now: real) returns (verdict: Verdict)
      modifies this
      ensures (State(), verdict) == Check(cfg, old(State()), user, now, true)
    {
      if !cfg.enabled {
        return Admitted;
      }
      checksSinceSweep := checksSinceSweep + 1;
      if checksSinceSweep >= SWEEP_EVERY {
        checksSinceSweep := 0;
        SweepBuckets(now);
      }
      overall := Refill(overall, cfg.overall, now);
      if overall.tokens < 1.0 {
        return OverallRefused;
      }
      if Named(user) {
        var u := user.value;
        var bucket := if u in buckets then buckets[u] else Bucket(cfg.perUser, now);
        bucket := Refill(bucket, cfg.perUser, now);
        if bucket.tokens < 1.0 {
          buckets := buckets[u := bucket];
          return UserRefused;
        }
        bucket := bucket.(tokens := bucket.tokens - 1.0);
        buckets := buckets[u := bucket];
      }
      overall := overall.(tokens := overall.tokens - 1.0);
      verdict := Admitted;
    }

    method SweepBuckets(now: real)
      modifies this`buckets
      ensures buckets == Sweep(old(buckets), now)
    {
      ghost var was := buckets;
      var pending := buckets.Keys;
      while pending != {}
        invariant pending <= was.Keys
        invariant buckets == map u | u in was && (u in pending || now - was[u].lastRefill < 60000.0) :: was[u]
        decreases |pending|
      {
        var u :| u in pending;
        pending := pending - {u};
        if now - buckets[u].lastRefill >= 60000.0 {
          buckets := buckets - {u};
        }
      }
    }
  }

  // ---- the sweep is unobservable

  datatype Call = Call(user: Option<string>, now: real)

  /** The verdicts of a sequence of checks. */
  function Verdicts(cfg: Config, l: Limiter, calls: seq<Call>, sweeps: bool): seq<Verdict>
    decreases |calls|
  {
    if calls == [] then []
    else
      var (l', v) := Check(cfg, l, calls[0].user, calls[0].now, sweeps);
      [v] + Verdicts(cfg, l', calls[1..], sweeps)
  }

  predicate Monotone(calls: seq<Call>, from: real) {
    (forall i :: 0 <= i < |calls| ==> from <= calls[i].now)
    && forall i, j :: 0 <= i < j < |calls| ==> calls[i].now <= calls[j].now
  }

  lemma ProductGrows(x: real, y: real, z: real)
    requires x >= y && z >= 0.0
    ensures x * z >= y * z
  {
  }

  lemma EarnedNotNegative(elapsed: real, capacity: real)
    requires elapsed >= 0.0 && capacity >= 0.0
    ensures Earned(elapsed, capacity) >= 0.0
  {
    ProductGrows(elapsed, 0.0, capacity / 60000.0);
  }

  lemma EarnedInAMinute(elapsed: real, capacity: real)
    requires elapsed >= 60000.0 && capacity >= 0.0
    ensures Earned(elapsed, capacity) >= capacity
  {
    var r := capacity / 60000.0;
    ProductGrows(elapsed, 60000.0, r);
    assert 60000.0 * r == capacity;
  }

  lemma EarnedAdds(x: real, y: real, capacity: real)
    ensures Earned(x, capacity) + Earned(y, capacity) == Earned(x + y, capacity)
  {
  }

  lemma EarnedNothing(capacity: real)
    ensures Earned(0.0, capacity) == 0.0
  {
  }

  /** A minute after its last refill a bucket that owes nothing is full. */
  lemma FullAfterAMinute(b: Bucket, capacity: real, now: real)
    requires b.tokens >= 0.0 && capacity >= 0.0 && now - b.lastRefill >= 60000.0
    ensures Refill(b, capacity, now) == Bucket(capacity, now)
  {
    EarnedInAMinute(now - b.lastRefill, capacity);
  }

  lemma FreshIsFull(capacity: real, now: real)
    ensures Refill(Bucket(capacity, now), capacity, now) == Bucket(capacity, now)
  {
    EarnedNothing(capacity);
  }

  lemma RefillNotNegative(b: Bucket, capacity: real, now: real)
    requires b.tokens >= 0.0 && capacity >= 0.0 && now >= b.lastRefill
    ensures 0.0 <= Refill(b, capacity, now).tokens <= capacity
  {
    EarnedNotNegative(now - b.lastRefill, capacity);
  }

  predicate BucketFits(b: Bucket, capacity: real, now: real) {
    0.0 <= b.tokens <= capacity && b.lastRefill <= now
  }

  /** `kept` is what the sweeping limiter still holds of `all`; what it dropped would be full by now. */
  ghost predicate Swept(cfg: Config, kept: map<string, Bucket>, all: map<string, Bucket>, now: real) {
    && (forall u :: u in kept ==> u in all && all[u] == kept[u])
    && (forall u :: u in all ==> BucketFits(all[u], cfg.perUser, now))
    && (forall u :: u in all && u !in kept ==> now - all[u].lastRefill >= 60000.0)
  }

  /** A capacity below one admits no named request at all, whatever the buckets hold. */
  ghost predicate Alike(cfg: Config, a: Limiter, b: Limiter, now: real) {
    a.overall == b.overall && (cfg.perUser >= 1.0 ==> Swept(cfg, a.buckets, b.buckets, now))
  }

  lemma TickAlike(cfg: Config, a: Limiter, b: Limiter, since: real, now: real)
    requires Alike(cfg, a, b, since) && since <= now
    ensures Alike(cfg, Tick(a, now, true), Tick(b, now, false), now)
  {
  }

  lemma UserAlike(cfg: Config, a: Limiter, b: Limiter, user: string, now: real)
    requires Alike(cfg, a, b, now)
    ensures var (a', v) := ChargeUser(cfg, a, user, now); var (b', w) := ChargeUser(cfg, b, user, now);
            v == w && Alike(cfg, a', b', now)
  {
    if cfg.perUser >= 1.0 {
      FreshIsFull(cfg.perUser, now);
      if user in b.buckets {
        RefillNotNegative(b.buckets[user], cfg.perUser, now);
        if user !in a.buckets {
          FullAfterAMinute(b.buckets[user], cfg.perUser, now);
        }
      }
    }
  }

  lemma ChargeAlike(cfg: Config, a: Limiter, b: Limiter, user: Option<string>, now: real)
    requires Alike(cfg, a, b, now)
    ensures var (a', v) := Charge(cfg, a, user, now); var (b', w) := Charge(cfg, b, user, now);
            v == w && Alike(cfg, a', b', now)
  {
    var refilled := Refill(a.overall, cfg.overall, now);
    if Named(user) && refilled.tokens >= 1.0 {
      UserAlike(cfg, a.(overall := refilled), b.(overall := refilled), user.value, now);
    }
  }

  lemma {:induction false} SameVerdicts(cfg: Config, a: Limiter, b: Limiter, calls: seq<Call>, since: real)
    requires Alike(cfg, a, b, since) && Monotone(calls, since)
    ensures Verdicts(cfg, a, calls, true) == Verdicts(cfg, b, calls, false)
    decreases |calls|
  {
    if calls != [] {
      var now := calls[0].now;
      TickAlike(cfg, a, b, since, now);
      if cfg.enabled {
        ChargeAlike(cfg, Tick(a, now, true), Tick(b, now, false), calls[0].user, now);
        SameVerdicts(cfg, Check(cfg, a, calls[0].user, now, true).0, Check(cfg, b, calls[0].user, now, false).0,
                     calls[1..], now);
      } else {
        SameVerdicts(cfg, a, b, calls[1..], since);
      }
    }
  }

  /** With a monotone clock the limiter admits exactly what a limiter that never sweeps admits. */
  lemma SweepIsUnobservable(cfg: Config, start: real, calls: seq<Call>)
    requires Monotone(calls, start)
    ensures Verdicts(cfg, Fresh(cfg, start), calls, true) == Verdicts(cfg, Fresh(cfg, start), calls, false)
  {
    SameVerdicts(cfg, Fresh(cfg, start), Fresh(cfg, start), calls, start);
  }

  // ---- the rate bound

  ghost predicate Fits(cfg: Config, l: Limiter, now: real) {
    && cfg.perUser >= 0.0 && cfg.overall >= 0.0
    && BucketFits(l.overall, cfg.overall, now)
    && forall u :: u in l.buckets ==> BucketFits(l.buckets[u], cfg.perUser, now)
  }

  /** Tokens stay between nothing and the capacity. */
  lemma CheckFits(cfg: Config, l: Limiter, user: Option<string>, since: real, now: real)
    requires Fits(cfg, l, since) && since <= now
    ensures Fits(cfg, Check(cfg, l, user, now, true).0, now)
  {
    var t := Tick(l, now, true);
    RefillNotNegative(l.overall, cfg.overall, now);
    if Named(user) {
      if user.value in t.buckets {
        RefillNotNegative(t.buckets[user.value], cfg.perUser, now);
      }
      FreshIsFull(cfg.perUser, now);
    }
  }

  /** What a user could spend at `now`: the refilled bucket, a forgotten one counting as full. */
  function Credit(cfg: Config, l: Limiter, user: string, now: real): real {
    if user in l.buckets then Refill(l.buckets[user], cfg.perUser, now).tokens else cfg.perUser
  }

  function Admission(user: string, call: Call, v: Verdict): nat {
    if v == Admitted && call.user == Some(user) then 1 else 0
  }

  function Admissions(cfg: Config, l: Limiter, calls: seq<Call>, user: string): nat
    decreases |calls|
  {
    if calls == [] then 0
    else
      var (l', v) := Check(cfg, l, calls[0].user, calls[0].now, true);
      Admission(user, calls[0], v) + Admissions(cfg, l', calls[1..], user)
  }

  lemma CreditGrows(cfg: Config, l: Limiter, user: string, since: real, now: real)
    requires Fits(cfg, l, since) && since <= now
    ensures Credit(cfg, l, user, now) <= Credit(cfg, l, user, since) + Earned(now - since, cfg.perUser)
  {
    EarnedNotNegative(now - since, cfg.perUser);
    if user in l.buckets {
      EarnedAdds(now - since, since - l.buckets[user].lastRefill, cfg.perUser);
    }
  }

  /** Forgetting a bucket leaves its user's credit what it was. */
  lemma TickKeepsCredit(cfg: Config, l: Limiter, user: string, now: real)
    requires Fits(cfg, l, now)
    ensures Credit(cfg, Tick(l, now, true), user, now) == Credit(cfg, l, user, now)
    ensures Fits(cfg, Tick(l, now, true), now)
  {
    if user in l.buckets && now - l.buckets[user].lastRefill >= 60000.0 {
      FullAfterAMinute(l.buckets[user], cfg.perUser, now);
    }
  }

  /** An admission spends one token of its user's credit; nothing else touches it. */
  lemma ChargeUserSpends(cfg: Config, l: Limiter, caller: string, user: string, now: real)
    requires Fits(cfg, l, now)
    ensures var (l', v) := ChargeUser(cfg, l, caller, now);
            Credit(cfg, l', user, now) ==
            Credit(cfg, l, user, now) - if v == Admitted && caller == user then 1.0 else 0.0
  {
    FreshIsFull(cfg.perUser, now);
    var b := Refill(if caller in l.buckets then l.buckets[caller] else Bucket(cfg.perUser, now), cfg.perUser, now);
    EarnedNothing(cfg.perUser);
  }

  lemma ChargeSpends(cfg: Config, l: Limiter, call: Call, user: string)
    requires Fits(cfg, l, call.now) && user != ""
    ensures var (l', v) := Charge(cfg, l, call.user, call.now);
            Credit(cfg, l', user, call.now) == Credit(cfg, l, user, call.now) - Admission(user, call, v) as real
  {
    var refilled := Refill(l.overall, cfg.overall, call.now);
    if Named(call.user) && refilled.tokens >= 1.0 {
      RefillNotNegative(l.overall, cfg.overall, call.now);
      ChargeUserSpends(cfg, l.(overall := refilled), call.user.value, user, call.now);
    }
  }

  lemma {:induction false} AdmissionsBounded(cfg: Config, l: Limiter, calls: seq<Call>, user: string, since: real)
    requires cfg.enabled && Fits(cfg, l, since) && Monotone(calls, since) && user != ""
    ensures var end := if calls == [] then since else calls[|calls| - 1].now;
            Admissions(cfg, l, calls, user) as real <= Credit(cfg, l, user, since) + Earned(end - since, cfg.perUser)
    decreases |calls|
  {
    if calls == [] {
      EarnedNothing(cfg.perUser);
      if user in l.buckets {
        RefillNotNegative(l.buckets[user], cfg.perUser, since);
      }
    } else {
      var now := calls[0].now;
      var end := calls[|calls| - 1].now;
      var (l', v) := Check(cfg, l, calls[0].user, now, true);
      CreditGrows(cfg, l, user, since, now);
      TickKeepsCredit(cfg, l, user, now);
      ChargeSpends(cfg, Tick(l, now, true), calls[0], user);
      CheckFits(cfg, l, calls[0].user, since, now);
      AdmissionsBounded(cfg, l', calls[1..], user, now);
      EarnedAdds(end - now, now - since, cfg.perUser);
    }
  }

  /** In any window of calls, from any state the limiter can be in, one user is admitted at most
      capacity + capacity * d / 60000 times, d being the milliseconds from the first call to the last. */
  lemma RateBound(cfg: Config, l: Limiter, calls: seq<Call>, user: string)
    requires cfg.enabled && calls != [] && Fits(cfg, l, calls[0].now) && Monotone(calls, calls[0].now) && user != ""
    ensures Admissions(cfg, l, calls, user) as real
            <= cfg.perUser + Earned(calls[|calls| - 1].now - calls[0].now, cfg.perUser)
  {
    var first, last := calls[0].now, calls[|calls| - 1].now;
    AdmissionsBounded(cfg, l, calls, user, first);
    CreditAtMost(cfg, l, user, first);
  }

  lemma CreditAtMost(cfg: Config, l: Limiter, user: string, now: real)
    ensures Credit(cfg, l, user, now) <= cfg.perUser
  {
  }

  function AfterCalls(cfg: Config, l: Limiter, calls: seq<Call>): Limiter
    decreases |calls|
  {
    if calls == [] then l else AfterCalls(cfg, Check(cfg, l, calls[0].user, calls[0].now, true).0, calls[1..])
  }

  /** Every state a fresh limiter reaches with a monotone clock has its tokens within [0, capacity]. */
  lemma {:induction false} ReachableFits(cfg: Config, l: Limiter, calls: seq<Call>, since: real)
    requires Fits(cfg, l, since) && Monotone(calls, since)
    ensures Fits(cfg, AfterCalls(cfg, l, calls), if calls == [] then since else calls[|calls| - 1].now)
    decreases |calls|
  {
    if calls != [] {
      CheckFits(cfg, l, calls[0].user, since, calls[0].now);
      ReachableFits(cfg, Check(cfg, l, calls[0].user, calls[0].now, true).0, calls[1..], calls[0].now);
    }
  }
}
