/** What reported calls do to an upstream API (internal/balancer/balancer.go): counters, average latency,
    and the growing pause after failures in a row. */
module Health {
  import opened Lists
  import opened Metering

  /** Times are positive; a zero `cooldownUntil` means that there is no pause. */
  datatype Health = Health(
    counts: Counts, avgLatency: int, streak: nat, cooldownUntil: int, lastError: Option<string>)

  const UNUSED := Health(NOTHING, 0, 0, 0, None)

  /** The balancer's settings; both are positive. */
  datatype Settings = Settings(cooldown: int, threshold: nat)

  predicate Sensible(s: Settings) {
    s.cooldown > 0 && s.threshold > 0
  }

  datatype Report = Succeeded(latency: int, usage: Usage) | Failed(now: int, error: string)

  const NO_USAGE := Usage(0, 0, 0)

  /** Division that rounds towards zero. */
  function Quotient(x: int, n: nat): int
    requires n > 0
  {
    if x >= 0 then x / n else -((-x) / n)
  }

  const MAX_FACTOR := 6

  function Factor(streak: nat, threshold: nat): nat
    requires threshold <= streak
  {
    if streak - threshold + 1 > MAX_FACTOR then MAX_FACTOR else streak - threshold + 1
  }

  function Reported(h: Health, s: Settings, r: Report): Health {
    match r
    case Succeeded(latency, usage) =>
      h.(counts := Counted(h.counts, true, usage),
         avgLatency := if h.counts.success == 0 then latency
                       else h.avgLatency + Quotient(latency - h.avgLatency, h.counts.success + 1),
         streak := 0, cooldownUntil := 0, lastError := None)
    case Failed(now, error) =>
      h.(counts := Counted(h.counts, false, NO_USAGE), streak := h.streak + 1, lastError := Some(error),
         cooldownUntil := if h.streak + 1 >= s.threshold then now + s.cooldown * Factor(h.streak + 1, s.threshold)
                          else h.cooldownUntil)
  }

  function Run(s: Settings, reports: seq<Report>): Health {
    if reports == [] then UNUSED else Reported(Run(s, reports[..|reports| - 1]), s, reports[|reports| - 1])
  }

  class Provider {
    const counters: Counters
    var avgLatency: int
    var consecutiveFailures: nat
    var cooldownUntil: int
    var lastError: Option<string>

    constructor (counters: Counters)
      ensures this.counters == counters
      ensures (avgLatency, consecutiveFailures, cooldownUntil, lastError) == (0, 0, 0, None)
    {
      this.counters := counters;
      avgLatency, consecutiveFailures, cooldownUntil, lastError := 0, 0, 0, None;
    }

    function State(): Health
      reads this, counters
    {
      Health(counters.State(), avgLatency, consecutiveFailures, cooldownUntil, lastError)
    }

    method ReportSuccess(latency: int, usage: Usage, s: Settings)
      modifies this, counters
      ensures State() == Reported(old(State()), s, Succeeded(latency, usage))
    {
      counters.Count(true, usage);
      if counters.success == 1 {
        avgLatency := latency;
      } else {
        avgLatency := avgLatency + Quotient(latency - avgLatency, counters.success);
      }
      lastError := None;
      consecutiveFailures := 0;
      cooldownUntil := 0;
    }

    method ReportFailure(now: int, error: Option<string>, s: Settings)
      modifies this, counters
      ensures State() ==
              Reported(old(State()), s, Failed(now, if error.Some? then error.value else "unknown"))
    {
      hide Counted;
      var message := "unknown";
      if error.Some? {
        message := error.value;
      }
      counters.Count(false, NO_USAGE);
      lastError := Some(message);
      consecutiveFailures := consecutiveFailures + 1;
      if consecutiveFailures >= s.threshold {
        var factor := consecutiveFailures - s.threshold + 1;
        if factor > MAX_FACTOR {
          factor := MAX_FACTOR;
        }
        assert factor == Factor(consecutiveFailures, s.threshold);
        hide Factor;
        cooldownUntil := now + s.cooldown * factor;
      }
    }
  }

  // ---------------------------------------------------------------------------------------------
  // Runs
  // ---------------------------------------------------------------------------------------------

  /** Failures since the last success. */
  function Trailing(reports: seq<Report>): (n: nat)
    ensures n <= |reports|
    ensures forall i :: |reports| - n <= i < |reports| ==> reports[i].Failed?
    ensures n < |reports| ==> reports[|reports| - n - 1].Succeeded?
  {
    if reports == [] || reports[|reports| - 1].Succeeded? then 0 else 1 + Trailing(reports[..|reports| - 1])
  }

  predicate Timed(reports: seq<Report>) {
    forall i :: 0 <= i < |reports| && reports[i].Failed? ==> reports[i].now > 0
  }

  /** An upstream API is paused exactly after as many failures in a row as the threshold says, from its last
      failure on, for a time that grows with every further failure up to six times the basic one. */
  lemma {:induction false} PausedIffFailing(s: Settings, reports: seq<Report>)
    requires Sensible(s) && Timed(reports)
    ensures var h, n := Run(s, reports), Trailing(reports);
            && h.streak == n && h.counts.requests == h.counts.success + h.counts.failure == |reports|
            && (h.lastError.Some? <==> n > 0)
            && (h.cooldownUntil != 0 <==> n >= s.threshold)
            && (n >= s.threshold ==>
                  h.cooldownUntil == reports[|reports| - 1].now + s.cooldown * Factor(n, s.threshold))
  {
    if reports != [] {
      PausedIffFailing(s, reports[..|reports| - 1]);
      var n := Trailing(reports);
      if n >= s.threshold {
        PositivePause(s.cooldown, Factor(n, s.threshold));
      }
    }
  }

  /** The pause at the threshold is the basic one, each further failure adds another, and the sixth one is the last. */
  lemma PauseGrows(s: Settings, reports: seq<Report>)
    requires Sensible(s) && Timed(reports) && Trailing(reports) >= s.threshold
    ensures var pauses := Trailing(reports) - s.threshold + 1;
            Run(s, reports).cooldownUntil ==
            reports[|reports| - 1].now + s.cooldown * (if pauses <= 6 then pauses else 6)
  {
    PausedIffFailing(s, reports);
    FactorIs(Trailing(reports), s.threshold);
    hide Run, Trailing, Timed, Factor;
  }

  lemma FactorIs(streak: nat, threshold: nat)
    requires threshold <= streak
    ensures var pauses := streak - threshold + 1; Factor(streak, threshold) == if pauses <= 6 then pauses else 6
  {
  }

  lemma PositivePause(cooldown: int, factor: nat)
    requires cooldown > 0
    ensures cooldown * factor >= 0
  {
  }

  /** The tokens of the successes. */
  function Delivered(reports: seq<Report>): nat {
    if reports == [] then 0
    else
      var last := reports[|reports| - 1];
      Delivered(reports[..|reports| - 1]) + if last.Succeeded? then TotalTokens(last.usage) else 0
  }

  /** Tokens are counted for successes only, split into prompt and completion, and the error on record is that of
      the last report. */
  lemma {:induction false} SuccessesAreMetered(s: Settings, reports: seq<Report>)
    ensures var h := Run(s, reports);
            && h.counts.total == h.counts.prompt + h.counts.completion == Delivered(reports)
            && (reports != [] && reports[|reports| - 1].Failed?
                ==> h.lastError == Some(reports[|reports| - 1].error))
  {
    hide Quotient, Factor;
    if reports != [] {
      SuccessesAreMetered(s, reports[..|reports| - 1]);
    }
  }

  predicate Within(reports: seq<Report>, low: int, high: int) {
    forall i :: 0 <= i < |reports| && reports[i].Succeeded? ==> low <= reports[i].latency <= high
  }

  /** Moving towards a new value by a fraction of the difference stays between the two. */
  lemma QuotientBetween(a: int, x: int, n: nat)
    requires n >= 1
    ensures x >= a ==> a <= a + Quotient(x - a, n) <= x
    ensures x <= a ==> x <= a + Quotient(x - a, n) <= a
  {
    if x >= a {
      QuotientShrinks(x - a, n);
    }
    if x <= a {
      QuotientShrinks(a - x, n);
    }
  }

  lemma QuotientShrinks(y: nat, n: nat)
    requires n >= 1
    ensures 0 <= y / n <= y
  {
    assert y == (y / n) * n + y % n;
    if y / n >= 1 {
      Grows(y / n, n);
    }
  }

  lemma Grows(q: nat, n: nat)
    requires n >= 1
    ensures q * n >= q
  {
  }

  /** Although it is rounded at every step, the average latency lies between the smallest and the largest
      latency that was reported. */
  lemma {:induction false} AverageIsWithin(s: Settings, reports: seq<Report>, low: int, high: int)
    requires Within(reports, low, high)
    ensures Run(s, reports).counts.success > 0 ==> low <= Run(s, reports).avgLatency <= high
  {
    if reports != [] {
      var init, last := reports[..|reports| - 1], reports[|reports| - 1];
      AverageIsWithin(s, init, low, high);
      hide Quotient, Factor;
      if last.Succeeded? {
        assert low <= last.latency <= high;
        QuotientBetween(Run(s, init).avgLatency, last.latency, Run(s, init).counts.success + 1);
      }
    }
  }

  function Successes(reports: seq<Report>): nat {
    if reports == [] then 0
    else Successes(reports[..|reports| - 1]) + if reports[|reports| - 1].Succeeded? then 1 else 0
  }

  /** The latencies of the successes together. */
  function Latencies(reports: seq<Report>): int {
    if reports == [] then 0
    else
      var last := reports[|reports| - 1];
      Latencies(reports[..|reports| - 1]) + if last.Succeeded? then last.latency else 0
  }

  /** n * a stays within n * (n - 1) / 2 of a sum. */
  predicate Near(n: nat, a: int, sum: int) {
    -(n * (n - 1)) <= 2 * (n * a - sum) <= n * (n - 1)
  }

  /** Division towards zero loses less than a unit. */
  lemma QuotientLoses(x: int, n: nat)
    requires n >= 1
    ensures -(n - 1) <= n * Quotient(x, n) - x <= n - 1
  {
    var y := if x >= 0 then x else -x;
    assert y == n * (y / n) + y % n;
    assert n * -(y / n) == -(n * (y / n));
  }

  lemma NearStep(n: nat, a: int, sum: int, x: int)
    requires Near(n, a, sum)
    ensures Near(n + 1, a + Quotient(x - a, n + 1), sum + x)
  {
    var q := Quotient(x - a, n + 1);
    QuotientLoses(x - a, n + 1);
    assert (n + 1) * (a + q) == n * a + a + (n + 1) * q;
    assert (n + 1) * n == n * (n - 1) + 2 * n;
  }

  lemma FirstIsExact(r: Report)
    ensures r.Succeeded? ==> Near(1, r.latency, r.latency)
  {
  }

  lemma {:induction false} NoneLeft(reports: seq<Report>)
    ensures Successes(reports) == 0 ==> Latencies(reports) == 0
    ensures Successes(reports) <= |reports|
  {
    if reports != [] {
      NoneLeft(reports[..|reports| - 1]);
    }
  }

  lemma AverageStep(h: Health, s: Settings, r: Report, n: nat, sum: int)
    requires h.counts.success == n && Near(n, h.avgLatency, sum) && (n == 0 ==> sum == 0) && r.Succeeded?
    ensures var z := Reported(h, s, r);
            z.counts.success == n + 1 && z.counts.failure == h.counts.failure
            && Near(n + 1, z.avgLatency, sum + r.latency)
  {
    FirstIsExact(r);
    NearStep(n, h.avgLatency, sum, r.latency);
    hide Quotient, Near, Factor;
  }

  lemma NoAverageStep(h: Health, s: Settings, r: Report)
    requires r.Failed?
    ensures var z := Reported(h, s, r);
            && z.counts.success == h.counts.success && z.counts.failure == h.counts.failure + 1
            && z.avgLatency == h.avgLatency
  {
    hide Factor;
  }

  /** After n successes, n times the average latency differs from the sum of the latencies by at most n * (n - 1) / 2:
      rounding loses less than a unit of the sum with every earlier success. */
  lemma {:induction false} AverageIsNear(s: Settings, reports: seq<Report>)
    ensures var h, n := Run(s, reports), Successes(reports);
            && h.counts.success == n && h.counts.failure == |reports| - n
            && Near(n, h.avgLatency, Latencies(reports))
  {
    hide Quotient, Factor, Near, Reported;
    if reports == [] {
      NothingIsNear();
    } else {
      var init, last := reports[..|reports| - 1], reports[|reports| - 1];
      AverageIsNear(s, init);
      NoneLeft(init);
      if last.Succeeded? {
        AverageStep(Run(s, init), s, last, Successes(init), Latencies(init));
      } else {
        NoAverageStep(Run(s, init), s, last);
      }
    }
  }

  lemma NothingIsNear()
    ensures Near(0, 0, 0)
  {
  }
}
