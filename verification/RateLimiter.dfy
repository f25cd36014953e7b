/** The per-minute sliding-window limiter of internal/balancer/limiter.go, and the limiter it stands
    for: one that logs every admitted call and never forgets. */
module RateLimiter {
  /** Nanoseconds. */
  type Time = int

  const MINUTE: Time := 60_000_000_000

  datatype Decision = Decision(allowed: bool, remaining: int, retryAfter: Time)

  type Buckets = map<string, seq<Time>>

  function Hits(b: Buckets, id: string): seq<Time> {
    if id in b then b[id] else []
  }

  /** Hits inside the window that ends now. */
  function Recent(hits: seq<Time>, now: Time): (kept: seq<Time>)
    ensures |kept| <= |hits|
    ensures forall i :: 0 <= i < |kept| ==> kept[i] > now - MINUTE && kept[i] in hits
  {
    if hits == [] then []
    else
      var last := hits[|hits| - 1];
      var before := Recent(hits[..|hits| - 1], now);
      if last > now - MINUTE then before + [last] else before
  }

  /** The answer to one call, given the hits of its window. */
  function Judge(recent: seq<Time>, limit: int, now: Time, record: bool): Decision {
    if limit <= 0 then Decision(true, -1, 0)
    else if |recent| >= limit then
      var wait := recent[0] + MINUTE - now;
      Decision(false, 0, if wait < 0 then 0 else wait)
    else Decision(true, limit - |recent| - if record then 1 else 0, 0)
  }

  /** The hits that remain after one call. */
  function After(hits: seq<Time>, limit: int, now: Time, record: bool): seq<Time> {
    if |Recent(hits, now)| < limit && record then Recent(hits, now) + [now] else Recent(hits, now)
  }

  function Pruned(b: Buckets, now: Time): Buckets {
    map id | id in b && Recent(b[id], now) != [] :: Recent(b[id], now)
  }

  /** Keeps the recent hits in front, in place; the write position never passes the read position. */
  method Compact(hits: array<Time>, windowStart: Time) returns (kept: nat)
    modifies hits
    ensures kept <= hits.Length
    ensures hits[..kept] == Recent(old(hits[..]), windowStart + MINUTE)
  {
    kept := 0;
    ghost var all := hits[..];
    assert Recent(all[..0], windowStart + MINUTE) == [];
    hide Recent;
    for i := 0 to hits.Length
      invariant kept <= i
      invariant forall j :: i <= j < hits.Length ==> hits[j] == all[j]
      invariant hits[..kept] == Recent(all[..i], windowStart + MINUTE)
    {
      ghost var before := hits[..kept];
      assert all[..i + 1] == all[..i] + [all[i]];
      RecentSnoc(all[..i], all[i], windowStart + MINUTE);
      var hit := hits[i];
      if hit > windowStart {
        hits[kept] := hit;
        kept := kept + 1;
        assert hits[..kept] == before + [hit];
      }
    }
    assert all[..hits.Length] == all;
  }

  method Kept(hits: seq<Time>, windowStart: Time) returns (kept: seq<Time>)
    ensures kept == Recent(hits, windowStart + MINUTE)
  {
    var slice := new Time[|hits|](i requires 0 <= i < |hits| => hits[i]);
    assert slice[..] == hits;
    var n := Compact(slice, windowStart);
    kept := slice[..n];
  }

  class RateLimiter {
    var buckets: Buckets

    constructor ()
      ensures buckets == map[]
    {
      buckets := map[];
    }

    method Allow(id: string, limit: int, now: Time) returns (d: Decision)
      modifies this
      ensures (d, buckets) == Step(old(buckets), Call(id, limit, now, true))
    {
      d := Decide(id, limit, now, true);
    }

    /** Only asks whether a call would be admitted. */
    method Peek(id: string, limit: int, now: Time) returns (d: Decision)
      modifies this
      ensures (d, buckets) == Step(old(buckets), Call(id, limit, now, false))
    {
      d := Decide(id, limit, now, false);
    }

    method Decide(id: string, limit: int, now: Time, record: bool) returns (d: Decision)
      modifies this
      ensures (d, buckets) == Step(old(buckets), Call(id, limit, now, record))
    {
      hide Recent;
      if limit <= 0 {
        return Decision(true, -1, 0);
      }
      var kept := Kept(Hits(buckets, id), now - MINUTE);
      if |kept| >= limit {
        buckets := buckets[id := kept];
        var retryAfter := kept[0] + MINUTE - now;
        if retryAfter < 0 {
          retryAfter := 0;
        }
        return Decision(false, 0, retryAfter);
      }
      if !record {
        buckets := buckets[id := kept];
        return Decision(true, limit - |kept|, 0);
      }
      kept := kept + [now];
      buckets := buckets[id := kept];
      return Decision(true, limit - |kept|, 0);
    }

    method Prune(now: Time)
      modifies this
      ensures buckets == Pruned(old(buckets), now)
    {
      ghost var all := buckets;
      var left := buckets.Keys;
      while left != {}
        invariant left <= buckets.Keys <= all.Keys
        invariant forall id :: id in left ==> buckets[id] == all[id]
        invariant forall id :: id in all && id !in left ==>
                    (id in buckets <==> Recent(all[id], now) != [])
                      && (id in buckets ==> buckets[id] == Recent(all[id], now))
        decreases |left|
      {
        var id :| id in left;
        left := left - {id};
        var kept := Kept(buckets[id], now - MINUTE);
        if |kept| == 0 {
          buckets := buckets - {id};
        } else {
          buckets := buckets[id := kept];
        }
      }
    }
  }

  // ---------------------------------------------------------------------------------------------
  // Runs
  // ---------------------------------------------------------------------------------------------

  /** A call that asks (and records when admitted) or only asks, or a clean-up. */
  datatype Op = Call(id: string, limit: int, now: Time, record: bool) | Clean(now: Time)

  function Step(b: Buckets, op: Op): (Decision, Buckets) {
    match op
    case Clean(now) => (Decision(true, -1, 0), Pruned(b, now))
    case Call(id, limit, now, record) =>
      (Judge(Recent(Hits(b, id), now), limit, now, record),
       if limit <= 0 then b else b[id := After(Hits(b, id), limit, now, record)])
  }

  /** The reference: every admitted call is logged, nothing is ever dropped. */
  function LogStep(log: Buckets, op: Op): (Decision, Buckets) {
    match op
    case Clean(now) => (Decision(true, -1, 0), log)
    case Call(id, limit, now, record) =>
      var d := Judge(Recent(Hits(log, id), now), limit, now, record);
      (d, if record && limit > 0 && d.allowed then log[id := Hits(log, id) + [now]] else log)
  }

  function Run(b: Buckets, ops: seq<Op>): (seq<Decision>, Buckets) {
    if ops == [] then ([], b)
    else
      var (before, b') := Run(b, ops[..|ops| - 1]);
      var (d, b'') := Step(b', ops[|ops| - 1]);
      (before + [d], b'')
  }

  function LogRun(log: Buckets, ops: seq<Op>): (seq<Decision>, Buckets) {
    if ops == [] then ([], log)
    else
      var (before, log') := LogRun(log, ops[..|ops| - 1]);
      var (d, log'') := LogStep(log', ops[|ops| - 1]);
      (before + [d], log'')
  }

  /** Time does not run backwards. */
  predicate InOrder(ops: seq<Op>) {
    forall i, j :: 0 <= i < j < |ops| ==> ops[i].now <= ops[j].now
  }

  predicate Sorted(hits: seq<Time>) {
    forall i, j :: 0 <= i < j < |hits| ==> hits[i] <= hits[j]
  }

  predicate NotAfter(ops: seq<Op>, t: Time) {
    forall i :: 0 <= i < |ops| ==> ops[i].now <= t
  }

  lemma {:induction false} RecentAgain(hits: seq<Time>, now: Time, later: Time)
    requires now <= later
    ensures Recent(Recent(hits, now), later) == Recent(hits, later)
  {
    if hits != [] {
      RecentAgain(hits[..|hits| - 1], now, later);
      RecentSnoc(Recent(hits[..|hits| - 1], now), hits[|hits| - 1], later);
    }
  }

  lemma RecentSnoc(hits: seq<Time>, hit: Time, now: Time)
    ensures Recent(hits + [hit], now) == if hit > now - MINUTE then Recent(hits, now) + [hit] else Recent(hits, now)
  {
    assert (hits + [hit])[..|hits|] == hits;
  }

  /** At time t the buckets hold what the log holds of every window from now on. */
  ghost predicate Agrees(b: Buckets, log: Buckets, t: Time) {
    forall id :: Recent(Hits(b, id), t) == Recent(Hits(log, id), t)
  }

  lemma AgreesLater(b: Buckets, log: Buckets, t: Time, later: Time)
    requires t <= later && Agrees(b, log, t)
    ensures Agrees(b, log, later)
  {
    forall id ensures Recent(Hits(b, id), later) == Recent(Hits(log, id), later) {
      RecentAgain(Hits(b, id), t, later);
      RecentAgain(Hits(log, id), t, later);
    }
  }

  lemma AgreesAt(b: Buckets, log: Buckets, t: Time, id: string)
    requires Agrees(b, log, t)
    ensures Recent(Hits(b, id), t) == Recent(Hits(log, id), t)
  {
  }

  /** What one call leaves in the window of the called bucket. */
  lemma CallKeepsWindow(hits: seq<Time>, logged: seq<Time>, limit: int, now: Time, record: bool)
    requires Recent(hits, now) == Recent(logged, now)
    ensures Recent(After(hits, limit, now, record), now) ==
            Recent(if |Recent(logged, now)| < limit && record then logged + [now] else logged, now)
  {
    RecentAgain(hits, now, now);
    RecentSnoc(Recent(hits, now), now, now);
    RecentSnoc(logged, now, now);
    hide Recent;
  }

  lemma StepAgrees(b: Buckets, log: Buckets, op: Op)
    requires Agrees(b, log, op.now)
    ensures Step(b, op).0 == LogStep(log, op).0
    ensures Agrees(Step(b, op).1, LogStep(log, op).1, op.now)
  {
    hide Recent, Agrees;
    match op
    case Clean(now) =>
      PruneAgrees(b, log, now);
    case Call(id, limit, now, record) =>
      AgreesAt(b, log, now, id);
      if limit > 0 {
        CallKeepsWindow(Hits(b, id), Hits(log, id), limit, now, record);
        hide After;
        AgreesUpdate(b, log, now, id, After(Hits(b, id), limit, now, record),
                     if |Recent(Hits(log, id), now)| < limit && record then Hits(log, id) + [now] else Hits(log, id));
      }
  }

  lemma AgreesUpdate(b: Buckets, log: Buckets, t: Time, id: string, kept: seq<Time>, logged: seq<Time>)
    requires Agrees(b, log, t) && Recent(kept, t) == Recent(logged, t)
    ensures Agrees(b[id := kept], log[id := logged], t)
    ensures logged == Hits(log, id) ==> Agrees(b[id := kept], log, t)
  {
    hide Recent;
    var b', log' := b[id := kept], log[id := logged];
    forall other ensures Recent(Hits(b', other), t) == Recent(Hits(log', other), t) {
      AgreesAt(b, log, t, other);
    }
    forall other ensures Hits(log', other) == if other == id then logged else Hits(log, other) {
    }
  }

  lemma PruneAgrees(b: Buckets, log: Buckets, t: Time)
    requires Agrees(b, log, t)
    ensures Agrees(Pruned(b, t), log, t)
  {
    forall id ensures Recent(Hits(Pruned(b, t), id), t) == Recent(Hits(log, id), t) {
      AgreesAt(b, log, t, id);
      RecentAgain(Hits(b, id), t, t);
    }
  }

  /** The pruned, compacted limiter decides every run as the limiter that remembers every hit: the
      same answers, the same remaining quota, the same waiting times. */
  lemma {:induction false} RefinesLog(ops: seq<Op>, t: Time)
    requires InOrder(ops) && NotAfter(ops, t)
    ensures Run(map[], ops).0 == LogRun(map[], ops).0
    ensures Agrees(Run(map[], ops).1, LogRun(map[], ops).1, t)
  {
    if ops != [] {
      var init, op := ops[..|ops| - 1], ops[|ops| - 1];
      RefinesLog(init, op.now);
      StepAgrees(Run(map[], init).1, LogRun(map[], init).1, op);
      AgreesLater(Step(Run(map[], init).1, op).1, LogStep(LogRun(map[], init).1, op).1, op.now, t);
    }
  }

  // ---------------------------------------------------------------------------------------------
  // What the log tells about the limiter
  // ---------------------------------------------------------------------------------------------

  /** The calls that record. */
  predicate Records(op: Op) {
    op.Call? && op.record
  }

  function Recording(ops: seq<Op>): seq<Op> {
    if ops == [] then []
    else if Records(ops[|ops| - 1]) then Recording(ops[..|ops| - 1]) + [ops[|ops| - 1]]
    else Recording(ops[..|ops| - 1])
  }

  /** Asking and cleaning up leave no trace in the log. */
  lemma {:induction false} OnlyRecordingMatters(ops: seq<Op>)
    ensures LogRun(map[], ops).1 == LogRun(map[], Recording(ops)).1
  {
    if ops != [] {
      OnlyRecordingMatters(ops[..|ops| - 1]);
      var kept := Recording(ops[..|ops| - 1]);
      assert (kept + [ops[|ops| - 1]])[..|kept|] == kept;
      hide Judge, Recent;
    }
  }

  lemma {:induction false} RecordingInOrder(ops: seq<Op>)
    requires InOrder(ops)
    ensures InOrder(Recording(ops))
    ensures forall t :: NotAfter(ops, t) ==> NotAfter(Recording(ops), t)
  {
    if ops != [] {
      var init, op := ops[..|ops| - 1], ops[|ops| - 1];
      RecordingInOrder(init);
      assert NotAfter(init, op.now);
      forall t | NotAfter(ops, t) ensures NotAfter(Recording(ops), t) {
        assert NotAfter(init, t);
      }
    }
  }

  /** Taking every Peek and Prune out of a run changes no later decision. */
  lemma PeekAndPruneAreInvisible(ops: seq<Op>, next: Op)
    requires InOrder(ops) && NotAfter(ops, next.now)
    ensures Step(Run(map[], ops).1, next).0 == Step(Run(map[], Recording(ops)).1, next).0
  {
    hide Run, LogRun, Step, LogStep, Recent;
    RefinesLog(ops, next.now);
    RecordingInOrder(ops);
    RefinesLog(Recording(ops), next.now);
    OnlyRecordingMatters(ops);
    StepAgrees(Run(map[], ops).1, LogRun(map[], ops).1, next);
    StepAgrees(Run(map[], Recording(ops)).1, LogRun(map[], Recording(ops)).1, next);
  }

  /** Times at which the limiter admitted a recording call on a bucket. */
  function Admitted(ops: seq<Op>, id: string): seq<Time> {
    if ops == [] then []
    else
      var init, op := ops[..|ops| - 1], ops[|ops| - 1];
      if Records(op) && op.id == id && op.limit > 0 && Step(Run(map[], init).1, op).0.allowed
        then Admitted(init, id) + [op.now]
      else Admitted(init, id)
  }

  lemma LogGrows(ops: seq<Op>, op: Op, id: string)
    requires InOrder(ops) && NotAfter(ops, op.now)
    ensures Hits(LogStep(LogRun(map[], ops).1, op).1, id) ==
            if Records(op) && op.id == id && op.limit > 0 && Step(Run(map[], ops).1, op).0.allowed
            then Hits(LogRun(map[], ops).1, id) + [op.now] else Hits(LogRun(map[], ops).1, id)
  {
    RefinesLog(ops, op.now);
    StepAgrees(Run(map[], ops).1, LogRun(map[], ops).1, op);
    hide Judge, Recent, Step, Run, LogRun;
  }

  lemma {:induction false} LogIsAdmitted(ops: seq<Op>, id: string)
    requires InOrder(ops)
    ensures Hits(LogRun(map[], ops).1, id) == Admitted(ops, id)
  {
    if ops != [] {
      var init, op := ops[..|ops| - 1], ops[|ops| - 1];
      LogIsAdmitted(init, id);
      LogGrows(init, op, id);
      hide Run, Step, LogStep, Recent;
    }
  }

  /** Admitted times are in order and not later than the run. */
  lemma {:induction false} AdmittedInOrder(ops: seq<Op>, id: string, t: Time)
    requires InOrder(ops) && NotAfter(ops, t)
    ensures Sorted(Admitted(ops, id))
    ensures forall i :: 0 <= i < |Admitted(ops, id)| ==> Admitted(ops, id)[i] <= t
  {
    hide Run, Step;
    if ops != [] {
      AdmittedInOrder(ops[..|ops| - 1], id, ops[|ops| - 1].now);
    }
  }

  /** Hits in the minute that ends at t. */
  function InWindow(hits: seq<Time>, t: Time): nat {
    if hits == [] then 0
    else InWindow(hits[..|hits| - 1], t) + if t - MINUTE < hits[|hits| - 1] <= t then 1 else 0
  }

  /** Every call on the bucket has a limit of at most max. */
  predicate LimitedBy(ops: seq<Op>, id: string, max: int) {
    forall i :: 0 <= i < |ops| ==> ops[i].Call? && ops[i].id == id ==> ops[i].limit <= max
  }

  lemma {:induction false} WindowIsRecent(hits: seq<Time>, now: Time, t: Time)
    requires now <= t && forall i :: 0 <= i < |hits| ==> hits[i] <= now
    ensures InWindow(hits, t) <= |Recent(hits, now)|
  {
    if hits != [] {
      WindowIsRecent(hits[..|hits| - 1], now, t);
    }
  }

  lemma {:induction false} WindowBefore(hits: seq<Time>, now: Time, t: Time)
    requires t < now
    ensures InWindow(hits + [now], t) == InWindow(hits, t)
  {
    assert (hits + [now])[..|hits|] == hits;
  }

  /** When a call is admitted, its window has room for it. */
  lemma AdmittedHasRoom(ops: seq<Op>, op: Op)
    requires InOrder(ops) && NotAfter(ops, op.now)
    requires Records(op) && op.limit > 0 && Step(Run(map[], ops).1, op).0.allowed
    ensures |Recent(Admitted(ops, op.id), op.now)| < op.limit
  {
    LogIsAdmitted(ops, op.id);
    RefinesLog(ops, op.now);
    StepAgrees(Run(map[], ops).1, LogRun(map[], ops).1, op);
    hide Recent, Run, LogRun, Admitted;
  }

  /** No minute, wherever it ends, holds more admitted calls than the limit. */
  lemma {:induction false} AtMostLimitPerMinute(ops: seq<Op>, id: string, max: nat, t: Time)
    requires InOrder(ops) && LimitedBy(ops, id, max)
    ensures InWindow(Admitted(ops, id), t) <= max
  {
    if ops != [] {
      var init, op := ops[..|ops| - 1], ops[|ops| - 1];
      AtMostLimitPerMinute(init, id, max, t);
      hide Run, Step, Recent, InWindow;
      if Admitted(ops, id) != Admitted(init, id) {
        AdmittedHasRoom(init, op);
        WindowGrows(Admitted(init, id), op.now, t);
        AdmittedInOrder(ops, id, op.now);
        WindowIsLate(Admitted(init, id), op.now, t);
      }
    }
  }

  lemma {:induction false} AllInWindow(hits: seq<Time>, now: Time)
    requires forall i :: 0 <= i < |hits| ==> hits[i] <= now
    ensures InWindow(hits, now) == |Recent(hits, now)|
  {
    if hits != [] {
      AllInWindow(hits[..|hits| - 1], now);
    }
  }

  /** A call is admitted if and only if there is no limit or the sixty seconds up to now hold fewer admitted calls
      than the limit; what remains is what is left of the limit, less this call if it is recorded. */
  lemma AdmittedIff(ops: seq<Op>, id: string, limit: int, now: Time, record: bool)
    requires InOrder(ops) && NotAfter(ops, now)
    ensures MINUTE == 60_000_000_000
    ensures var d := Step(Run(map[], ops).1, Call(id, limit, now, record)).0;
            var held := InWindow(Admitted(ops, id), now);
            && (d.allowed <==> limit <= 0 || held < limit)
            && (limit <= 0 ==> d.remaining == -1 && d.retryAfter == 0)
            && (limit > 0 && d.allowed ==>
                  d.remaining == limit - held - (if record then 1 else 0) && d.retryAfter == 0)
            && (!d.allowed ==> d.remaining == 0 && d.retryAfter >= 0)
  {
    var op := Call(id, limit, now, record);
    LogIsAdmitted(ops, id);
    RefinesLog(ops, now);
    StepAgrees(Run(map[], ops).1, LogRun(map[], ops).1, op);
    AdmittedInOrder(ops, id, now);
    AllInWindow(Admitted(ops, id), now);
    hide Recent, Run, LogRun, Admitted, InWindow;
  }

  lemma WindowGrows(hits: seq<Time>, now: Time, t: Time)
    ensures t < now ==> InWindow(hits + [now], t) == InWindow(hits, t)
  {
    if t < now {
      WindowBefore(hits, now, t);
    }
  }

  lemma WindowIsLate(hits: seq<Time>, now: Time, t: Time)
    requires forall i :: 0 <= i < |hits + [now]| ==> (hits + [now])[i] <= now
    ensures now <= t ==> InWindow(hits + [now], t) <= |Recent(hits, now)| + 1
  {
    if now <= t {
      RecentSnoc(hits, now, now);
      WindowIsRecent(hits + [now], now, t);
    }
  }

  // ---------------------------------------------------------------------------------------------
  // How long a refused caller has to wait
  // ---------------------------------------------------------------------------------------------

  lemma {:induction false} RecentSorted(hits: seq<Time>, now: Time, max: Time)
    requires Sorted(hits) && forall i :: 0 <= i < |hits| ==> hits[i] <= max
    ensures Sorted(Recent(hits, now)) && forall i :: 0 <= i < |Recent(hits, now)| ==> Recent(hits, now)[i] <= max
  {
    if hits != [] {
      RecentSorted(hits[..|hits| - 1], now, hits[|hits| - 1]);
    }
  }

  /** In a sorted bucket, at least m hits are recent exactly when the m-th from the end is. */
  lemma {:induction false} RecentCount(hits: seq<Time>, now: Time, m: nat)
    requires Sorted(hits) && 1 <= m <= |hits|
    ensures |Recent(hits, now)| >= m <==> hits[|hits| - m] > now - MINUTE
  {
    var init, last := hits[..|hits| - 1], hits[|hits| - 1];
    if last > now - MINUTE {
      if m > 1 {
        RecentCount(init, now, m - 1);
      }
    } else if m <= |init| {
      RecentCount(init, now, m);
    }
  }

  /** The bucket after a run holds, of the current window, the admitted times. */
  lemma BucketWindow(ops: seq<Op>, id: string, now: Time)
    requires InOrder(ops) && NotAfter(ops, now)
    ensures Recent(Hits(Run(map[], ops).1, id), now) == Recent(Admitted(ops, id), now)
    ensures Sorted(Recent(Admitted(ops, id), now))
  {
    hide *;
    RefinesLog(ops, now);
    AgreesAt(Run(map[], ops).1, LogRun(map[], ops).1, now, id);
    LogIsAdmitted(ops, id);
    AdmittedInOrder(ops, id, now);
    RecentSorted(Admitted(ops, id), now, now);
  }

  /** Would the call, made again after a delay, be admitted? */
  predicate AdmitsAfter(b: Buckets, call: Op, delay: Time)
    requires call.Call?
  {
    Step(b, call.(now := call.now + delay)).0.allowed
  }

  /** What a refusal tells about the bucket. */
  lemma Refused(b: Buckets, call: Op, delay: Time)
    requires call.Call? && call.limit > 0 && !Step(b, call).0.allowed
    ensures var window := Recent(Hits(b, call.id), call.now);
            && |window| >= call.limit
            && window[0] + MINUTE > call.now
            && Step(b, call).0.retryAfter == window[0] + MINUTE - call.now
            && (AdmitsAfter(Step(b, call).1, call, delay) <==> |Recent(window, call.now + delay)| < call.limit)
  {
    assert Hits(Step(b, call).1, call.id) == Recent(Hits(b, call.id), call.now);
  }

  /** A refused call is admitted, if nothing else happens, from the moment the limit-th last hit of its
      window is a minute old. */
  lemma AdmittedAgainFrom(ops: seq<Op>, call: Op, delay: Time)
    requires InOrder(ops) && NotAfter(ops, call.now)
    requires call.Call? && call.limit > 0 && delay >= 0
    requires !Step(Run(map[], ops).1, call).0.allowed
    ensures var window := Recent(Admitted(ops, call.id), call.now);
            && |window| >= call.limit
            && (AdmitsAfter(Step(Run(map[], ops).1, call).1, call, delay) <==>
                  window[|window| - call.limit] + MINUTE <= call.now + delay)
  {
    hide *;
    BucketWindow(ops, call.id, call.now);
    Refused(Run(map[], ops).1, call, delay);
    RecentCount(Recent(Admitted(ops, call.id), call.now), call.now + delay, call.limit);
  }

  /** The waiting time of a refused call is exactly the time after which it would be admitted if and
      only if the oldest hit of its window is as old as the limit-th last one. */
  lemma RetryAfterIsExact(ops: seq<Op>, call: Op)
    requires InOrder(ops) && NotAfter(ops, call.now)
    requires call.Call? && call.limit > 0
    requires !Step(Run(map[], ops).1, call).0.allowed
    ensures var (d, b) := Step(Run(map[], ops).1, call);
            var window := Recent(Admitted(ops, call.id), call.now);
            && |window| >= call.limit
            && d.retryAfter > 0
            && ((forall delay: Time :: delay >= 0 ==> (AdmitsAfter(b, call, delay) <==> delay >= d.retryAfter))
                <==> window[|window| - call.limit] == window[0])
  {
    hide *;
    var (d, b) := Step(Run(map[], ops).1, call);
    var window := Recent(Admitted(ops, call.id), call.now);
    BucketWindow(ops, call.id, call.now);
    Refused(Run(map[], ops).1, call, 0);
    var wait := window[|window| - call.limit] + MINUTE - call.now;
    OldestFirst(window, |window| - call.limit);
    forall delay: Time | delay >= 0 ensures AdmitsAfter(b, call, delay) <==> delay >= wait {
      AdmittedAgainFrom(ops, call, delay);
    }
    assert AdmitsAfter(b, call, d.retryAfter) <==> d.retryAfter >= wait;
  }

  lemma RecentTwo(x: Time, y: Time, now: Time)
    ensures Recent([], now) == []
    ensures Recent([x], now) == if x > now - MINUTE then [x] else []
    ensures Recent([x, y], now) == (if x > now - MINUTE then [x] else []) + (if y > now - MINUTE then [y] else [])
  {
    assert [x, y][..1] == [x] && [x][..0] == [];
  }

  lemma RunSnoc(b: Buckets, ops: seq<Op>, op: Op)
    ensures Run(b, ops + [op]).1 == Step(Run(b, ops).1, op).1
    ensures Run(b, []).1 == b
  {
    assert (ops + [op])[..|ops|] == ops;
    hide Step;
  }

  lemma OneStep(b: Buckets, call: Op, hits: seq<Time>)
    requires call.Call? && call.record && b == (if hits == [] then map[] else map[call.id := hits])
    requires Recent(hits, call.now) == hits && |hits| < call.limit
    ensures Step(b, call).1 == map[call.id := hits + [call.now]]
  {
    hide Recent;
  }

  lemma MisledCall(b: Buckets, call: Op)
    requires call == Call("k", 1, 2, true) && b == map["k" := [0, 1]]
    requires Recent([0, 1], 2) == [0, 1] && Recent([0, 1], MINUTE) == [1]
    ensures var (d, after) := Step(b, call);
            !d.allowed && d.retryAfter == MINUTE - 2 && !AdmitsAfter(after, call, MINUTE - 2)
  {
    hide Recent;
  }

  /** After the limit was lowered from two to one, a refused call is still refused when it waits as it was told. */
  lemma LoweredLimitMisleads()
    ensures var ops, call := [Call("k", 2, 0, true), Call("k", 2, 1, true)], Call("k", 1, 2, true);
            var (d, b) := Step(Run(map[], ops).1, call);
            !d.allowed && !AdmitsAfter(b, call, d.retryAfter)
  {
    var first, second, call := Call("k", 2, 0, true), Call("k", 2, 1, true), Call("k", 1, 2, true);
    RecentTwo(0, 1, 1);
    RecentTwo(0, 1, 2);
    RecentTwo(0, 1, MINUTE);
    OneStep(map[], first, []);
    OneStep(map["k" := [0]], second, [0]);
    RunSnoc(map[], [], first);
    RunSnoc(map[], [first], second);
    hide *;
    assert [] + [first] == [first] && [first] + [second] == [first, second];
    MisledCall(map["k" := [0, 1]], call);
  }

  lemma OldestFirst(hits: seq<Time>, i: nat)
    requires Sorted(hits) && i < |hits|
    ensures hits[0] <= hits[i]
  {
  }

  /** With one limit for the bucket, the waiting time is always exact. */
  lemma RetryAfterWithFixedLimit(ops: seq<Op>, call: Op)
    requires InOrder(ops) && NotAfter(ops, call.now)
    requires call.Call? && call.limit > 0 && LimitedBy(ops, call.id, call.limit)
    requires !Step(Run(map[], ops).1, call).0.allowed
    ensures var (d, b) := Step(Run(map[], ops).1, call);
            forall delay: Time :: delay >= 0 ==> (AdmitsAfter(b, call, delay) <==> delay >= d.retryAfter)
  {
    hide *;
    RetryAfterIsExact(ops, call);
    AtMostLimitPerMinute(ops, call.id, call.limit, call.now);
    AdmittedInOrder(ops, call.id, call.now);
    RecentIsWindow(Admitted(ops, call.id), call.now);
  }

  lemma {:induction false} RecentIsWindow(hits: seq<Time>, now: Time)
    requires forall i :: 0 <= i < |hits| ==> hits[i] <= now
    ensures |Recent(hits, now)| == InWindow(hits, now)
  {
    if hits != [] {
      RecentIsWindow(hits[..|hits| - 1], now);
    }
  }
}
