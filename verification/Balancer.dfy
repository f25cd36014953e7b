/** Choosing the order in which upstream APIs are tried (internal/balancer/balancer.go), the preference for
    declared models (internal/gateway/chat.go), and the health of an upstream API after reported calls. */
module Balancer {
  import opened Lists
  import opened Sorting
  import opened Allocation

  datatype Strategy = WeightedRandom | RoundRobin | LeastLatency | LeastInflight | Priority

  /** What the balancer looks at. */
  datatype Upstream = Upstream(
    state: ProviderState, priority: int, weight: real, inflight: int, success: nat, avgLatency: int)

  /** An empty list of ids allows all. */
  datatype Criteria = Criteria(model: string, ids: seq<string>, strategy: Option<Strategy>, now: int)

  const CURSORS: nat := 0x1_0000_0000_0000_0000

  predicate Eligible(u: Upstream, c: Criteria) {
    && Active(u.state, c.now)
    && (c.ids == [] || u.state.id in c.ids)
    && Supports(u.state, c.model)
  }

  function EligibleFor(c: Criteria): (Upstream -> bool) {
    (u: Upstream) => Eligible(u, c)
  }

  function AtLevel(priority: int): (Upstream -> bool) {
    (u: Upstream) => u.priority == priority
  }

  function Level(us: seq<Upstream>, priority: int): seq<Upstream> {
    Filtered(us, AtLevel(priority))
  }

  function LatencyScore(u: Upstream): real {
    if u.success == 0 then 0.0 else u.avgLatency as real / (if u.weight <= 0.0 then 0.001 else u.weight)
  }

  /** What the deterministic strategies sort by. */
  function Sooner(strategy: Strategy): ((Upstream, Upstream) -> bool) {
    match strategy
    case LeastInflight =>
      ((a: Upstream, b: Upstream) => if a.inflight != b.inflight then a.inflight < b.inflight else a.weight > b.weight)
    case LeastLatency => ((a: Upstream, b: Upstream) => LatencyScore(a) < LatencyScore(b))
    case _ => ((a: Upstream, b: Upstream) => a.weight > b.weight)
  }

  lemma SoonerIsAnOrder(strategy: Strategy)
    ensures StrictWeakOrder(Sooner(strategy))
  {
    hide LatencyScore;
  }

  /** A weight of zero or less counts as a thousandth. */
  function EffectiveWeight(u: Upstream): real {
    if u.weight > 0.0 then u.weight else 0.001
  }

  lemma ScoresCompare(a: Upstream, b: Upstream)
    ensures LatencyScore(a) <= LatencyScore(b) <==>
              (if a.success > 0 then a.avgLatency as real else 0.0) * EffectiveWeight(b) <=
              (if b.success > 0 then b.avgLatency as real else 0.0) * EffectiveWeight(a)
  {
    var x := if a.success > 0 then a.avgLatency as real else 0.0;
    var y := if b.success > 0 then b.avgLatency as real else 0.0;
    var v, w := EffectiveWeight(a), EffectiveWeight(b);
    assert LatencyScore(a) == x / v && LatencyScore(b) == y / w;
    RatiosCompare(x, v, y, w);
  }

  lemma RatiosCompare(x: real, v: real, y: real, w: real)
    requires v > 0.0 && w > 0.0
    ensures x / v <= y / w <==> x * w <= y * v
  {
    var p, q := x / v, y / w;
    assert p * v == x && q * w == y;
    assert x * w == p * (v * w) && y * v == q * (v * w);
    assert v * w > 0.0;
    if p <= q {
      assert p * (v * w) <= q * (v * w);
    } else {
      assert p * (v * w) > q * (v * w);
    }
  }

  /** Fewest requests under way first and then the heaviest; or the least average latency for its weight first,
      nothing measured counting as none; or the heaviest first. */
  predicate NoLater(a: Upstream, b: Upstream, strategy: Strategy) {
    && (strategy.LeastInflight? ==>
          a.inflight <= b.inflight && (a.inflight == b.inflight ==> a.weight >= b.weight))
    && (strategy.LeastLatency? ==>
          (if a.success > 0 then a.avgLatency as real else 0.0) * EffectiveWeight(b) <=
          (if b.success > 0 then b.avgLatency as real else 0.0) * EffectiveWeight(a))
    && (strategy.Priority? ==> a.weight >= b.weight)
  }

  lemma NotSooner(a: Upstream, b: Upstream, strategy: Strategy)
    requires !Sooner(strategy)(b, a)
    ensures NoLater(a, b, strategy)
  {
    ScoresCompare(a, b);
    hide LatencyScore, EffectiveWeight;
  }

  /** What sorting a group comes to, in fields; those that agree in what is compared stay in order. */
  lemma SortedInFields(group: seq<Upstream>, strategy: Strategy, v: Upstream)
    ensures var list := StableSorted(group, Sooner(strategy));
            && multiset(list) == multiset(group)
            && (forall i, j :: 0 <= i < j < |list| ==> NoLater(list[i], list[j], strategy))
            && Ties(list, v, Sooner(strategy)) == Ties(group, v, Sooner(strategy))
  {
    hide *;
    var list := StableSorted(group, Sooner(strategy));
    SoonerIsAnOrder(strategy);
    SortPermutes(group, Sooner(strategy));
    SortSorts(group, Sooner(strategy));
    SortIsStable(group, v, Sooner(strategy));
    forall i, j | 0 <= i < j < |list| ensures NoLater(list[i], list[j], strategy) {
      NoneSooner(list, strategy, i, j);
      NotSooner(list[i], list[j], strategy);
    }
  }

  lemma NoneSooner(list: seq<Upstream>, strategy: Strategy, i: nat, j: nat)
    requires SortedBy(list, Sooner(strategy)) && i < j < |list|
    ensures !Sooner(strategy)(list[j], list[i])
  {
  }

  predicate Sorts(strategy: Strategy) {
    strategy.LeastInflight? || strategy.LeastLatency? || strategy.Priority?
  }

  function Rotated<T>(xs: seq<T>, k: nat): seq<T>
    requires k <= |xs|
  {
    xs[k..] + xs[..k]
  }

  predicate Falling(us: seq<Upstream>) {
    forall i, j :: 0 <= i < j < |us| ==> us[i].priority >= us[j].priority
  }

  // ---------------------------------------------------------------------------------------------
  // Drawing by weight
  // ---------------------------------------------------------------------------------------------

  function WeightOf(us: seq<Upstream>): real {
    if us == [] then 0.0 else WeightOf(us[..|us| - 1]) + us[|us| - 1].weight
  }

  /** Weight of the first k. */
  function UpTo(us: seq<Upstream>, k: nat): real
    requires k <= |us|
  {
    WeightOf(us[..k])
  }

  /** The first position at which the weights so far reach the target, or the last one. */
  predicate IsDrawn(pool: seq<Upstream>, target: real, chosen: nat) {
    && chosen < |pool|
    && (forall k :: 1 <= k <= chosen ==> UpTo(pool, k) < target)
    && (chosen < |pool| - 1 ==> UpTo(pool, chosen + 1) >= target)
  }

  lemma NextWeight(us: seq<Upstream>, k: nat)
    requires k < |us|
    ensures UpTo(us, k + 1) == UpTo(us, k) + us[k].weight
  {
    assert us[..k + 1][..k] == us[..k];
  }

  /** A random number of the unit interval, scaled to the total weight. */
  function Target(pool: seq<Upstream>, unit: real): real {
    unit * WeightOf(pool)
  }

  /** Drawing one after the other without replacement, from the n-th random number on. */
  ghost predicate DrawnInTurn(result: seq<Upstream>, pool: seq<Upstream>, random: nat -> real, n: nat)
    decreases |pool|
  {
    if pool == [] then result == []
    else
      && result != []
      && exists chosen: nat ::
           && chosen < |pool| && IsDrawn(pool, Target(pool, random(n)), chosen)
           && result[0] == pool[chosen]
           && DrawnInTurn(result[1..], Without(pool, chosen), random, n + 1)
  }

  function Without<T>(xs: seq<T>, k: nat): (rest: seq<T>)
    requires k < |xs|
    ensures |rest| == |xs| - 1
  {
    xs[..k] + xs[k + 1..]
  }

  method Draw(pool: seq<Upstream>, target: real) returns (chosen: nat)
    requires pool != []
    ensures chosen < |pool| && IsDrawn(pool, target, chosen)
  {
    var left := target;
    for i := 0 to |pool|
      invariant left == target - UpTo(pool, i)
      invariant forall k :: 1 <= k <= i ==> UpTo(pool, k) < target
    {
      NextWeight(pool, i);
      left := left - pool[i].weight;
      if left <= 0.0 {
        return i;
      }
    }
    return |pool| - 1;
  }

  lemma {:induction false} WeightsGrow(us: seq<Upstream>, i: nat, j: nat)
    requires i <= j <= |us| && forall k :: 0 <= k < |us| ==> us[k].weight > 0.0
    ensures UpTo(us, i) <= UpTo(us, j)
    decreases j - i
  {
    if i < j {
      WeightsGrow(us, i, j - 1);
      NextWeight(us, j - 1);
    }
  }

  /** With positive weights a position is drawn exactly for the targets in its own share of the total, a
      half-open interval as long as its weight. */
  lemma DrawnIffInShare(pool: seq<Upstream>, target: real, i: nat)
    requires i < |pool| && forall k :: 0 <= k < |pool| ==> pool[k].weight > 0.0
    requires 0.0 < target <= UpTo(pool, |pool|)
    ensures IsDrawn(pool, target, i) <==> UpTo(pool, i) < target <= UpTo(pool, i + 1)
    ensures UpTo(pool, i + 1) - UpTo(pool, i) == pool[i].weight
  {
    NextWeight(pool, i);
    NoWeight(pool);
    hide UpTo;
    if UpTo(pool, i) < target <= UpTo(pool, i + 1) {
      forall k | 1 <= k <= i ensures UpTo(pool, k) < target {
        WeightsGrow(pool, k, i);
      }
    }
  }

  lemma NoWeight(us: seq<Upstream>)
    ensures UpTo(us, 0) == 0.0
  {
  }

  lemma WithoutOne<T>(xs: seq<T>, k: nat)
    requires k < |xs|
    ensures multiset(Without(xs, k)) + multiset([xs[k]]) == multiset(xs)
  {
    assert xs == xs[..k] + [xs[k]] + xs[k + 1..];
  }

  /** Whatever the random numbers, everything is drawn exactly once. */
  lemma {:induction false} DrawsPermute(result: seq<Upstream>, pool: seq<Upstream>, random: nat -> real, n: nat)
    requires DrawnInTurn(result, pool, random, n)
    ensures multiset(result) == multiset(pool)
    decreases |pool|
  {
    hide IsDrawn, Target, Without;
    if pool != [] {
      var chosen: nat :| chosen < |pool| && IsDrawn(pool, Target(pool, random(n)), chosen) && result[0] == pool[chosen]
        && DrawnInTurn(result[1..], Without(pool, chosen), random, n + 1);
      DrawsPermute(result[1..], Without(pool, chosen), random, n + 1);
      WithoutOne(pool, chosen);
      assert result == [result[0]] + result[1..];
    }
  }

  // ---------------------------------------------------------------------------------------------
  // The balancer
  // ---------------------------------------------------------------------------------------------

  class Balancer {
    var defaultStrategy: Strategy
    var cursor: nat
    var draws: nat
    const random: nat -> real

    method SortGroup(group: seq<Upstream>, strategy: Strategy) returns (list: seq<Upstream>)
      requires group != []
      modifies this`cursor, this`draws
      ensures multiset(list) == multiset(group)
      ensures strategy.RoundRobin? ==>
                cursor == (old(cursor) + 1) % CURSORS && list == Rotated(group, old(cursor) % |group|)
      ensures !strategy.RoundRobin? ==> cursor == old(cursor)
      ensures strategy.WeightedRandom? ==> DrawnInTurn(list, group, random, old(draws))
      ensures Sorts(strategy) ==> list == StableSorted(group, Sooner(strategy))
      ensures forall i, j :: 0 <= i < j < |list| && Sorts(strategy) ==> NoLater(list[i], list[j], strategy)
    {
      match strategy {
        case RoundRobin =>
          var offset := cursor % |group|;
          cursor := (cursor + 1) % CURSORS;
          list := group[offset..] + group[..offset];
          assert group == group[..offset] + group[offset..];
        case WeightedRandom =>
          list := WeightedShuffle(group);
          DrawsPermute(list, group, random, old(draws));
        case _ =>
          SortPermutes(group, Sooner(strategy));
          SortedInFields(group, strategy, group[0]);
          list := StableSorted(group, Sooner(strategy));
      }
    }

    method WeightedShuffle(list: seq<Upstream>) returns (result: seq<Upstream>)
      modifies this`draws
      ensures DrawnInTurn(result, list, random, old(draws))
      decreases |list|
    {
      hide IsDrawn, Target, DrawnInTurn;
      var pool := list;
      result := [];
      assert forall rest: seq<Upstream> :: [] + rest == rest;
      while |pool| > 0
        invariant forall rest :: DrawnInTurn(rest, pool, random, draws) ==>
                    DrawnInTurn(result + rest, list, random, old(draws))
      {
        var target := Target(pool, random(draws));
        var chosen := Draw(pool, target);
        DrawFirst(pool, random, draws, chosen);
        ghost var before, first := result, pool[chosen];
        draws := draws + 1;
        result := result + [pool[chosen]];
        pool := Without(pool, chosen);
        forall rest | DrawnInTurn(rest, pool, random, draws)
          ensures DrawnInTurn(result + rest, list, random, old(draws)) {
          assert result + rest == before + ([first] + rest);
        }
      }
      NothingDrawn(random, draws);
      assert result + [] == result;
    }

    /** Upstream APIs that may be tried at all, in their stored order. */
    static method Candidates(providers: seq<Upstream>, c: Criteria) returns (result: seq<Upstream>)
      ensures result == Filtered(providers, EligibleFor(c))
    {
      result := [];
      for i := 0 to |providers|
        invariant result == Filtered(providers[..i], EligibleFor(c))
      {
        assert providers[..i + 1][..i] == providers[..i];
        var u := providers[i];
        if !u.state.enabled || u.state.cooldownUntil > c.now {
          continue;
        }
        if |c.ids| > 0 && u.state.id !in c.ids {
          continue;
        }
        if !Supports(u.state, c.model) {
          continue;
        }
        result := result + [u];
      }
      assert providers[..|providers|] == providers;
    }

    /** The upstream APIs by priority, and the priorities in the order of their appearance. */
    static method GroupByPriority(pool: seq<Upstream>) returns (priorities: seq<int>, groups: map<int, seq<Upstream>>)
      ensures Grouped(pool, priorities, groups)
    {
      hide Level, Grouped;
      priorities, groups := [], map[];
      NoGroups();
      NoLevels();
      for i := 0 to |pool|
        invariant Grouped(pool[..i], priorities, groups)
      {
        GroupedSnoc(pool, i, priorities, groups);
        var p := pool[i].priority;
        if p !in groups {
          priorities := priorities + [p];
        }
        groups := groups[p := (if p in groups then groups[p] else []) + [pool[i]]];
      }
      assert pool[..|pool|] == pool;
    }

    /** Orders the eligible upstream APIs: higher priorities first, and within one priority as the strategy
        says. */
    method Order(providers: seq<Upstream>, c: Criteria) returns (ordered: seq<Upstream>)
      modifies this`cursor, this`draws
      ensures var pool := Filtered(providers, EligibleFor(c));
              var strategy := if c.strategy.Some? then c.strategy.value else defaultStrategy;
              && multiset(ordered) == multiset(pool) && Falling(ordered)
              && (forall p :: Arranged(Level(ordered, p), Level(pool, p), strategy, random))
              && (strategy.RoundRobin? && |pool| > 1 && OneLevel(pool) ==>
                    ordered == Rotated(pool, old(cursor) % |pool|) && cursor == (old(cursor) + 1) % CURSORS)
              && (strategy.WeightedRandom? && |pool| > 1 && OneLevel(pool) ==>
                    DrawnInTurn(ordered, pool, random, old(draws)))
    {
      hide Level, Arranged, Grouped, Falling, OneLevel;
      var pool := Candidates(providers, c);
      if |pool| <= 1 {
        SmallIsOrdered(pool, if c.strategy.Some? then c.strategy.value else defaultStrategy, random);
        return pool;
      }
      var strategy := if c.strategy.Some? then c.strategy.value else defaultStrategy;
      var priorities, groups := GroupByPriority(pool);
      FallingPriorities(pool, priorities, groups);
      ordered := OrderLevels(pool, StableSorted(priorities, Higher()), groups, strategy);
    }

    /** Several orders one after the other, by round robin over one priority. */
    method OrderRepeatedly(providers: seq<Upstream>, c: Criteria, times: nat) returns (orders: seq<seq<Upstream>>)
      requires c.strategy == Some(RoundRobin) && cursor < CURSORS
      requires var pool := Filtered(providers, EligibleFor(c)); |pool| > 1 && OneLevel(pool)
      modifies this`cursor, this`draws
      ensures |orders| == times && InTurn(orders, Filtered(providers, EligibleFor(c)), old(cursor))
      ensures cursor == CursorAfter(old(cursor), times)
    {
      hide OneLevel, Rotated, Falling, Level, Arranged, Filtered, DrawnInTurn;
      orders := [];
      for j := 0 to times
        invariant |orders| == j && cursor == CursorAfter(old(cursor), j)
        invariant InTurn(orders, Filtered(providers, EligibleFor(c)), old(cursor))
      {
        var ordered := Order(providers, c);
        orders := orders + [ordered];
      }
    }

    /** Concatenates the ordered groups. */
    method OrderLevels(pool: seq<Upstream>, priorities: seq<int>, groups: map<int, seq<Upstream>>, strategy: Strategy)
      returns (ordered: seq<Upstream>)
      requires pool != [] && Grouped(pool, priorities, groups) && Descending(priorities)
      modifies this`cursor, this`draws
      ensures multiset(ordered) == multiset(pool) && Falling(ordered)
      ensures forall p :: Arranged(Level(ordered, p), Level(pool, p), strategy, random)
      ensures strategy.RoundRobin? && OneLevel(pool) ==>
                ordered == Rotated(pool, old(cursor) % |pool|) && cursor == (old(cursor) + 1) % CURSORS
      ensures strategy.WeightedRandom? && OneLevel(pool) ==> DrawnInTurn(ordered, pool, random, old(draws))
    {
      hide Level, Arranged, StableSorted, DrawnInTurn, Falling, Above, Rotated, LevelsDone, OneLevel, Sorts;
      ordered := [];
      NothingOrdered(pool, priorities, strategy, random);
      for j := 0 to |priorities|
        invariant Falling(ordered) && Above(ordered, priorities, j)
        invariant LevelsDone(ordered, pool, priorities[..j], strategy, random)
        invariant j == 0 ==> cursor == old(cursor) && draws == old(draws) && ordered == []
        invariant j == 1 && strategy.WeightedRandom? ==>
                    priorities[0] in groups && DrawnInTurn(ordered, groups[priorities[0]], random, old(draws))
        invariant j == 1 && strategy.RoundRobin? ==>
                    priorities[0] in groups && FirstTurn(ordered, groups[priorities[0]], old(cursor), cursor)
      {
        var p := priorities[j];
        ghost var at, drawn := cursor, draws;
        var list := SortGroup(groups[p], strategy);
        GroupIsArranged(list, groups[p], strategy, at, random, drawn);
        AddLevel(ordered, pool, priorities, j, groups, strategy, random, list);
        assert j == 0 ==> ordered + list == list;
        ordered := ordered + list;
      }
      AllLevels(ordered, pool, priorities, groups, strategy, random);
      OneGroup(pool, priorities, groups);
    }
  }

  /** A round-robin turn over one group. */
  ghost predicate FirstTurn(list: seq<Upstream>, group: seq<Upstream>, before: nat, after: nat) {
    group != [] && list == Rotated(group, before % |group|) && after == (before + 1) % CURSORS
  }

  /** The groups hold the levels of the pool, and the priorities name each level once. */
  ghost predicate Grouped(pool: seq<Upstream>, priorities: seq<int>, groups: map<int, seq<Upstream>>) {
    && (forall i, j :: 0 <= i < j < |priorities| ==> priorities[i] != priorities[j])
    && (forall p :: p in priorities <==> p in groups)
    && (forall p :: (if p in groups then groups[p] else []) == Level(pool, p))
    && (forall p :: p in groups ==> groups[p] != [])
  }

  predicate Descending(priorities: seq<int>) {
    forall i, j :: 0 <= i < j < |priorities| ==> priorities[i] > priorities[j]
  }

  predicate OneLevel(pool: seq<Upstream>) {
    forall i, j :: 0 <= i < |pool| && 0 <= j < |pool| ==> pool[i].priority == pool[j].priority
  }

  /** A group after its strategy: a permutation, and which one for the deterministic strategies. */
  ghost predicate Arranged(list: seq<Upstream>, group: seq<Upstream>, strategy: Strategy, random: nat -> real) {
    && multiset(list) == multiset(group)
    && (Sorts(strategy) ==> list == StableSorted(group, Sooner(strategy)))
    && (strategy.RoundRobin? ==> exists k: nat :: k <= |group| && list == Rotated(group, k))
    && (strategy.WeightedRandom? ==> exists n: nat :: DrawnInTurn(list, group, random, n))
  }

  ghost predicate LevelDone(ordered: seq<Upstream>, pool: seq<Upstream>, done: seq<int>, p: int,
      strategy: Strategy, random: nat -> real) {
    if p in done then Arranged(Level(ordered, p), Level(pool, p), strategy, random) else Level(ordered, p) == []
  }

  ghost predicate LevelsDone(ordered: seq<Upstream>, pool: seq<Upstream>, done: seq<int>,
      strategy: Strategy, random: nat -> real) {
    forall p :: LevelDone(ordered, pool, done, p, strategy, random)
  }

  /** Everything ordered so far has a higher priority than what is to come. */
  predicate Above(ordered: seq<Upstream>, priorities: seq<int>, j: nat) {
    forall i, k :: 0 <= i < |ordered| && j <= k < |priorities| ==> ordered[i].priority > priorities[k]
  }

  function Higher(): ((int, int) -> bool) {
    (a: int, b: int) => a > b
  }

  lemma NoLevels()
    ensures forall p :: Level([], p) == []
  {
  }

  lemma LevelSnoc(pool: seq<Upstream>, i: nat)
    requires i < |pool|
    ensures forall p :: Level(pool[..i + 1], p) == if pool[i].priority == p then Level(pool[..i], p) + [pool[i]]
            else Level(pool[..i], p)
  {
    assert pool[..i + 1][..i] == pool[..i];
  }

  lemma NoGroups()
    ensures Grouped([], [], map[])
  {
  }

  /** One more upstream API goes to the group of its priority. */
  lemma GroupedSnoc(pool: seq<Upstream>, i: nat, priorities: seq<int>, groups: map<int, seq<Upstream>>)
    requires i < |pool| && Grouped(pool[..i], priorities, groups)
    ensures var p := pool[i].priority;
            Grouped(
              pool[..i + 1], if p in groups then priorities else priorities + [p],
              groups[p := (if p in groups then groups[p] else []) + [pool[i]]])
  {
    hide Level;
    LevelSnoc(pool, i);
    var p := pool[i].priority;
    var before := if p in groups then groups[p] else [];
    assert before == Level(pool[..i], p);
    var after := groups[p := before + [pool[i]]];
    forall q ensures (if q in after then after[q] else []) == Level(pool[..i + 1], q) {
      assert (if q in groups then groups[q] else []) == Level(pool[..i], q);
    }
  }

  lemma {:induction false} LevelConcat(a: seq<Upstream>, b: seq<Upstream>, p: int)
    ensures Level(a + b, p) == Level(a, p) + Level(b, p)
    decreases |b|
  {
    if b == [] {
      assert a + b == a;
    } else {
      LevelConcat(a, b[..|b| - 1], p);
      assert (a + b)[..|a + b| - 1] == a + b[..|b| - 1];
    }
  }

  lemma {:induction false} LevelOfOne(us: seq<Upstream>, p: int, q: int)
    requires forall i :: 0 <= i < |us| ==> us[i].priority == p
    ensures Level(us, q) == if q == p then us else []
  {
    if us != [] {
      LevelOfOne(us[..|us| - 1], p, q);
    }
  }

  lemma {:induction false} LevelMembers(us: seq<Upstream>, p: int)
    ensures forall u :: multiset(Level(us, p))[u] == if u.priority == p then multiset(us)[u] else 0
  {
    if us != [] {
      var init, last := us[..|us| - 1], us[|us| - 1];
      LevelMembers(init, p);
      assert us == init + [last];
      assert multiset(us) == multiset(init) + multiset{last};
    }
  }

  lemma SmallIsOrdered(pool: seq<Upstream>, strategy: Strategy, random: nat -> real)
    requires |pool| <= 1
    ensures Falling(pool) && forall p :: Arranged(Level(pool, p), Level(pool, p), strategy, random)
  {
    forall p ensures Arranged(Level(pool, p), Level(pool, p), strategy, random) {
      LevelIsShorter(pool, p);
      SmallIsArranged(Level(pool, p), strategy, random);
    }
  }

  lemma {:induction false} LevelIsShorter(us: seq<Upstream>, p: int)
    ensures |Level(us, p)| <= |us|
  {
    if us != [] {
      LevelIsShorter(us[..|us| - 1], p);
    }
  }

  lemma NothingOrdered(pool: seq<Upstream>, priorities: seq<int>, strategy: Strategy, random: nat -> real)
    ensures Falling([]) && Above([], priorities, 0) && LevelsDone([], pool, priorities[..0], strategy, random)
  {
    NoLevels();
  }

  lemma GroupIsArranged(list: seq<Upstream>, group: seq<Upstream>, strategy: Strategy, cursor: nat,
      random: nat -> real, draws: nat)
    requires group != [] && multiset(list) == multiset(group)
    requires strategy.RoundRobin? ==> list == Rotated(group, cursor % |group|)
    requires strategy.WeightedRandom? ==> DrawnInTurn(list, group, random, draws)
    requires Sorts(strategy) ==> list == StableSorted(group, Sooner(strategy))
    ensures Arranged(list, group, strategy, random)
  {
    hide DrawnInTurn;
    assert cursor % |group| <= |group|;
  }

  lemma SmallIsArranged(list: seq<Upstream>, strategy: Strategy, random: nat -> real)
    requires |list| <= 1
    ensures Arranged(list, list, strategy, random)
  {
    assert Rotated(list, 0) == list;
    assert list != [] ==> list[..0] == [] && StableSorted(list[..0], Sooner(strategy)) == [];
    if list == [] {
      NothingDrawn(random, 0);
    } else {
      OneDrawn(list[0], random, 0);
      assert list == [list[0]];
    }
  }

  lemma {:induction false} DistinctIsOnce(xs: seq<int>)
    requires forall i, j :: 0 <= i < j < |xs| ==> xs[i] != xs[j]
    ensures forall x :: multiset(xs)[x] <= 1
  {
    if xs != [] {
      var init, last := xs[..|xs| - 1], xs[|xs| - 1];
      DistinctIsOnce(init);
      assert xs == init + [last];
      assert last !in init;
    }
  }

  lemma {:induction false} AllSame(xs: seq<int>, x: int)
    requires forall i :: 0 <= i < |xs| ==> xs[i] == x
    ensures multiset(xs)[x] == |xs|
  {
    if xs != [] {
      AllSame(xs[..|xs| - 1], x);
      assert xs == xs[..|xs| - 1] + [x];
    }
  }

  lemma OnceIsDistinct(xs: seq<int>)
    requires forall x :: multiset(xs)[x] <= 1
    ensures forall i, j :: 0 <= i < j < |xs| ==> xs[i] != xs[j]
  {
    forall i, j | 0 <= i < j < |xs| ensures xs[i] != xs[j] {
      assert xs == xs[..j] + [xs[j]] + xs[j + 1..];
      assert xs[i] == xs[..j][i];
      assert multiset(xs)[xs[j]] >= multiset(xs[..j])[xs[j]] + 1;
    }
  }

  lemma HigherIsOrder()
    ensures StrictWeakOrder(Higher())
  {
  }

  lemma FallingPriorities(pool: seq<Upstream>, priorities: seq<int>, groups: map<int, seq<Upstream>>)
    requires Grouped(pool, priorities, groups)
    ensures var sorted := StableSorted(priorities, Higher()); Descending(sorted) && Grouped(pool, sorted, groups)
  {
    var sorted := StableSorted(priorities, Higher());
    HigherIsOrder();
    SortPermutes(priorities, Higher());
    SortSorts(priorities, Higher());
    DistinctIsOnce(priorities);
    OnceIsDistinct(sorted);
    hide StableSorted, Level;
    forall i, j | 0 <= i < j < |sorted| ensures sorted[i] > sorted[j] {
      assert !Higher()(sorted[j], sorted[i]);
    }
    forall p ensures p in sorted <==> p in priorities {
      assert p in multiset(sorted) <==> p in multiset(priorities);
    }
  }

  lemma OneGroup(pool: seq<Upstream>, priorities: seq<int>, groups: map<int, seq<Upstream>>)
    requires pool != [] && Grouped(pool, priorities, groups)
    ensures OneLevel(pool) ==> |priorities| == 1 && priorities[0] in groups && groups[priorities[0]] == pool
  {
    if OneLevel(pool) {
      var q := pool[0].priority;
      forall p ensures Level(pool, p) == if p == q then pool else [] {
        LevelOfOne(pool, q, p);
      }
      OnlyLevel(pool, priorities, groups, q);
    }
  }

  lemma OnlyLevel(pool: seq<Upstream>, priorities: seq<int>, groups: map<int, seq<Upstream>>, q: int)
    requires pool != [] && Grouped(pool, priorities, groups)
    requires forall p :: Level(pool, p) == if p == q then pool else []
    ensures |priorities| == 1 && priorities[0] in groups && groups[priorities[0]] == pool
  {
    hide Level;
    assert (if q in groups then groups[q] else []) == Level(pool, q);
    assert q in groups && q in priorities;
    forall i | 0 <= i < |priorities| ensures priorities[i] == q {
      var p := priorities[i];
      assert p in groups && groups[p] == Level(pool, p);
    }
    DistinctIsOnce(priorities);
    AllSame(priorities, q);
  }

  lemma AddLevel(
      ordered: seq<Upstream>, pool: seq<Upstream>, priorities: seq<int>, j: nat, groups: map<int, seq<Upstream>>,
      strategy: Strategy, random: nat -> real, list: seq<Upstream>)
    requires j < |priorities| && Grouped(pool, priorities, groups) && Descending(priorities)
    requires Falling(ordered) && Above(ordered, priorities, j)
    requires LevelsDone(ordered, pool, priorities[..j], strategy, random)
    requires priorities[j] in groups && Arranged(list, groups[priorities[j]], strategy, random)
    ensures Falling(ordered + list) && Above(ordered + list, priorities, j + 1)
    ensures LevelsDone(ordered + list, pool, priorities[..j + 1], strategy, random)
  {
    var q := priorities[j];
    assert groups[q] == Level(pool, q);
    ListIsOfLevel(list, pool, q);
    StillFalling(ordered, priorities, j, list);
    hide Level, Arranged, Above, Falling, LevelDone;
    var longer, done := ordered + list, priorities[..j + 1];
    assert done == priorities[..j] + [q];
    forall p ensures LevelDone(longer, pool, done, p, strategy, random) {
      OneMoreLevel(ordered, pool, priorities[..j], strategy, random, q, list, p);
    }
  }

  lemma OneMoreLevel(
      ordered: seq<Upstream>, pool: seq<Upstream>, done: seq<int>, strategy: Strategy, random: nat -> real, q: int,
      list: seq<Upstream>, p: int)
    requires LevelDone(ordered, pool, done, p, strategy, random) && q !in done
    requires Arranged(list, Level(pool, q), strategy, random) && forall i :: 0 <= i < |list| ==> list[i].priority == q
    ensures LevelDone(ordered + list, pool, done + [q], p, strategy, random)
  {
    hide Level, Arranged;
    LevelConcat(ordered, list, p);
    LevelOfOne(list, q, p);
    assert Level(ordered, p) + [] == Level(ordered, p) && [] + list == list;
  }

  lemma StillFalling(ordered: seq<Upstream>, priorities: seq<int>, j: nat, list: seq<Upstream>)
    requires j < |priorities| && Descending(priorities) && Falling(ordered) && Above(ordered, priorities, j)
    requires forall i :: 0 <= i < |list| ==> list[i].priority == priorities[j]
    ensures Falling(ordered + list) && Above(ordered + list, priorities, j + 1)
  {
  }

  lemma ListIsOfLevel(list: seq<Upstream>, pool: seq<Upstream>, q: int)
    requires multiset(list) == multiset(Level(pool, q))
    ensures forall i :: 0 <= i < |list| ==> list[i].priority == q
  {
    LevelMembers(pool, q);
    hide Level;
    forall i | 0 <= i < |list| ensures list[i].priority == q {
      assert list[i] in multiset(list);
    }
  }

  lemma AllLevels(ordered: seq<Upstream>, pool: seq<Upstream>, priorities: seq<int>, groups: map<int, seq<Upstream>>,
      strategy: Strategy, random: nat -> real)
    requires Grouped(pool, priorities, groups)
    requires LevelsDone(ordered, pool, priorities[..|priorities|], strategy, random)
    ensures multiset(ordered) == multiset(pool)
    ensures forall p :: Arranged(Level(ordered, p), Level(pool, p), strategy, random)
  {
    hide Level;
    assert priorities[..|priorities|] == priorities;
    SmallIsArranged([], strategy, random);
    forall p ensures Arranged(Level(ordered, p), Level(pool, p), strategy, random) {
      assert LevelDone(ordered, pool, priorities, p, strategy, random);
      assert p !in groups ==> Level(pool, p) == [];
    }
    forall u ensures multiset(ordered)[u] == multiset(pool)[u] {
      LevelMembers(ordered, u.priority);
      LevelMembers(pool, u.priority);
      assert Arranged(Level(ordered, u.priority), Level(pool, u.priority), strategy, random);
    }
  }

  lemma DrawFirst(pool: seq<Upstream>, random: nat -> real, n: nat, chosen: nat)
    requires chosen < |pool| && IsDrawn(pool, Target(pool, random(n)), chosen)
    ensures forall rest ::
              DrawnInTurn(rest, Without(pool, chosen), random, n + 1) ==>
              DrawnInTurn([pool[chosen]] + rest, pool, random, n)
  {
    hide IsDrawn, Target, Without;
    forall rest | DrawnInTurn(rest, Without(pool, chosen), random, n + 1)
      ensures DrawnInTurn([pool[chosen]] + rest, pool, random, n) {
      assert ([pool[chosen]] + rest)[1..] == rest;
    }
  }

  /** What is alone is drawn whatever the random number. */
  lemma OneDrawn(u: Upstream, random: nat -> real, n: nat)
    ensures DrawnInTurn([u], [u], random, n)
  {
    NothingDrawn(random, n + 1);
    assert Without([u], 0) == [];
    assert IsDrawn([u], Target([u], random(n)), 0);
    DrawFirst([u], random, n, 0);
    assert [u] + [] == [u];
  }

  lemma NothingDrawn(random: nat -> real, n: nat)
    ensures DrawnInTurn([], [], random, n)
  {
  }

  // ---------------------------------------------------------------------------------------------
  // Declared models first
  // ---------------------------------------------------------------------------------------------

  function DeclaringModel(model: string): (Upstream -> bool) {
    (u: Upstream) => DeclaredBy(u.state, model)
  }

  /** Upstream APIs that declare the model come first; both parts keep their order. */
  method PreferDeclaredModel(providers: seq<Upstream>, model: string) returns (result: seq<Upstream>)
    ensures result == Filtered(providers, DeclaringModel(model)) + Filtered(providers, Not(DeclaringModel(model)))
    ensures multiset(result) == multiset(providers)
  {
    hide *;
    var declaring := DeclaringModel(model);
    Partitioned(providers, declaring);
    if model == "" || |providers| <= 1 {
      NothingToPrefer(providers, model);
      return providers;
    }
    var declared, others := [], [];
    NothingFiltered(declaring);
    NothingFiltered(Not(declaring));
    for i := 0 to |providers|
      invariant declared == Filtered(providers[..i], declaring)
      invariant others == Filtered(providers[..i], Not(declaring))
    {
      FilteredNext(providers, i, declaring);
      FilteredNext(providers, i, Not(declaring));
      DeclaringIs(model, providers[i]);
      if providers[i].state.declares(model) {
        declared := declared + [providers[i]];
        continue;
      }
      others := others + [providers[i]];
    }
    assert providers[..|providers|] == providers;
    OnePartOnly(providers, declaring);
    if |declared| == 0 || |others| == 0 {
      return providers;
    }
    return declared + others;
  }

  lemma DeclaringIs(model: string, u: Upstream)
    requires model != ""
    ensures DeclaringModel(model)(u) == u.state.declares(model)
    ensures Not(DeclaringModel(model))(u) == !u.state.declares(model)
  {
  }

  lemma OnePartOnly(us: seq<Upstream>, keep: Upstream -> bool)
    ensures |Filtered(us, keep)| == 0 || |Filtered(us, Not(keep))| == 0
            ==> Filtered(us, keep) + Filtered(us, Not(keep)) == us
  {
    Partitioned(us, keep);
    hide Filtered;
    if |Filtered(us, keep)| == 0 {
      AllKept(us, Not(keep));
    } else if |Filtered(us, Not(keep))| == 0 {
      AllKept(us, keep);
    }
  }

  lemma NothingToPrefer(us: seq<Upstream>, model: string)
    requires model == "" || |us| <= 1
    ensures Filtered(us, DeclaringModel(model)) + Filtered(us, Not(DeclaringModel(model))) == us
  {
    Partitioned(us, DeclaringModel(model));
    OnePartOnly(us, DeclaringModel(model));
    if model == "" {
      NothingDeclared(us);
    }
    hide Filtered;
  }

  lemma {:induction false} NothingDeclared(providers: seq<Upstream>)
    ensures |Filtered(providers, DeclaringModel(""))| == 0
  {
    if providers != [] {
      NothingDeclared(providers[..|providers| - 1]);
    }
  }

  // ---------------------------------------------------------------------------------------------
  // Turns of a round robin
  // ---------------------------------------------------------------------------------------------

  /** The cursor after some orders. */
  function CursorAfter(cursor: nat, orders: nat): nat
    requires cursor < CURSORS
    ensures CursorAfter(cursor, orders) < CURSORS
  {
    if orders == 0 then cursor else (CursorAfter(cursor, orders - 1) + 1) % CURSORS
  }

  /** How many of the next orders of n upstream APIs put the i-th of them first. */
  function Firsts(cursor: nat, orders: nat, n: nat, i: nat): nat
    requires cursor < CURSORS && n > 0
  {
    if orders == 0 then 0
    else Firsts(cursor, orders - 1, n, i) + if CursorAfter(cursor, orders - 1) % n == i then 1 else 0
  }

  /** Numbers from 0 up to y that leave the remainder i modulo n; the difference of two values counts an interval. */
  function Below(y: int, n: nat, i: nat): int
    requires i < n
  {
    y / n + if y % n > i then 1 else 0
  }

  lemma DivisionIs(x: int, n: nat, q: int, r: int)
    requires n > 0 && x == q * n + r && 0 <= r < n
    ensures x / n == q && x % n == r
  {
    var p, t := x / n, x % n;
    assert x == p * n + t && 0 <= t < n;
    SameQuotient(p, t, q, r, n);
  }

  lemma SameQuotient(p: int, t: int, q: int, r: int, n: nat)
    requires n > 0 && p * n + t == q * n + r && 0 <= r < n && 0 <= t < n
    ensures p == q
  {
    Distributes(p, -q, n);
    assert (p - q) * n == r - t;
    if p > q {
      AtLeastOnce(p - q, n);
    } else if p < q {
      assert (q - p) * n == t - r by { Distributes(q, -p, n); }
      AtLeastOnce(q - p, n);
    }
  }

  lemma AtLeastOnce(x: int, n: nat)
    requires x >= 1
    ensures x * n >= n
  {
    Distributes(x - 1, 1, n);
    assert (x - 1) * n >= 0;
  }

  /** Adding two numbers adds quotients and remainders, with a carry. */
  lemma SumDivides(x: int, y: int, n: nat)
    requires n > 0
    ensures var carry := if x % n + y % n >= n then 1 else 0;
            (x + y) / n == x / n + y / n + carry && (x + y) % n == x % n + y % n - (if carry == 1 then n else 0)
  {
    var carry := if x % n + y % n >= n then 1 else 0;
    var (a, b) := (x / n, y / n);
    assert x == a * n + x % n && y == b * n + y % n;
    Distributes(a, b, n);
    Distributes(a + b, carry, n);
    DivisionIs(x + y, n, a + b + carry, x % n + y % n - (if carry == 1 then n else 0));
  }

  lemma BelowStep(y: int, n: nat, i: nat)
    requires i < n
    ensures Below(y + 1, n, i) - Below(y, n, i) == if y % n == i then 1 else 0
  {
    if n == 1 {
      assert (y + 1) / 1 == y + 1 && y / 1 == y;
    } else {
      DivisionIs(1, n, 0, 1);
      SumDivides(y, 1, n);
    }
  }

  lemma {:induction false} CursorStraight(cursor: nat, orders: nat)
    requires cursor < CURSORS && cursor + orders <= CURSORS
    ensures CursorAfter(cursor, orders) == if cursor + orders == CURSORS then 0 else cursor + orders
  {
    if orders > 0 {
      CursorStraight(cursor, orders - 1);
    }
  }

  /** As long as the cursor does not wrap, turns go round evenly. */
  lemma {:induction false} FirstsStraight(cursor: nat, orders: nat, n: nat, i: nat)
    requires cursor < CURSORS && cursor + orders <= CURSORS && i < n
    ensures Firsts(cursor, orders, n, i) == Below(cursor + orders, n, i) - Below(cursor, n, i)
  {
    hide Below, CursorAfter;
    if orders > 0 {
      FirstsStraight(cursor, orders - 1, n, i);
      BelowStep(cursor + orders - 1, n, i);
      CursorStraight(cursor, orders - 1);
    }
  }

  lemma OneTurn(cursor: nat, orders: nat, n: nat, i: nat)
    requires cursor < CURSORS && n > 0 && orders > 0
    ensures CursorAfter(cursor, orders) == (CursorAfter(cursor, orders - 1) + 1) % CURSORS
    ensures Firsts(cursor, orders, n, i) ==
            Firsts(cursor, orders - 1, n, i) + if CursorAfter(cursor, orders - 1) % n == i then 1 else 0
    ensures CursorAfter(cursor, 0) == cursor && Firsts(cursor, 0, n, i) == 0
  {
  }

  lemma {:induction false} FirstsSplit(cursor: nat, a: nat, b: nat, n: nat, i: nat)
    requires cursor < CURSORS && n > 0
    ensures CursorAfter(cursor, a + b) == CursorAfter(CursorAfter(cursor, a), b)
    ensures Firsts(cursor, a + b, n, i) == Firsts(cursor, a, n, i) + Firsts(CursorAfter(cursor, a), b, n, i)
  {
    hide *;
    OneTurn(CursorAfter(cursor, a), if b > 0 then b else 1, n, i);
    if b > 0 {
      FirstsSplit(cursor, a, b - 1, n, i);
      OneTurn(cursor, a + b, n, i);
    }
  }

  lemma BelowShifted(y: int, orders: nat, n: nat, i: nat)
    requires i < n && orders % n == 0
    ensures Below(y + orders, n, i) == Below(y, n, i) + orders / n
  {
    SumDivides(y, orders, n);
  }

  lemma BelowZero(n: nat, i: nat)
    requires i < n
    ensures Below(0, n, i) == 0
  {
    DivisionIs(0, n, 0, 0);
  }

  /** Turns across the wrap of the cursor. */
  lemma FirstsAcross(cursor: nat, orders: nat, n: nat, i: nat)
    requires cursor < CURSORS && CURSORS - cursor < orders <= CURSORS && i < n && orders % n == 0
    ensures Firsts(cursor, orders, n, i) ==
            orders / n + Below(CURSORS, n, i) + Below(cursor - CURSORS, n, i) - Below(cursor, n, i)
  {
    var left := CURSORS - cursor;
    FirstsSplit(cursor, left, orders - left, n, i);
    CursorStraight(cursor, left);
    FirstsStraight(cursor, left, n, i);
    FirstsStraight(0, orders - left, n, i);
    BelowShifted(cursor - CURSORS, orders, n, i);
    BelowZero(n, i);
    hide Below, Firsts, CursorAfter;
  }

  /** Remainders of the wrap and of what is left before it. */
  lemma WrapIsEven(cursor: nat, n: nat, i: nat)
    requires cursor < CURSORS && i < n
    ensures var m, d := CURSORS % n, (cursor - CURSORS) % n;
            Below(CURSORS, n, i) + Below(cursor - CURSORS, n, i) == Below(cursor, n, i) <==> Matches(m, d, n, i)
  {
    SumDivides(CURSORS, cursor - CURSORS, n);
  }

  lemma MinusDivides(x: int, n: nat)
    requires n > 0
    ensures (-x) % n == 0 <==> x % n == 0
  {
    SumDivides(x, -x, n);
    DivisionIs(0, n, 0, 0);
  }

  /** With one priority, n upstream APIs and k times n orders, each of them comes first exactly k times if
      and only if the 64-bit cursor does not wrap on the way, or n divides the number of cursor values, or
      n divides the number of values left before the wrap. */
  lemma RoundRobinIsEvenIff(cursor: nat, orders: nat, n: nat)
    requires cursor < CURSORS && n > 0 && orders % n == 0 && orders <= CURSORS
    ensures (forall i :: 0 <= i < n ==> Firsts(cursor, orders, n, i) == orders / n)
            <==> orders <= CURSORS - cursor || CURSORS % n == 0 || (CURSORS - cursor) % n == 0
  {
    hide *;
    MinusDivides(CURSORS - cursor, n);
    if orders <= CURSORS - cursor {
      forall i | 0 <= i < n ensures Firsts(cursor, orders, n, i) == orders / n {
        FirstsStraight(cursor, orders, n, i);
        BelowShifted(cursor, orders, n, i);
      }
    } else {
      EvenAcross(cursor, orders, n, CURSORS % n, (cursor - CURSORS) % n);
    }
  }

  /** Just before the wrap, three upstream APIs do not take turns: the first comes first twice in three orders. */
  lemma WrapIsUneven()
    ensures Firsts(CURSORS - 1, 3, 3, 0) == 2
  {
    var c := CURSORS - 1;
    assert c % 3 == 0 && CursorAfter(c, 0) == c && CursorAfter(c, 1) == 0 && CursorAfter(c, 2) == 1;
    assert Firsts(c, 0, 3, 0) == 0 && Firsts(c, 1, 3, 0) == 1 && Firsts(c, 2, 3, 0) == 2;
  }

  lemma EvenAcross(cursor: nat, orders: nat, n: nat, m: nat, d: nat)
    requires cursor < CURSORS && n > 0 && orders % n == 0 && CURSORS - cursor < orders <= CURSORS
    requires m == CURSORS % n && d == (cursor - CURSORS) % n
    ensures (forall i :: 0 <= i < n ==> Firsts(cursor, orders, n, i) == orders / n) <==> m == 0 || d == 0
  {
    hide Firsts, Below;
    forall i | 0 <= i < n ensures Firsts(cursor, orders, n, i) == orders / n <==> Matches(m, d, n, i) {
      FirstsAcross(cursor, orders, n, i);
      WrapIsEven(cursor, n, i);
    }
    MatchesIff(m, d, n);
    hide Matches;
    if m > 0 && d > 0 {
      var i :| 0 <= i < n && !Matches(m, d, n, i);
      assert Firsts(cursor, orders, n, i) != orders / n;
    }
  }

  predicate Matches(m: nat, d: nat, n: nat, i: nat) {
    (if m > i then 1 else 0) + (if d > i then 1 else 0) ==
    (if m + d >= n then 1 else 0) + (if (if m + d >= n then m + d - n else m + d) > i then 1 else 0)
  }

  lemma MatchesIff(m: nat, d: nat, n: nat)
    requires m < n && d < n
    ensures (forall i :: 0 <= i < n ==> Matches(m, d, n, i)) <==> m == 0 || d == 0
  {
    if m > 0 && d > 0 {
      assert !Matches(m, d, n, if m + d < n then 0 else n - 1);
    }
  }

  /** Each order is the rotation that the cursor has come to. */
  ghost predicate InTurn(orders: seq<seq<Upstream>>, pool: seq<Upstream>, cursor: nat)
    requires pool != [] && cursor < CURSORS
  {
    forall j :: 0 <= j < |orders| ==> orders[j] == Rotated(pool, CursorAfter(cursor, j) % |pool|)
  }

  function TimesFirst(orders: seq<seq<Upstream>>, id: string): nat {
    if orders == [] then 0
    else
      var last := orders[|orders| - 1];
      TimesFirst(orders[..|orders| - 1], id) + if last != [] && last[0].state.id == id then 1 else 0
  }

  predicate DifferentIDs(pool: seq<Upstream>) {
    forall j, k :: 0 <= j < k < |pool| ==> pool[j].state.id != pool[k].state.id
  }

  lemma {:induction false} FirstsAreCounted(orders: seq<seq<Upstream>>, pool: seq<Upstream>, cursor: nat, i: nat)
    requires cursor < CURSORS && i < |pool| && DifferentIDs(pool)
    requires InTurn(orders, pool, cursor)
    ensures TimesFirst(orders, pool[i].state.id) == Firsts(cursor, |orders|, |pool|, i)
  {
    hide Rotated;
    if orders != [] {
      var init := orders[..|orders| - 1];
      assert forall j :: 0 <= j < |init| ==> init[j] == orders[j];
      FirstsAreCounted(init, pool, cursor, i);
      RotationStartsAt(pool, CursorAfter(cursor, |init|));
    }
  }

  /** Whenever n upstream APIs of one priority are ordered k times n times in a row by round robin, each of them
      comes first exactly k times if and only if the 64-bit cursor does not wrap on the way, or n divides the
      number of cursor values, or n divides the number of values left before the wrap. */
  lemma RoundRobinIsFairIff(orders: seq<seq<Upstream>>, pool: seq<Upstream>, cursor: nat)
    requires cursor < CURSORS && pool != [] && DifferentIDs(pool)
    requires InTurn(orders, pool, cursor) && |orders| % |pool| == 0 && |orders| <= CURSORS
    ensures (forall i :: 0 <= i < |pool| ==> TimesFirst(orders, pool[i].state.id) == |orders| / |pool|)
            <==> |orders| <= CURSORS - cursor || CURSORS % |pool| == 0 || (CURSORS - cursor) % |pool| == 0
  {
    RoundRobinIsEvenIff(cursor, |orders|, |pool|);
    hide *;
    EvenlyCounted(orders, pool, cursor, |orders| / |pool|);
  }

  lemma EvenlyCounted(orders: seq<seq<Upstream>>, pool: seq<Upstream>, cursor: nat, times: int)
    requires cursor < CURSORS && pool != [] && DifferentIDs(pool) && InTurn(orders, pool, cursor)
    ensures (forall i :: 0 <= i < |pool| ==> TimesFirst(orders, pool[i].state.id) == times)
            <==> (forall i :: 0 <= i < |pool| ==> Firsts(cursor, |orders|, |pool|, i) == times)
  {
    hide *;
    if !forall i :: 0 <= i < |pool| ==> Firsts(cursor, |orders|, |pool|, i) == times {
      var i :| 0 <= i < |pool| && Firsts(cursor, |orders|, |pool|, i) != times;
      FirstsAreCounted(orders, pool, cursor, i);
    } else {
      forall i | 0 <= i < |pool| ensures TimesFirst(orders, pool[i].state.id) == times {
        FirstsAreCounted(orders, pool, cursor, i);
      }
    }
  }

  lemma RotationStartsAt(us: seq<Upstream>, cursor: nat)
    requires |us| > 0
    ensures |Rotated(us, cursor % |us|)| == |us| && Rotated(us, cursor % |us|)[0] == us[cursor % |us|]
  {
  }
}
