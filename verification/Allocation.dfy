/** How internal/store/allocate.go binds gateway keys to upstream accounts, as functions of the stored
    data.  Lookups are linear scans here; the store answers them from its indexes. */
module Allocation {
  import opened Accounts
  import opened Lists
  import opened Sorting

  datatype GroupState = GroupState(id: string, enabled: bool)

  /** An upstream API of an account.  `declares` holds of the models that its list or its map names,
      `anyModel` says that the list is empty. */
  datatype ProviderState = ProviderState(
    id: string, accountID: string, enabled: bool, cooldownUntil: int, declares: string -> bool, anyModel: bool)

  datatype KeyState = KeyState(id: string, keyHash: string, accountID: string, groupID: string)

  datatype View = View(
    groups: seq<GroupState>, accounts: seq<AccountState>, providers: seq<ProviderState>, keys: seq<KeyState>)

  /** An extra admission test on account ids, such as a rate limit. */
  datatype Gate = NoGate | Gate(accepts: string -> bool)

  predicate Admits(gate: Gate, id: string) {
    gate.NoGate? || gate.accepts(id)
  }

  // ---------------------------------------------------------------------------------------------
  // Queries
  // ---------------------------------------------------------------------------------------------

  predicate Active(p: ProviderState, now: int) {
    p.enabled && p.cooldownUntil <= now
  }

  predicate DeclaredBy(p: ProviderState, model: string) {
    model != "" && p.declares(model)
  }

  predicate Supports(p: ProviderState, model: string) {
    model == "" || p.declares(model) || p.anyModel
  }

  /** Active upstream APIs of an account that declare the model. */
  function ExplicitCount(ps: seq<ProviderState>, id: string, model: string, now: int): nat {
    if ps == [] then 0
    else
      var p := ps[|ps| - 1];
      ExplicitCount(ps[..|ps| - 1], id, model, now)
      + if p.accountID == id && Active(p, now) && DeclaredBy(p, model) then 1 else 0
  }

  /** Active upstream APIs of an account that can take the model. */
  function HealthyCount(ps: seq<ProviderState>, id: string, model: string, now: int): nat {
    if ps == [] then 0
    else
      var p := ps[|ps| - 1];
      HealthyCount(ps[..|ps| - 1], id, model, now)
      + if p.accountID == id && Active(p, now) && Supports(p, model) then 1 else 0
  }

  /** Keys bound to an account. */
  function Load(keys: seq<KeyState>, id: string): nat {
    if keys == [] then 0
    else Load(keys[..|keys| - 1], id) + if keys[|keys| - 1].accountID == id then 1 else 0
  }

  function FindGroup(groups: seq<GroupState>, id: string): Option<GroupState> {
    if groups == [] then None
    else if groups[0].id == id then Some(groups[0])
    else FindGroup(groups[1..], id)
  }

  /** No group counts as enabled, an unknown group does not. */
  predicate GroupOn(groups: seq<GroupState>, id: string) {
    id == "" || (FindGroup(groups, id).Some? && FindGroup(groups, id).value.enabled)
  }

  function FindAccount(accounts: seq<AccountState>, id: string): Option<AccountState> {
    if id == "" || accounts == [] then None
    else if accounts[0].config.id == id then Some(accounts[0])
    else FindAccount(accounts[1..], id)
  }

  predicate InScope(a: AccountState, groupID: string) {
    groupID == "" || a.config.groupID == groupID
  }

  /** May take this request: in scope, its group enabled, usable, with a healthy upstream for the model,
      and admitted by the gate. */
  predicate Eligible(v: View, a: AccountState, groupID: string, model: string, gate: Gate, now: int) {
    && InScope(a, groupID)
    && GroupOn(v.groups, a.config.groupID)
    && Usable(a)
    && HealthyCount(v.providers, a.config.id, model, now) > 0
    && Admits(gate, a.config.id)
  }

  predicate Declares(v: View, a: AccountState, model: string, now: int) {
    ExplicitCount(v.providers, a.config.id, model, now) > 0
  }

  function EligibleOf(v: View, accounts: seq<AccountState>, groupID: string, model: string, gate: Gate,
      now: int): seq<AccountState> {
    if accounts == [] then []
    else
      var before := EligibleOf(v, accounts[..|accounts| - 1], groupID, model, gate, now);
      if Eligible(v, accounts[|accounts| - 1], groupID, model, gate, now) then before + [accounts[|accounts| - 1]]
        else before
  }

  function DeclaringOf(v: View, pool: seq<AccountState>, model: string, now: int): seq<AccountState> {
    if pool == [] then []
    else
      var before := DeclaringOf(v, pool[..|pool| - 1], model, now);
      if Declares(v, pool[|pool| - 1], model, now) then before + [pool[|pool| - 1]] else before
  }

  /** The eligible accounts; only those that declare the model when there are any. */
  function Pool(v: View, groupID: string, model: string, gate: Gate, now: int): seq<AccountState> {
    var eligible := EligibleOf(v, v.accounts, groupID, model, gate, now);
    var declaring := DeclaringOf(v, eligible, model, now);
    if model == "" || declaring == [] then eligible else declaring
  }

  // ---------------------------------------------------------------------------------------------
  // Ranking
  // ---------------------------------------------------------------------------------------------

  /** What the allocator compares: keys per healthy upstream, keys, limits, balance and age. */
  datatype Rank = Rank(pressure: real, load: nat, unlimited: bool, balance: Money, createdAt: int)

  const NO_HEALTHY_PRESSURE := 1048576.0

  function Pressure(load: nat, healthy: nat): real {
    if healthy == 0 then NO_HEALTHY_PRESSURE else load as real / healthy as real
  }

  function RankOf(v: View, a: AccountState, model: string, now: int): Rank {
    var load := Load(v.keys, a.config.id);
    Rank(Pressure(load, HealthyCount(v.providers, a.config.id, model, now)), load, Unlimited(a.config), a.balance,
      a.config.createdAt)
  }

  predicate Before(a: Rank, b: Rank) {
    if a.pressure != b.pressure then a.pressure < b.pressure
    else if a.load != b.load then a.load < b.load
    else if a.unlimited != b.unlimited then a.unlimited
    else if a.balance != b.balance then a.balance > b.balance
    else a.createdAt < b.createdAt
  }

  function ByRank(v: View, model: string, now: int): ((AccountState, AccountState) -> bool) {
    (a, b) => Before(RankOf(v, a, model, now), RankOf(v, b, model, now))
  }

  lemma ByRankIsOrder(v: View, model: string, now: int)
    ensures StrictWeakOrder(ByRank(v, model, now))
  {
    hide RankOf;
  }

  /** The head of the stably sorted pool. */
  function Best(v: View, pool: seq<AccountState>, model: string, now: int): Option<AccountState> {
    if pool == [] then None
    else
      SortPermutes(pool, ByRank(v, model, now));
      Some(StableSorted(pool, ByRank(v, model, now))[0])
  }

  // ---------------------------------------------------------------------------------------------
  // Assignment
  // ---------------------------------------------------------------------------------------------

  /** Keep the bound account, borrow another one for this request, or bind anew. */
  datatype Decision = Keep(account: AccountState) | Borrow | Rebind

  predicate Holds(pool: seq<AccountState>, id: string) {
    exists i :: 0 <= i < |pool| && pool[i].config.id == id
  }

  function Decide(v: View, key: KeyState, model: string, gate: Gate, now: int): Decision {
    var current := FindAccount(v.accounts, key.accountID);
    if key.accountID == "" || current.None? || !InScope(current.value, key.groupID) then Rebind
    else
      var a := current.value;
      if Holds(Pool(v, key.groupID, model, gate, now), a.config.id) then Keep(a)
      else if (model != "" || !Admits(gate, a.config.id)) && GroupOn(v.groups, a.config.groupID) && Usable(a)
              && HealthyCount(v.providers, a.config.id, "", now) > 0
      then Borrow
      else Rebind
  }

  function Bound(keys: seq<KeyState>, k: nat, id: string): seq<KeyState>
    requires k < |keys|
  {
    keys[k := keys[k].(accountID := id)]
  }

  /** The account that serves a request with the k-th key, and the keys afterwards.  A key that is bound
      anew is taken off its old account first. */
  function Assign(v: View, k: nat, model: string, gate: Gate, now: int): (Option<AccountState>, seq<KeyState>)
    requires k < |v.keys|
  {
    var pool := Pool(v, v.keys[k].groupID, model, gate, now);
    match Decide(v, v.keys[k], model, gate, now)
    case Keep(a) => (Some(a), v.keys)
    case Borrow => (Best(v, pool, model, now), v.keys)
    case Rebind =>
      var freed := v.(keys := Bound(v.keys, k, ""));
      var best := Best(freed, pool, model, now);
      (best, Bound(v.keys, k, if best.Some? then best.value.config.id else ""))
  }

  // ---------------------------------------------------------------------------------------------
  // What an assignment guarantees
  // ---------------------------------------------------------------------------------------------

  predicate DistinctAccounts(accounts: seq<AccountState>) {
    forall i, j :: 0 <= i < j < |accounts| ==> accounts[i].config.id != accounts[j].config.id
  }

  lemma {:induction false} EligibleOfMembers(v: View, accounts: seq<AccountState>, groupID: string, model: string,
      gate: Gate, now: int)
    ensures forall a :: a in EligibleOf(v, accounts, groupID, model, gate, now) <==>
              a in accounts && Eligible(v, a, groupID, model, gate, now)
  {
    hide Eligible;
    if accounts != [] {
      EligibleOfMembers(v, accounts[..|accounts| - 1], groupID, model, gate, now);
      assert forall a :: a in accounts <==> a in accounts[..|accounts| - 1] || a == accounts[|accounts| - 1];
    }
  }

  lemma {:induction false} DeclaringOfMembers(v: View, pool: seq<AccountState>, model: string, now: int)
    ensures forall a :: a in DeclaringOf(v, pool, model, now) <==> a in pool && Declares(v, a, model, now)
  {
    hide Declares;
    if pool != [] {
      DeclaringOfMembers(v, pool[..|pool| - 1], model, now);
      assert forall a :: a in pool <==> a in pool[..|pool| - 1] || a == pool[|pool| - 1];
    }
  }

  /** The pool holds the eligible accounts, restricted to those that declare the model as soon as one does. */
  lemma PoolMembers(v: View, groupID: string, model: string, gate: Gate, now: int)
    ensures forall a :: a in Pool(v, groupID, model, gate, now) <==>
              && a in v.accounts && Eligible(v, a, groupID, model, gate, now)
              && (Declares(v, a, model, now)
                  || forall b :: b in v.accounts && Eligible(v, b, groupID, model, gate, now) ==>
                       !Declares(v, b, model, now))
  {
    var eligible := EligibleOf(v, v.accounts, groupID, model, gate, now);
    EligibleOfMembers(v, v.accounts, groupID, model, gate, now);
    DeclaringOfMembers(v, eligible, model, now);
    var declaring := DeclaringOf(v, eligible, model, now);
    assert declaring != [] ==> declaring[0] in declaring;
    NoModelDeclared(v.providers, now);
    assert forall a {:trigger Declares(v, a, "", now)} :: !Declares(v, a, "", now);
    hide Eligible, Declares, EligibleOf, DeclaringOf;
    if model == "" || declaring == [] {
      assert forall b :: b in v.accounts && Eligible(v, b, groupID, model, gate, now) ==> !Declares(v, b, model, now);
    } else {
      assert Declares(v, declaring[0], model, now) && declaring[0] in v.accounts
             && Eligible(v, declaring[0], groupID, model, gate, now);
    }
  }

  lemma NoModelDeclared(ps: seq<ProviderState>, now: int)
    ensures forall id :: ExplicitCount(ps, id, "", now) == 0
  {
    if ps != [] {
      NoModelDeclared(ps[..|ps| - 1], now);
    }
  }

  lemma BestIsMinimal(v: View, pool: seq<AccountState>, model: string, now: int)
    ensures Best(v, pool, model, now).None? <==> pool == []
    ensures pool != [] ==>
              var a := Best(v, pool, model, now).value;
              a in pool && forall b :: b in pool ==> !Before(RankOf(v, b, model, now), RankOf(v, a, model, now))
  {
    var less := ByRank(v, model, now);
    hide Before, RankOf;
    if pool != [] {
      ByRankIsOrder(v, model, now);
      SortHead(pool, less);
      FirstMinimumIsMinimal(pool, less);
      forall b | b in pool
        ensures !Before(RankOf(v, b, model, now), RankOf(v, pool[FirstMinimum(pool, less)], model, now)) {
        var j :| 0 <= j < |pool| && pool[j] == b;
        assert !less(pool[j], pool[FirstMinimum(pool, less)]);
      }
    }
  }

  lemma {:induction false} FoundAccount(accounts: seq<AccountState>, id: string)
    ensures FindAccount(accounts, id).Some? ==>
              FindAccount(accounts, id).value in accounts && FindAccount(accounts, id).value.config.id == id
    ensures forall a :: a in accounts && id != "" && a.config.id == id && DistinctAccounts(accounts) ==>
              FindAccount(accounts, id) == Some(a)
  {
    if accounts != [] && id != "" {
      FoundAccount(accounts[1..], id);
      assert forall a :: a in accounts <==> a == accounts[0] || a in accounts[1..];
      assert DistinctAccounts(accounts) ==> DistinctAccounts(accounts[1..]);
    }
  }

  /** The account that serves a request is stored, in scope, in an enabled group, usable, admitted by the
      gate and has a healthy upstream for the model; it declares the model whenever an eligible account
      does.  Unless the key keeps its account, no account of the pool ranks before it; nothing is found
      only when nothing is eligible. */
  lemma AssignedAccount(v: View, k: nat, model: string, gate: Gate, now: int)
    requires k < |v.keys| && DistinctAccounts(v.accounts)
    ensures var key := v.keys[k];
            var (chosen, keys) := Assign(v, k, model, gate, now);
            var decision := Decide(v, key, model, gate, now);
            var ranked := if decision.Rebind? then v.(keys := Bound(v.keys, k, "")) else v;
            && (chosen.None? ==> forall a :: a in v.accounts ==> !Eligible(v, a, key.groupID, model, gate, now))
            && (chosen.Some? ==>
                  && chosen.value in v.accounts
                  && Eligible(v, chosen.value, key.groupID, model, gate, now)
                  && ((exists b ::
                         b in v.accounts && Eligible(v, b, key.groupID, model, gate, now) && Declares(v, b, model, now))
                      ==> Declares(v, chosen.value, model, now))
                  && (!decision.Keep? ==>
                        forall b :: b in Pool(v, key.groupID, model, gate, now) ==>
                          !Before(RankOf(ranked, b, model, now), RankOf(ranked, chosen.value, model, now))))
  {
    var key := v.keys[k];
    var pool := Pool(v, key.groupID, model, gate, now);
    var decision := Decide(v, key, model, gate, now);
    var ranked := if decision.Rebind? then v.(keys := Bound(v.keys, k, "")) else v;
    var chosen := Assign(v, k, model, gate, now).0;
    PoolMembers(v, key.groupID, model, gate, now);
    BestIsMinimal(ranked, pool, model, now);
    KeptIsPooled(v, key, model, gate, now);
    assert chosen.Some? ==> chosen.value in pool;
    hide Eligible, Declares, Pool, Best, Decide, RankOf, Before;
    if chosen.None? {
      EmptyPool(v, key.groupID, model, gate, now);
    }
  }

  lemma EmptyPool(v: View, groupID: string, model: string, gate: Gate, now: int)
    requires Pool(v, groupID, model, gate, now) == []
    ensures forall a :: a in v.accounts ==> !Eligible(v, a, groupID, model, gate, now)
  {
    EligibleOfMembers(v, v.accounts, groupID, model, gate, now);
    hide Eligible, EligibleOf;
    forall a | a in v.accounts ensures !Eligible(v, a, groupID, model, gate, now) {
      assert a !in EligibleOf(v, v.accounts, groupID, model, gate, now);
    }
  }

  lemma KeptIsPooled(v: View, key: KeyState, model: string, gate: Gate, now: int)
    requires DistinctAccounts(v.accounts)
    ensures Decide(v, key, model, gate, now).Keep? ==>
              Decide(v, key, model, gate, now).account in Pool(v, key.groupID, model, gate, now)
  {
    PoolMembers(v, key.groupID, model, gate, now);
    FoundAccount(v.accounts, key.accountID);
    hide Eligible, Declares, Pool, Usable, GroupOn;
  }

  /** Unless the key keeps its account, that account is not in the pool. */
  lemma StrangerToPool(v: View, key: KeyState, model: string, gate: Gate, now: int)
    requires NamedAccounts(v.accounts) && !Decide(v, key, model, gate, now).Keep?
    ensures forall a :: a in Pool(v, key.groupID, model, gate, now) ==>
              a.config.id != "" && a.config.id != key.accountID
  {
    PoolMembers(v, key.groupID, model, gate, now);
    FoundAccount(v.accounts, key.accountID);
    hide Declares, Pool, Usable, GroupOn, HealthyCount, FindAccount;
    forall a | a in Pool(v, key.groupID, model, gate, now) ensures a.config.id != "" && a.config.id != key.accountID {
      assert InScope(a, key.groupID);
    }
  }

  /** The bound account is in the key's scope and healthy on its own. */
  predicate KeepsItsKeys(v: View, key: KeyState, now: int) {
    var current := FindAccount(v.accounts, key.accountID);
    && current.Some?
    && InScope(current.value, key.groupID)
    && GroupOn(v.groups, current.value.config.groupID)
    && Usable(current.value)
    && HealthyCount(v.providers, current.value.config.id, "", now) > 0
  }

  lemma {:induction false} HealthyForModel(ps: seq<ProviderState>, id: string, model: string, now: int)
    ensures HealthyCount(ps, id, model, now) <= HealthyCount(ps, id, "", now)
  {
    if ps != [] {
      HealthyForModel(ps[..|ps| - 1], id, model, now);
    }
  }

  /** A bound key loses its account exactly when the account is missing, out of the key's group, in a
      disabled group, not usable or without any healthy upstream.  A model that the account does not serve
      and a gate that refuses it never take the binding away. */
  lemma BindingIsLostIff(v: View, k: nat, model: string, gate: Gate, now: int)
    requires k < |v.keys| && v.keys[k].accountID != "" && DistinctAccounts(v.accounts)
    ensures Assign(v, k, model, gate, now).1[k].accountID == v.keys[k].accountID <==> KeepsItsKeys(v, v.keys[k], now)
    ensures KeepsItsKeys(v, v.keys[k], now) ==> Assign(v, k, model, gate, now).1 == v.keys
  {
    var key := v.keys[k];
    var pool := Pool(v, key.groupID, model, gate, now);
    var current := FindAccount(v.accounts, key.accountID);
    FoundAccount(v.accounts, key.accountID);
    DecisionOnBinding(v, key, model, gate, now);
    KeptIsPooled(v, key, model, gate, now);
    BestIsMinimal(v.(keys := Bound(v.keys, k, "")), pool, model, now);
    PooledKeepsIts(v, key, pool, model, gate, now);
    hide Pool, Best, KeepsItsKeys, RankOf, Before;
  }

  lemma PooledKeepsIts(v: View, key: KeyState, pool: seq<AccountState>, model: string, gate: Gate, now: int)
    requires pool == Pool(v, key.groupID, model, gate, now) && DistinctAccounts(v.accounts)
    ensures key.accountID != "" ==> forall a :: a in pool && a.config.id == key.accountID ==> KeepsItsKeys(v, key, now)
  {
    PoolMembers(v, key.groupID, model, gate, now);
    FoundAccount(v.accounts, key.accountID);
    hide Pool, Declares, FindAccount, GroupOn, Usable, HealthyCount;
    if key.accountID != "" {
      forall a | a in pool && a.config.id == key.accountID ensures KeepsItsKeys(v, key, now) {
        assert Eligible(v, a, key.groupID, model, gate, now);
        HealthyForModel(v.providers, a.config.id, model, now);
      }
    }
  }

  /** Binding anew is decided exactly when the bound account is not healthy on its own. */
  lemma DecisionOnBinding(v: View, key: KeyState, model: string, gate: Gate, now: int)
    requires key.accountID != "" && DistinctAccounts(v.accounts)
    ensures Decide(v, key, model, gate, now).Rebind? <==> !KeepsItsKeys(v, key, now)
  {
    var pool := Pool(v, key.groupID, model, gate, now);
    var current := FindAccount(v.accounts, key.accountID);
    FoundAccount(v.accounts, key.accountID);
    PooledKeepsIts(v, key, pool, model, gate, now);
    if KeepsItsKeys(v, key, now) && model == "" && Admits(gate, current.value.config.id) {
      HealthyIsPooled(v, current.value, key.groupID, gate, now);
      var i :| 0 <= i < |pool| && pool[i] == current.value;
    }
    hide Pool, FindAccount, GroupOn, Usable, HealthyCount, DistinctAccounts;
  }

  lemma HealthyIsPooled(v: View, a: AccountState, groupID: string, gate: Gate, now: int)
    requires a in v.accounts && Eligible(v, a, groupID, "", gate, now)
    ensures a in Pool(v, groupID, "", gate, now)
  {
    EligibleOfMembers(v, v.accounts, groupID, "", gate, now);
    hide Eligible, EligibleOf;
  }

  // ---------------------------------------------------------------------------------------------
  // Fairness
  // ---------------------------------------------------------------------------------------------

  /** No account of the pool carries, per healthy upstream, more than one key above any other:
      (load(a) - 1) / healthy(a) <= load(b) / healthy(b). */
  ghost predicate Fair(v: View, keys: seq<KeyState>, pool: seq<AccountState>, model: string, now: int) {
    forall a, b :: a in pool && b in pool ==> FairPair(v, keys, a, b, model, now)
  }

  predicate FairPair(v: View, keys: seq<KeyState>, a: AccountState, b: AccountState, model: string, now: int) {
    var (loadA, loadB) := (Load(keys, a.config.id), Load(keys, b.config.id));
    loadA > 0 ==>
      (loadA - 1) * HealthyCount(v.providers, b.config.id, model, now) <=
      loadB * HealthyCount(v.providers, a.config.id, model, now)
  }

  lemma {:induction false} LoadOfBound(keys: seq<KeyState>, k: nat, id: string, other: string)
    requires k < |keys|
    ensures Load(Bound(keys, k, id), other) ==
            Load(keys, other) - (if keys[k].accountID == other then 1 else 0) + (if id == other then 1 else 0)
  {
    var bound := Bound(keys, k, id);
    if k == |keys| - 1 {
      assert bound[..k] == keys[..k];
    } else {
      LoadOfBound(keys[..|keys| - 1], k, id, other);
      assert bound[..|keys| - 1] == Bound(keys[..|keys| - 1], k, id);
    }
  }

  /** Comparing pressures is comparing cross products. */
  lemma PressureCross(loadA: nat, healthyA: nat, loadB: nat, healthyB: nat)
    requires healthyA > 0 && healthyB > 0
    ensures Pressure(loadA, healthyA) <= Pressure(loadB, healthyB) <==> loadA * healthyB <= loadB * healthyA
  {
    var x, y := loadA as real / healthyA as real, loadB as real / healthyB as real;
    assert x * healthyA as real == loadA as real && y * healthyB as real == loadB as real;
    var p := healthyA as real * healthyB as real;
    assert p > 0.0;
    assert x * p == loadA as real * healthyB as real == (loadA * healthyB) as real;
    assert y * p == loadB as real * healthyA as real == (loadB * healthyA) as real;
  }

  // ---------------------------------------------------------------------------------------------
  // The same in fields and counts
  // ---------------------------------------------------------------------------------------------

  /** Places of the upstream APIs of an account that are enabled, not paused and take the model. */
  function HealthyPlaces(ps: seq<ProviderState>, id: string, model: string, now: int): set<int> {
    set i | 0 <= i < |ps| && ps[i].accountID == id && ps[i].enabled && ps[i].cooldownUntil <= now
            && (model == "" || ps[i].declares(model) || ps[i].anyModel)
  }

  function ExplicitPlaces(ps: seq<ProviderState>, id: string, model: string, now: int): set<int> {
    set i | 0 <= i < |ps| && ps[i].accountID == id && ps[i].enabled && ps[i].cooldownUntil <= now
            && model != "" && ps[i].declares(model)
  }

  function KeyPlaces(keys: seq<KeyState>, id: string): set<int> {
    set i | 0 <= i < |keys| && keys[i].accountID == id
  }

  lemma {:induction false} HealthyIsCounted(ps: seq<ProviderState>, id: string, model: string, now: int)
    ensures HealthyCount(ps, id, model, now) == |HealthyPlaces(ps, id, model, now)|
  {
    if ps != [] {
      var init, n := ps[..|ps| - 1], |ps| - 1;
      HealthyIsCounted(init, id, model, now);
      var here := if n in HealthyPlaces(ps, id, model, now) then {n} else {};
      assert HealthyPlaces(ps, id, model, now) == HealthyPlaces(init, id, model, now) + here;
    }
  }

  lemma {:induction false} ExplicitIsCounted(ps: seq<ProviderState>, id: string, model: string, now: int)
    ensures ExplicitCount(ps, id, model, now) == |ExplicitPlaces(ps, id, model, now)|
  {
    if ps != [] {
      var init, n := ps[..|ps| - 1], |ps| - 1;
      ExplicitIsCounted(init, id, model, now);
      var here := if n in ExplicitPlaces(ps, id, model, now) then {n} else {};
      assert ExplicitPlaces(ps, id, model, now) == ExplicitPlaces(init, id, model, now) + here;
    }
  }

  lemma {:induction false} LoadIsCounted(keys: seq<KeyState>, id: string)
    ensures Load(keys, id) == |KeyPlaces(keys, id)|
  {
    if keys != [] {
      var init, n := keys[..|keys| - 1], |keys| - 1;
      LoadIsCounted(init, id);
      var here := if n in KeyPlaces(keys, id) then {n} else {};
      assert KeyPlaces(keys, id) == KeyPlaces(init, id) + here;
    }
  }

  /** No group counts as enabled, an unknown one does not, and of groups with one id the first decides. */
  lemma {:induction false} GroupOnIff(groups: seq<GroupState>, id: string)
    ensures GroupOn(groups, id) <==>
              id == "" || exists i :: 0 <= i < |groups| && groups[i].id == id && groups[i].enabled
                                      && forall j :: 0 <= j < i ==> groups[j].id != id
  {
    if groups != [] && groups[0].id != id {
      var rest := groups[1..];
      GroupOnIff(rest, id);
      if i :| 0 <= i < |rest| && rest[i].id == id && rest[i].enabled && forall j :: 0 <= j < i ==> rest[j].id != id {
        assert groups[i + 1] == rest[i];
        forall j | 0 <= j < i + 1 ensures groups[j].id != id {
          assert j > 0 ==> groups[j] == rest[j - 1];
        }
      }
      if i :| 0 <= i < |groups| && groups[i].id == id && groups[i].enabled
              && forall j :: 0 <= j < i ==> groups[j].id != id {
        assert groups[i] == rest[i - 1];
        forall j | 0 <= j < i - 1 ensures rest[j].id != id {
          assert rest[j] == groups[j + 1];
        }
      }
    }
  }

  /** Which accounts may take a request. */
  lemma EligibleIff(v: View, a: AccountState, groupID: string, model: string, gate: Gate, now: int)
    ensures Eligible(v, a, groupID, model, gate, now) <==>
              && (groupID == "" || a.config.groupID == groupID)
              && (a.config.groupID == "" ||
                  exists i :: 0 <= i < |v.groups| && v.groups[i].id == a.config.groupID && v.groups[i].enabled
                              && forall j :: 0 <= j < i ==> v.groups[j].id != a.config.groupID)
              && a.enabled && !a.suspended && !Exhausted(a)
              && (exists i :: 0 <= i < |v.providers| && v.providers[i].accountID == a.config.id
                              && v.providers[i].enabled && v.providers[i].cooldownUntil <= now
                              && (model == "" || v.providers[i].declares(model) || v.providers[i].anyModel))
              && (gate.NoGate? || gate.accepts(a.config.id))
  {
    GroupOnIff(v.groups, a.config.groupID);
    SomeHealthyIff(v.providers, a.config.id, model, now);
    UsableIs(a);
    hide Usable, Exhausted, GroupOn, HealthyCount;
  }

  lemma SomeHealthyIff(ps: seq<ProviderState>, id: string, model: string, now: int)
    ensures HealthyCount(ps, id, model, now) > 0 <==>
              exists i :: 0 <= i < |ps| && ps[i].accountID == id && ps[i].enabled && ps[i].cooldownUntil <= now
                          && (model == "" || ps[i].declares(model) || ps[i].anyModel)
  {
    HealthyIsCounted(ps, id, model, now);
    var places := HealthyPlaces(ps, id, model, now);
    if |places| > 0 {
      var i :| i in places;
    }
    if i :| 0 <= i < |ps| && ps[i].accountID == id && ps[i].enabled && ps[i].cooldownUntil <= now
            && (model == "" || ps[i].declares(model) || ps[i].anyModel) {
      assert i in places;
    }
  }

  lemma UsableIs(a: AccountState)
    ensures Usable(a) <==> a.enabled && !a.suspended && !Exhausted(a)
  {
  }

  /** How the chosen account compares with another one of the pool: fewer keys per healthy upstream API; then fewer
      keys; then no limit on the balance; then the higher balance; then the earlier creation. */
  predicate GoesFirst(v: View, c: AccountState, b: AccountState, model: string, now: int) {
    var loadC, loadB := Load(v.keys, c.config.id), Load(v.keys, b.config.id);
    var healthyC := HealthyCount(v.providers, c.config.id, model, now);
    var healthyB := HealthyCount(v.providers, b.config.id, model, now);
    var freeC := !c.config.queryable && !(c.config.manualBalance && c.config.billing != NoBilling);
    var freeB := !b.config.queryable && !(b.config.manualBalance && b.config.billing != NoBilling);
    && loadC * healthyB <= loadB * healthyC
    && (loadC * healthyB == loadB * healthyC ==>
          && loadC <= loadB
          && (loadC == loadB ==>
                && (freeB ==> freeC)
                && (freeB == freeC ==>
                      c.balance >= b.balance
                      && (c.balance == b.balance ==> c.config.createdAt <= b.config.createdAt))))
  }

  lemma NotBeforeGoesFirst(v: View, c: AccountState, b: AccountState, model: string, now: int)
    requires HealthyCount(v.providers, c.config.id, model, now) > 0
    requires HealthyCount(v.providers, b.config.id, model, now) > 0
    requires !Before(RankOf(v, b, model, now), RankOf(v, c, model, now))
    ensures GoesFirst(v, c, b, model, now)
  {
    var loadC, loadB := Load(v.keys, c.config.id), Load(v.keys, b.config.id);
    var healthyC := HealthyCount(v.providers, c.config.id, model, now);
    var healthyB := HealthyCount(v.providers, b.config.id, model, now);
    PressureCross(loadC, healthyC, loadB, healthyB);
    PressureCross(loadB, healthyB, loadC, healthyC);
    hide HealthyCount, Load, Pressure;
  }

  /** The account picked from a pool of healthy accounts goes first, and nobody of equal rank stands before it. */
  lemma PickedGoesFirst(v: View, pool: seq<AccountState>, model: string, now: int)
    requires pool != [] && forall a :: a in pool ==> HealthyCount(v.providers, a.config.id, model, now) > 0
    ensures Best(v, pool, model, now).Some? && Best(v, pool, model, now).value in pool
    ensures forall b :: b in pool ==> GoesFirst(v, Best(v, pool, model, now).value, b, model, now)
    ensures exists i :: 0 <= i < |pool| && pool[i] == Best(v, pool, model, now).value
                        && forall j :: 0 <= j < i ==> !GoesFirst(v, pool[j], pool[i], model, now)
  {
    var less := ByRank(v, model, now);
    BestIsMinimal(v, pool, model, now);
    ByRankIsOrder(v, model, now);
    SortHead(pool, less);
    FirstMinimumIsMinimal(pool, less);
    var i := FirstMinimum(pool, less);
    hide *;
    var best := Best(v, pool, model, now).value;
    assert pool[i] == best;
    forall b | b in pool ensures GoesFirst(v, best, b, model, now) {
      NotBeforeGoesFirst(v, best, b, model, now);
    }
    forall j | 0 <= j < i ensures !GoesFirst(v, pool[j], pool[i], model, now) {
      assert pool[j] in pool && less(pool[i], pool[j]);
      RanksBefore(v, pool[i], pool[j], model, now);
      BeforeGoesFirst(v, pool[i], pool[j], model, now);
    }
  }

  lemma RanksBefore(v: View, a: AccountState, b: AccountState, model: string, now: int)
    ensures ByRank(v, model, now)(a, b) <==> Before(RankOf(v, a, model, now), RankOf(v, b, model, now))
  {
    hide Before, RankOf;
  }

  lemma BeforeGoesFirst(v: View, c: AccountState, b: AccountState, model: string, now: int)
    requires HealthyCount(v.providers, c.config.id, model, now) > 0
    requires HealthyCount(v.providers, b.config.id, model, now) > 0
    requires Before(RankOf(v, c, model, now), RankOf(v, b, model, now))
    ensures !GoesFirst(v, b, c, model, now)
  {
    var loadC, loadB := Load(v.keys, c.config.id), Load(v.keys, b.config.id);
    var healthyC := HealthyCount(v.providers, c.config.id, model, now);
    var healthyB := HealthyCount(v.providers, b.config.id, model, now);
    PressureCross(loadC, healthyC, loadB, healthyB);
    PressureCross(loadB, healthyB, loadC, healthyC);
    hide HealthyCount, Load, Pressure;
  }

  /** A key that does not keep its account is served by an account that goes first in the pool, and so is one that
      is bound anew or only borrows. */
  lemma AssignedGoesFirst(v: View, k: nat, model: string, gate: Gate, now: int)
    requires k < |v.keys| && NamedAccounts(v.accounts)
    ensures var key, pool := v.keys[k], Pool(v, v.keys[k].groupID, model, gate, now);
            var (chosen, keys) := Assign(v, k, model, gate, now);
            && (chosen.None? <==> pool == [])
            && (chosen.Some? ==> chosen.value in pool)
            && (key.accountID != "" && Holds(pool, key.accountID) ==>
                  chosen.Some? && chosen.value.config.id == key.accountID && keys == v.keys)
            && (!(key.accountID != "" && Holds(pool, key.accountID)) && pool != [] ==>
                  forall b :: b in pool ==> GoesFirst(v, chosen.value, b, model, now))
  {
    var key, pool := v.keys[k], Pool(v, v.keys[k].groupID, model, gate, now);
    var freed := v.(keys := Bound(v.keys, k, ""));
    PoolIsHealthy(v, key.groupID, model, gate, now);
    KeepsWhenHeld(v, key, model, gate, now);
    KeptIsPooled(v, key, model, gate, now);
    if !Decide(v, key, model, gate, now).Keep? {
      StrangerToPool(v, key, model, gate, now);
    }
    BestIsMinimal(v, pool, model, now);
    BestIsMinimal(freed, pool, model, now);
    if pool != [] {
      PickedGoesFirst(v, pool, model, now);
      PickedGoesFirst(freed, pool, model, now);
    }
    hide Pool, Best, Decide, GoesFirst, HealthyCount, Load, Before, RankOf, Holds;
    if Decide(v, key, model, gate, now).Rebind? && pool != [] {
      var best := Best(freed, pool, model, now).value;
      forall b | b in pool ensures GoesFirst(v, best, b, model, now) {
        LoadOfBound(v.keys, k, "", best.config.id);
        LoadOfBound(v.keys, k, "", b.config.id);
        SameOrder(v, freed, best, b, model, now);
      }
    }
  }

  lemma SameOrder(v: View, w: View, c: AccountState, b: AccountState, model: string, now: int)
    requires GoesFirst(w, c, b, model, now) && w.providers == v.providers
    requires Load(w.keys, c.config.id) == Load(v.keys, c.config.id)
    requires Load(w.keys, b.config.id) == Load(v.keys, b.config.id)
    ensures GoesFirst(v, c, b, model, now)
  {
    hide HealthyCount, Load;
  }

  /** A key keeps its account exactly when the pool holds it. */
  lemma KeepsWhenHeld(v: View, key: KeyState, model: string, gate: Gate, now: int)
    requires DistinctAccounts(v.accounts)
    ensures Decide(v, key, model, gate, now).Keep? <==>
              key.accountID != "" && Holds(Pool(v, key.groupID, model, gate, now), key.accountID)
    ensures Decide(v, key, model, gate, now).Keep? ==>
              Decide(v, key, model, gate, now).account.config.id == key.accountID
  {
    var pool := Pool(v, key.groupID, model, gate, now);
    FoundAccount(v.accounts, key.accountID);
    PoolMembers(v, key.groupID, model, gate, now);
    if key.accountID != "" && Holds(pool, key.accountID) {
      var i :| 0 <= i < |pool| && pool[i].config.id == key.accountID;
      assert pool[i] in pool;
    }
    hide Pool, Declares, FindAccount, GroupOn, Usable, HealthyCount;
  }

  lemma MinimalPressure(a: Rank, b: Rank)
    requires !Before(b, a)
    ensures a.pressure <= b.pressure
  {
  }

  lemma PoolIsHealthy(v: View, groupID: string, model: string, gate: Gate, now: int)
    ensures forall a :: a in Pool(v, groupID, model, gate, now) ==>
              HealthyCount(v.providers, a.config.id, model, now) > 0
  {
    PoolMembers(v, groupID, model, gate, now);
    hide Pool, HealthyCount, Declares;
  }

  lemma OneMoreKey(v: View, keys: seq<KeyState>, k: nat, best: AccountState, a: AccountState, b: AccountState,
      model: string, now: int)
    requires k < |keys| && keys[k].accountID == ""
    requires best.config.id != "" && a.config.id != "" && b.config.id != ""
    requires HealthyCount(v.providers, best.config.id, model, now) > 0
    requires HealthyCount(v.providers, a.config.id, model, now) > 0
    requires HealthyCount(v.providers, b.config.id, model, now) > 0
    requires FairPair(v, keys, a, b, model, now)
    requires RankOf(v.(keys := keys), best, model, now).pressure <= RankOf(v.(keys := keys), b, model, now).pressure
    ensures FairPair(v, Bound(keys, k, best.config.id), a, b, model, now)
  {
    var loadA, loadB := Load(keys, a.config.id), Load(keys, b.config.id);
    var healthyA, healthyB := HealthyCount(v.providers, a.config.id, model, now),
      HealthyCount(v.providers, b.config.id, model, now);
    LoadOfBound(keys, k, best.config.id, a.config.id);
    LoadOfBound(keys, k, best.config.id, b.config.id);
    PressureCross(Load(keys, best.config.id), HealthyCount(v.providers, best.config.id, model, now), loadB, healthyB);
    hide Load, HealthyCount, Pressure;
    MoreIsMore(loadB, healthyA);
  }

  lemma MoreIsMore(load: nat, healthy: nat)
    ensures (load + 1) * healthy >= load * healthy
  {
  }

  /** Keys assigned one after the other. */
  function AssignEach(v: View, ks: seq<nat>, model: string, gate: Gate, now: int): View
    requires forall i :: 0 <= i < |ks| ==> ks[i] < |v.keys|
    ensures |AssignEach(v, ks, model, gate, now).keys| == |v.keys|
  {
    if ks == [] then v
    else
      var before := AssignEach(v, ks[..|ks| - 1], model, gate, now);
      before.(keys := Assign(before, ks[|ks| - 1], model, gate, now).1)
  }

  /** Different keys without an account, all of one group. */
  predicate FreshKeys(v: View, ks: seq<nat>, groupID: string) {
    && (forall i :: 0 <= i < |ks| ==>
          ks[i] < |v.keys| && v.keys[ks[i]].accountID == "" && v.keys[ks[i]].groupID == groupID)
    && (forall i, j :: 0 <= i < j < |ks| ==> ks[i] != ks[j])
  }

  predicate NamedAccounts(accounts: seq<AccountState>) {
    DistinctAccounts(accounts) && forall i :: 0 <= i < |accounts| ==> accounts[i].config.id != ""
  }

  lemma {:induction false} PoolIgnoresKeys(v: View, accounts: seq<AccountState>, keys: seq<KeyState>, groupID: string,
      model: string, gate: Gate, now: int)
    ensures EligibleOf(v.(keys := keys), accounts, groupID, model, gate, now) ==
            EligibleOf(v, accounts, groupID, model, gate, now)
    ensures DeclaringOf(v.(keys := keys), accounts, model, now) == DeclaringOf(v, accounts, model, now)
  {
    hide Usable, GroupOn, HealthyCount, ExplicitCount;
    if accounts != [] {
      PoolIgnoresKeys(v, accounts[..|accounts| - 1], keys, groupID, model, gate, now);
    }
  }

  lemma SamePool(v: View, keys: seq<KeyState>, groupID: string, model: string, gate: Gate, now: int)
    ensures Pool(v.(keys := keys), groupID, model, gate, now) == Pool(v, groupID, model, gate, now)
  {
    PoolIgnoresKeys(v, v.accounts, keys, groupID, model, gate, now);
    PoolIgnoresKeys(v, EligibleOf(v, v.accounts, groupID, model, gate, now), keys, groupID, model, gate, now);
    hide EligibleOf, DeclaringOf;
  }

  /** A key without an account is bound to a first-ranked account of the pool. */
  lemma FreshAssign(v: View, k: nat, groupID: string, model: string, gate: Gate, now: int)
    requires k < |v.keys| && v.keys[k].accountID == "" && v.keys[k].groupID == groupID
    ensures var pool := Pool(v, groupID, model, gate, now);
            var (chosen, keys) := Assign(v, k, model, gate, now);
            && (pool == [] ==> keys == v.keys)
            && (pool != [] ==>
                  && chosen.Some? && chosen.value in pool
                  && keys == Bound(v.keys, k, chosen.value.config.id)
                  && forall b :: b in pool ==> !Before(RankOf(v, b, model, now), RankOf(v, chosen.value, model, now)))
  {
    var pool := Pool(v, groupID, model, gate, now);
    assert Bound(v.keys, k, "") == v.keys;
    assert v.(keys := v.keys) == v;
    BestIsMinimal(v, pool, model, now);
    hide Pool, Best, RankOf, Before;
  }

  lemma FairStep(v: View, k: nat, groupID: string, model: string, gate: Gate, now: int)
    requires k < |v.keys| && v.keys[k].accountID == "" && v.keys[k].groupID == groupID
    requires NamedAccounts(v.accounts)
    requires Fair(v, v.keys, Pool(v, groupID, model, gate, now), model, now)
    ensures Fair(v, Assign(v, k, model, gate, now).1, Pool(v, groupID, model, gate, now), model, now)
  {
    var pool := Pool(v, groupID, model, gate, now);
    var (chosen, keys) := Assign(v, k, model, gate, now);
    FreshAssign(v, k, groupID, model, gate, now);
    PoolIsHealthy(v, groupID, model, gate, now);
    PoolMembers(v, groupID, model, gate, now);
    hide Pool, Assign, RankOf, HealthyCount, FairPair, Declares, Eligible;
    if pool != [] {
      forall a, b | a in pool && b in pool ensures FairPair(v, keys, a, b, model, now) {
        MinimalPressure(RankOf(v, chosen.value, model, now), RankOf(v, b, model, now));
        assert v.(keys := v.keys) == v;
        OneMoreKey(v, v.keys, k, chosen.value, a, b, model, now);
      }
    }
  }

  /** Any number of fresh keys assigned over a fixed pool leaves the pool fair, binds every one of them to
      an account of the pool and touches no other key. */
  lemma {:induction false} FairRun(v: View, ks: seq<nat>, groupID: string, model: string, gate: Gate, now: int)
    requires NamedAccounts(v.accounts) && FreshKeys(v, ks, groupID)
    requires Fair(v, v.keys, Pool(v, groupID, model, gate, now), model, now)
    ensures var pool := Pool(v, groupID, model, gate, now);
            var after := AssignEach(v, ks, model, gate, now);
            && after == v.(keys := after.keys)
            && Fair(v, after.keys, pool, model, now)
            && (forall j :: 0 <= j < |v.keys| && j !in ks ==> after.keys[j] == v.keys[j])
            && (pool != [] ==> forall i :: 0 <= i < |ks| ==> BoundInto(after.keys[ks[i]], pool))
  {
    hide Pool, Assign, Fair;
    if ks != [] {
      var init, k := ks[..|ks| - 1], ks[|ks| - 1];
      FairRun(v, init, groupID, model, gate, now);
      var before := AssignEach(v, init, model, gate, now);
      assert k !in init && before.keys[k] == v.keys[k];
      SamePool(v, before.keys, groupID, model, gate, now);
      FairElsewhere(v, before, Pool(v, groupID, model, gate, now), model, now);
      FairStep(before, k, groupID, model, gate, now);
      FairElsewhere(v, before.(keys := Assign(before, k, model, gate, now).1), Pool(v, groupID, model, gate, now),
        model, now);
      FreshAssign(before, k, groupID, model, gate, now);
      hide RankOf, Before, HealthyCount;
      FairElsewhereStep(v, before, Assign(before, k, model, gate, now).1, Pool(v, groupID, model, gate, now), model,
        now);
    }
  }

  predicate BoundInto(key: KeyState, pool: seq<AccountState>) {
    exists i :: 0 <= i < |pool| && key.accountID == pool[i].config.id
  }

  /** Fairness depends on the keys and the upstream APIs only. */
  lemma FairElsewhere(v: View, w: View, pool: seq<AccountState>, model: string, now: int)
    requires w == v.(keys := w.keys)
    ensures Fair(v, w.keys, pool, model, now) <==> Fair(w, w.keys, pool, model, now)
  {
    hide FairPair;
    forall a, b ensures FairPair(v, w.keys, a, b, model, now) == FairPair(w, w.keys, a, b, model, now) {
      FairPairElsewhere(v, w, a, b, model, now);
    }
  }

  lemma FairPairElsewhere(v: View, w: View, a: AccountState, b: AccountState, model: string, now: int)
    requires w == v.(keys := w.keys)
    ensures FairPair(v, w.keys, a, b, model, now) == FairPair(w, w.keys, a, b, model, now)
  {
    hide HealthyCount, Load;
  }

  lemma FairElsewhereStep(v: View, w: View, keys: seq<KeyState>, pool: seq<AccountState>, model: string, now: int)
    requires w == v.(keys := w.keys)
    ensures Fair(v, keys, pool, model, now) <==> Fair(w, keys, pool, model, now)
  {
    FairElsewhere(v, v.(keys := keys), pool, model, now);
    FairElsewhere(w, w.(keys := keys), pool, model, now);
    assert v.(keys := keys) == w.(keys := keys);
    hide Fair;
  }

  /** Binding one more key leaves a fair pool fair if and only if the account is outside the pool, or carries
      no more keys per healthy upstream than any other account of the pool. */
  lemma BindingKeepsFairIff(v: View, k: nat, pool: seq<AccountState>, c: AccountState, model: string, now: int)
    requires k < |v.keys| && v.keys[k].accountID == "" && c.config.id != ""
    requires NamedAccounts(pool) && (c in pool || forall a :: a in pool ==> a.config.id != c.config.id)
    requires forall a :: a in pool ==> HealthyCount(v.providers, a.config.id, model, now) > 0
    requires Fair(v, v.keys, pool, model, now)
    ensures Fair(v, Bound(v.keys, k, c.config.id), pool, model, now)
            <==> c !in pool || forall b :: b in pool ==> NoFuller(v, c, b, model, now)
  {
    hide HealthyCount, Load, Fair, FairPair, NoFuller;
    if c !in pool {
      OutsidersKeepFair(v, k, pool, c, model, now);
    } else {
      FairIs(v, v.keys, pool, model, now);
      forall a, b | a in pool && b in pool
        ensures FairPair(v, Bound(v.keys, k, c.config.id), a, b, model, now)
                <==> a != c || b == c || NoFuller(v, c, b, model, now)
      {
        PairAfterBinding(v, k, pool, c, a, b, model, now);
      }
      NoFullerItself(v, c, model, now);
      FairIs(v, Bound(v.keys, k, c.config.id), pool, model, now);
    }
  }

  /** No more keys per healthy upstream: load(c) / healthy(c) <= load(b) / healthy(b). */
  predicate NoFuller(v: View, c: AccountState, b: AccountState, model: string, now: int) {
    Load(v.keys, c.config.id) * HealthyCount(v.providers, b.config.id, model, now)
    <= Load(v.keys, b.config.id) * HealthyCount(v.providers, c.config.id, model, now)
  }

  lemma NoFullerItself(v: View, c: AccountState, model: string, now: int)
    ensures NoFuller(v, c, c, model, now)
  {
  }

  lemma FairIs(v: View, keys: seq<KeyState>, pool: seq<AccountState>, model: string, now: int)
    ensures Fair(v, keys, pool, model, now)
            <==> forall a, b :: a in pool && b in pool ==> FairPair(v, keys, a, b, model, now)
  {
  }

  lemma PairAfterBinding(
      v: View, k: nat, pool: seq<AccountState>, c: AccountState, a: AccountState, b: AccountState, model: string,
      now: int)
    requires k < |v.keys| && v.keys[k].accountID == "" && c.config.id != "" && NamedAccounts(pool)
    requires a in pool && b in pool && c in pool
    requires FairPair(v, v.keys, a, b, model, now)
    ensures FairPair(v, Bound(v.keys, k, c.config.id), a, b, model, now)
            <==> a != c || b == c || NoFuller(v, c, b, model, now)
  {
    LoadOfBound(v.keys, k, c.config.id, a.config.id);
    LoadOfBound(v.keys, k, c.config.id, b.config.id);
    MoreIsMore(Load(v.keys, b.config.id), HealthyCount(v.providers, a.config.id, model, now));
    hide Load, HealthyCount;
  }

  lemma OutsidersKeepFair(v: View, k: nat, pool: seq<AccountState>, c: AccountState, model: string, now: int)
    requires k < |v.keys| && v.keys[k].accountID == "" && c.config.id != ""
    requires forall a :: a in pool ==> a.config.id != c.config.id && a.config.id != ""
    requires Fair(v, v.keys, pool, model, now)
    ensures Fair(v, Bound(v.keys, k, c.config.id), pool, model, now)
  {
    hide Load, HealthyCount;
    forall a, b | a in pool && b in pool ensures FairPair(v, Bound(v.keys, k, c.config.id), a, b, model, now) {
      LoadOfBound(v.keys, k, c.config.id, a.config.id);
      LoadOfBound(v.keys, k, c.config.id, b.config.id);
      assert FairPair(v, v.keys, a, b, model, now);
    }
  }

  // ---------------------------------------------------------------------------------------------
  // Runs over several groups and models
  // ---------------------------------------------------------------------------------------------

  /** A request with the key at a position. */
  datatype Request = Request(key: nat, model: string, gate: Gate)

  function ServeEach(v: View, requests: seq<Request>, now: int): View
    requires forall i :: 0 <= i < |requests| ==> requests[i].key < |v.keys|
    ensures |ServeEach(v, requests, now).keys| == |v.keys|
  {
    if requests == [] then v
    else
      var before, r := ServeEach(v, requests[..|requests| - 1], now), requests[|requests| - 1];
      before.(keys := Assign(before, r.key, r.model, r.gate, now).1)
  }

  /** Different keys without an account. */
  predicate FreshRequests(v: View, requests: seq<Request>) {
    && (forall i :: 0 <= i < |requests| ==> requests[i].key < |v.keys| && v.keys[requests[i].key].accountID == "")
    && (forall i, j :: 0 <= i < j < |requests| ==> requests[i].key != requests[j].key)
  }

  function PoolFor(v: View, r: Request, now: int): seq<AccountState>
    requires r.key < |v.keys|
  {
    Pool(v, v.keys[r.key].groupID, r.model, r.gate, now)
  }

  predicate PoolsApart(pool: seq<AccountState>, other: seq<AccountState>) {
    forall a, b :: a in pool && b in other ==> a.config.id != b.config.id
  }

  /** The request chooses from the pool itself, or from accounts outside it. */
  predicate Harmless(v: View, r: Request, pool: seq<AccountState>, model: string, now: int)
    requires r.key < |v.keys|
  {
    (r.model == model && PoolFor(v, r, now) == pool) || PoolsApart(PoolFor(v, r, now), pool)
  }

  /** A fair pool stays fair under any run of requests of which each chooses from this very pool, for the same
      model, or from accounts outside it. */
  lemma {:induction false} FairMixedRun(
      v: View, requests: seq<Request>, groupID: string, model: string, gate: Gate, now: int)
    requires NamedAccounts(v.accounts) && FreshRequests(v, requests)
    requires var pool := Pool(v, groupID, model, gate, now);
             && Fair(v, v.keys, pool, model, now)
             && forall i :: 0 <= i < |requests| ==> Harmless(v, requests[i], pool, model, now)
    ensures var after := ServeEach(v, requests, now);
            && after == v.(keys := after.keys)
            && Fair(v, after.keys, Pool(v, groupID, model, gate, now), model, now)
            && forall j :: 0 <= j < |v.keys| && (forall i :: 0 <= i < |requests| ==> requests[i].key != j) ==>
                 after.keys[j] == v.keys[j]
  {
    hide Pool, Assign, Fair, Harmless;
    if requests != [] {
      var init, r := requests[..|requests| - 1], requests[|requests| - 1];
      FairMixedRun(v, init, groupID, model, gate, now);
      var before, pool := ServeEach(v, init, now), Pool(v, groupID, model, gate, now);
      assert before.keys[r.key] == v.keys[r.key];
      FairRequest(v, before, r, pool, groupID, model, gate, now);
    }
  }

  lemma FairRequest(
      v: View, before: View, r: Request, pool: seq<AccountState>, groupID: string, model: string, gate: Gate, now: int)
    requires NamedAccounts(v.accounts) && before == v.(keys := before.keys) && |before.keys| == |v.keys|
    requires r.key < |v.keys| && before.keys[r.key] == v.keys[r.key] && v.keys[r.key].accountID == ""
    requires pool == Pool(v, groupID, model, gate, now) && Harmless(v, r, pool, model, now)
    requires Fair(v, before.keys, pool, model, now)
    ensures var keys := Assign(before, r.key, r.model, r.gate, now).1;
            && |keys| == |v.keys| && Fair(v, keys, pool, model, now)
            && forall j :: 0 <= j < |keys| && j != r.key ==> keys[j] == before.keys[j]
  {
    var own, keys := PoolFor(v, r, now), Assign(before, r.key, r.model, r.gate, now).1;
    SamePool(v, before.keys, v.keys[r.key].groupID, r.model, r.gate, now);
    FreshAssign(before, r.key, v.keys[r.key].groupID, r.model, r.gate, now);
    FairElsewhere(v, before, pool, model, now);
    PoolMembers(v, groupID, model, gate, now);
    PoolMembers(v, v.keys[r.key].groupID, r.model, r.gate, now);
    hide Pool, Assign, Fair, RankOf, Before, HealthyCount, Declares, Eligible;
    if r.model == model && own == pool {
      FairStep(before, r.key, v.keys[r.key].groupID, model, r.gate, now);
    } else if own != [] {
      var chosen := Assign(before, r.key, r.model, r.gate, now).0.value;
      OutsidersKeepFair(before, r.key, pool, chosen, model, now);
    }
    FairElsewhereStep(v, before, keys, pool, model, now);
  }

  /** Pools of different named groups share no account, whatever the models and the gates. */
  lemma GroupsAreApart(v: View, groupID: string, other: string, model: string, otherModel: string, gate: Gate,
      otherGate: Gate, now: int)
    requires NamedAccounts(v.accounts) && groupID != "" && other != "" && groupID != other
    ensures PoolsApart(Pool(v, other, otherModel, otherGate, now), Pool(v, groupID, model, gate, now))
  {
    PoolMembers(v, groupID, model, gate, now);
    PoolMembers(v, other, otherModel, otherGate, now);
    hide Pool, Declares, GroupOn, Usable, HealthyCount;
    forall a, b | a in Pool(v, other, otherModel, otherGate, now) && b in Pool(v, groupID, model, gate, now)
      ensures a.config.id != b.config.id
    {
      assert InScope(a, other) && InScope(b, groupID) && a != b;
    }
  }

  /** A pool that carries no keys is fair. */
  lemma UnloadedIsFair(v: View, pool: seq<AccountState>, model: string, now: int)
    requires forall a :: a in pool ==> Load(v.keys, a.config.id) == 0
    ensures Fair(v, v.keys, pool, model, now)
  {
    hide Load, HealthyCount;
  }

  /** An enabled account without a limit, an upstream API of it, and a key without an account. */
  function PlainAccount(id: string): AccountState {
    AccountState(Config(id, "", 0, NoBilling, false, false, false, 0.0), true, false, 0.0, 0.0, 0.0, false, false, 0)
  }

  function PlainProvider(accountID: string, models: set<string>): ProviderState {
    ProviderState(accountID, accountID, true, 0, m => m in models, false)
  }

  function PlainKey(id: string): KeyState {
    KeyState(id, id, "", "")
  }

  /** Account "a" serves two models, account "b" only the first. */
  function TwoModels(): View {
    View([], [PlainAccount("a"), PlainAccount("b")], [PlainProvider("a", {"m1", "m2"}), PlainProvider("b", {"m1"})],
         [PlainKey("k"), PlainKey("l")])
  }

  lemma TwoCounts(p: ProviderState, q: ProviderState, id: string, model: string, now: int)
    ensures HealthyCount([p, q], id, model, now) ==
            (if p.accountID == id && Active(p, now) && Supports(p, model) then 1 else 0)
            + (if q.accountID == id && Active(q, now) && Supports(q, model) then 1 else 0)
    ensures ExplicitCount([p, q], id, model, now) ==
            (if p.accountID == id && Active(p, now) && DeclaredBy(p, model) then 1 else 0)
            + (if q.accountID == id && Active(q, now) && DeclaredBy(q, model) then 1 else 0)
  {
    hide Active, Supports, DeclaredBy;
    assert [p, q][..1] == [p] && [p][..0] == [];
    assert HealthyCount([], id, model, now) == ExplicitCount([], id, model, now) == 0;
    assert HealthyCount([p], id, model, now) ==
           if p.accountID == id && Active(p, now) && Supports(p, model) then 1 else 0;
    assert ExplicitCount([p], id, model, now) ==
           if p.accountID == id && Active(p, now) && DeclaredBy(p, model) then 1 else 0;
  }

  lemma TwoModelsHealth()
    ensures HealthyCount(TwoModels().providers, "a", "m1", 0) == HealthyCount(TwoModels().providers, "b", "m1", 0) == 1
    ensures HealthyCount(TwoModels().providers, "a", "m2", 0) == 1
            && HealthyCount(TwoModels().providers, "b", "m2", 0) == 0
    ensures ExplicitCount(TwoModels().providers, "a", "m1", 0) ==
            ExplicitCount(TwoModels().providers, "b", "m1", 0) == 1
    ensures ExplicitCount(TwoModels().providers, "a", "m2", 0) == 1
  {
    hide HealthyCount, ExplicitCount;
    var p, q := PlainProvider("a", {"m1", "m2"}), PlainProvider("b", {"m1"});
    TwoCounts(p, q, "a", "m1", 0);
    TwoCounts(p, q, "b", "m1", 0);
    TwoCounts(p, q, "a", "m2", 0);
    TwoCounts(p, q, "b", "m2", 0);
  }

  lemma TwoModelsPools()
    ensures var v, a, b := TwoModels(), PlainAccount("a"), PlainAccount("b");
            && a in Pool(v, "", "m1", NoGate, 0) && b in Pool(v, "", "m1", NoGate, 0)
            && a in Pool(v, "", "m2", NoGate, 0) && forall c :: c in Pool(v, "", "m2", NoGate, 0) ==> c == a
  {
    var v, a, b := TwoModels(), PlainAccount("a"), PlainAccount("b");
    TwoModelsHealth();
    PoolMembers(v, "", "m1", NoGate, 0);
    PoolMembers(v, "", "m2", NoGate, 0);
    hide HealthyCount, ExplicitCount, Pool;
    assert Usable(a) && Usable(b);
    assert Eligible(v, a, "", "m1", NoGate, 0) && Declares(v, a, "m1", 0);
    assert Eligible(v, b, "", "m1", NoGate, 0) && Declares(v, b, "m1", 0);
    assert Eligible(v, a, "", "m2", NoGate, 0) && Declares(v, a, "m2", 0) && !Eligible(v, b, "", "m2", NoGate, 0);
  }

  lemma GoesToA(w: View, k: nat)
    requires w == TwoModels().(keys := w.keys) && k < |w.keys| && w.keys[k].accountID == w.keys[k].groupID == ""
    ensures Assign(w, k, "m2", NoGate, 0).1 == Bound(w.keys, k, "a")
  {
    TwoModelsPools();
    SamePool(TwoModels(), w.keys, "", "m2", NoGate, 0);
    FreshAssign(w, k, "", "m2", NoGate, 0);
    hide Pool, Assign, RankOf, Before, HealthyCount;
  }

  lemma BothGoToA()
    ensures var requests := [Request(0, "m2", NoGate), Request(1, "m2", NoGate)];
            ServeEach(TwoModels(), requests, 0).keys ==
            [PlainKey("k").(accountID := "a"), PlainKey("l").(accountID := "a")]
  {
    var v, r, s := TwoModels(), Request(0, "m2", NoGate), Request(1, "m2", NoGate);
    hide Assign;
    assert [r][..0] == [] && ServeEach(v, [], 0) == v;
    GoesToA(v, 0);
    var w := ServeEach(v, [r], 0);
    assert w == v.(keys := Bound(v.keys, 0, "a"));
    GoesToA(w, 1);
    assert [r, s][..1] == [r];
  }

  lemma TwoLoads(k: KeyState, l: KeyState)
    ensures forall id :: Load([k, l], id) == (if k.accountID == id then 1 else 0) + (if l.accountID == id then 1 else 0)
  {
    assert [k, l][..1] == [k] && [k][..0] == [];
    assert forall id :: Load([], id) == 0;
    assert forall id :: Load([k], id) == if k.accountID == id then 1 else 0;
  }

  /** Requests for different models over shared accounts may break fairness: two keys used for the second model
      both go to account "a", and the pool of the first model, fair before, is not fair any more. */
  lemma MixedModelsAreUnfair()
    ensures var v, requests := TwoModels(), [Request(0, "m2", NoGate), Request(1, "m2", NoGate)];
            var pool := Pool(v, "", "m1", NoGate, 0);
            && NamedAccounts(v.accounts) && FreshRequests(v, requests)
            && Fair(v, v.keys, pool, "m1", 0)
            && !Fair(v, ServeEach(v, requests, 0).keys, pool, "m1", 0)
  {
    var v, pool := TwoModels(), Pool(TwoModels(), "", "m1", NoGate, 0);
    var keys := [PlainKey("k").(accountID := "a"), PlainKey("l").(accountID := "a")];
    BothGoToA();
    TwoModelsPools();
    TwoModelsHealth();
    PoolMembers(v, "", "m1", NoGate, 0);
    hide Pool, ServeEach, HealthyCount, ExplicitCount, Declares, Eligible;
    TwoLoads(keys[0], keys[1]);
    TwoLoads(v.keys[0], v.keys[1]);
    assert forall c :: c in pool ==> Load(v.keys, c.config.id) == 0;
    UnloadedIsFair(v, pool, "m1", 0);
    assert !FairPair(v, keys, PlainAccount("a"), PlainAccount("b"), "m1", 0);
  }

  /** Requests are charged to the account that their key is bound to afterwards.  That is the account that serves,
      unless the key is bound to an account that keeps its keys but is outside the pool of this request. */
  lemma ServedIsChargedIff(v: View, k: nat, model: string, gate: Gate, now: int)
    requires k < |v.keys| && NamedAccounts(v.accounts) && Assign(v, k, model, gate, now).0.Some?
    ensures Assign(v, k, model, gate, now).0.value.config.id == Assign(v, k, model, gate, now).1[k].accountID
            <==> !(v.keys[k].accountID != "" && KeepsItsKeys(v, v.keys[k], now)
                   && !Holds(Pool(v, v.keys[k].groupID, model, gate, now), v.keys[k].accountID))
  {
    var key, pool := v.keys[k], Pool(v, v.keys[k].groupID, model, gate, now);
    FoundAccount(v.accounts, key.accountID);
    BestIsMinimal(v, pool, model, now);
    if key.accountID != "" {
      DecisionOnBinding(v, key, model, gate, now);
    }
    hide Pool, Best, KeepsItsKeys, FindAccount, HealthyCount, GroupOn, Usable;
    if Decide(v, key, model, gate, now).Borrow? {
      var i :| 0 <= i < |pool| && pool[i] == Best(v, pool, model, now).value;
    }
  }

  /** A key bound to account "b" asks for the model that only account "a" serves: "a" serves it and "b" pays. */
  lemma BorrowedIsNotCharged()
    ensures var v := TwoModels().(keys := [PlainKey("k").(accountID := "b")]);
            var (served, keys) := Assign(v, 0, "m2", NoGate, 0);
            served == Some(PlainAccount("a")) && keys[0].accountID == "b"
  {
    var v := TwoModels().(keys := [PlainKey("k").(accountID := "b")]);
    var pool := Pool(v, "", "m2", NoGate, 0);
    TwoModelsPools();
    SamePool(TwoModels(), v.keys, "", "m2", NoGate, 0);
    TwoCounts(PlainProvider("a", {"m1", "m2"}), PlainProvider("b", {"m1"}), "b", "", 0);
    BestIsMinimal(v, pool, "m2", 0);
    hide Pool, Best, HealthyCount, ExplicitCount;
    assert v.accounts[0].config.id == "a" && v.accounts[1].config.id == "b";
    assert v.accounts[1..][0] == PlainAccount("b");
    assert FindAccount(v.accounts, "b") == Some(PlainAccount("b"));
    assert Usable(PlainAccount("b"));
    forall i | 0 <= i < |pool| ensures pool[i].config.id == "a" {
      assert pool[i] in pool;
    }
    assert !Holds(pool, "b");
  }

  /** In a fair pool, accounts with as many healthy upstreams carry the same number of keys up to one. */
  lemma EqualsDifferByOne(v: View, keys: seq<KeyState>, groupID: string, model: string, gate: Gate, now: int,
      a: AccountState, b: AccountState)
    requires Fair(v, keys, Pool(v, groupID, model, gate, now), model, now)
    requires a in Pool(v, groupID, model, gate, now) && b in Pool(v, groupID, model, gate, now)
    requires HealthyCount(v.providers, a.config.id, model, now) == HealthyCount(v.providers, b.config.id, model, now)
    ensures -1 <= Load(keys, a.config.id) - Load(keys, b.config.id) <= 1
  {
    PoolIsHealthy(v, groupID, model, gate, now);
    var n := HealthyCount(v.providers, a.config.id, model, now);
    assert FairPair(v, keys, a, b, model, now) && FairPair(v, keys, b, a, model, now);
    hide Pool, Fair, HealthyCount, Load;
    CancelFactor(Load(keys, a.config.id) - 1, Load(keys, b.config.id), n);
    CancelFactor(Load(keys, b.config.id) - 1, Load(keys, a.config.id), n);
  }

  lemma CancelFactor(x: int, y: int, n: nat)
    requires n > 0
    ensures x * n <= y * n ==> x <= y
  {
    if x > y {
      Distributes(y, x - y, n);
      PositiveProduct(x - y, n);
    }
  }

  lemma Distributes(x: int, y: int, n: int)
    ensures (x + y) * n == x * n + y * n
  {
  }

  lemma PositiveProduct(x: int, n: int)
    requires x > 0 && n > 0
    ensures x * n > 0
  {
  }
}
