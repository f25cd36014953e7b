/** The stored data and its in-memory indexes (internal/store/allocate.go, internal/store/store.go,
    internal/store/account.go).  Lookups are answered from the indexes; every answer is proved to be that
    of the linear scan, and every operation to do what its function on the plain data says. */
module Store {
  import opened Accounts
  import opened Allocation
  import opened Lifecycle
  import opened Lists
  import Metering
  import opened Sorting

  class Group {
    const id: string
    var enabled: bool

    function State(): GroupState
      reads this
    {
      GroupState(id, enabled)
    }

    constructor (g: GroupState)
      ensures State() == g
    {
      id, enabled := g.id, g.enabled;
    }
  }

  class Provider {
    const id: string
    const accountID: string
    const declares: string -> bool
    const anyModel: bool
    var enabled: bool
    var cooldownUntil: int

    function State(): ProviderState
      reads this
    {
      ProviderState(id, accountID, enabled, cooldownUntil, declares, anyModel)
    }

    constructor (p: ProviderState)
      ensures State() == p
    {
      id, accountID, declares, anyModel := p.id, p.accountID, p.declares, p.anyModel;
      enabled, cooldownUntil := p.enabled, p.cooldownUntil;
    }
  }

  class APIKey {
    const id: string
    const keyHash: string
    var accountID: string
    var groupID: string

    function State(): KeyState
      reads this
    {
      KeyState(id, keyHash, accountID, groupID)
    }

    constructor (k: KeyState)
      ensures State() == k
    {
      id, keyHash, accountID, groupID := k.id, k.keyHash, k.accountID, k.groupID;
    }
  }

  function GroupStates(groups: seq<Group>): (states: seq<GroupState>)
    reads groups
    ensures |states| == |groups|
  {
    seq(|groups|, i requires 0 <= i < |groups| reads groups => groups[i].State())
  }

  function ProviderStates(providers: seq<Provider>): (states: seq<ProviderState>)
    reads providers
    ensures |states| == |providers|
  {
    seq(|providers|, i requires 0 <= i < |providers| reads providers => providers[i].State())
  }

  function KeyStates(keys: seq<APIKey>): (states: seq<KeyState>)
    reads keys
    ensures |states| == |keys|
  {
    seq(|keys|, i requires 0 <= i < |keys| reads keys => keys[i].State())
  }

  // ---------------------------------------------------------------------------------------------
  // Indexes
  // ---------------------------------------------------------------------------------------------

  function GroupIDs(groups: seq<Group>): (ids: seq<string>)
    ensures |ids| == |groups|
  {
    seq(|groups|, i requires 0 <= i < |groups| => groups[i].id)
  }

  function AccountIDs(accounts: seq<Account>): (ids: seq<string>)
    ensures |ids| == |accounts|
  {
    seq(|accounts|, i requires 0 <= i < |accounts| => accounts[i].config.id)
  }

  function ProviderIDs(providers: seq<Provider>): (ids: seq<string>)
    ensures |ids| == |providers|
  {
    seq(|providers|, i requires 0 <= i < |providers| => providers[i].id)
  }

  function KeyHashes(keys: seq<APIKey>): (ids: seq<string>)
    ensures |ids| == |keys|
  {
    seq(|keys|, i requires 0 <= i < |keys| => keys[i].keyHash)
  }

  /** Where a scan from the front finds an id, or the length. */
  function FirstOf(ids: seq<string>, id: string): (k: nat)
    ensures k <= |ids|
    ensures k < |ids| ==> ids[k] == id
    ensures forall j :: 0 <= j < k ==> ids[j] != id
  {
    if ids == [] || ids[0] == id then 0 else 1 + FirstOf(ids[1..], id)
  }

  /** Where an id was seen last, or the length. */
  function LastOf(ids: seq<string>, id: string): (k: nat)
    ensures k <= |ids|
    ensures k < |ids| ==> ids[k] == id && forall j :: k < j < |ids| ==> ids[j] != id
    ensures k == |ids| ==> id !in ids
  {
    if ids == [] then 0
    else if ids[|ids| - 1] == id then |ids| - 1
    else
      var k := LastOf(ids[..|ids| - 1], id);
      if k == |ids| - 1 then |ids| else k
  }

  predicate Distinct(ids: seq<string>) {
    forall i, j :: 0 <= i < j < |ids| ==> ids[i] != ids[j]
  }

  predicate Named(ids: seq<string>) {
    Distinct(ids) && "" !in ids
  }

  /** An index answers every lookup like the scan exactly when no id occurs twice. */
  lemma IndexIsScanIffDistinct(ids: seq<string>)
    ensures Distinct(ids) <==> forall id :: LastOf(ids, id) == FirstOf(ids, id)
  {
    if Distinct(ids) {
      forall id ensures LastOf(ids, id) == FirstOf(ids, id) {
        var first, last := FirstOf(ids, id), LastOf(ids, id);
        assert first == |ids| ==> id !in ids;
        assert first < |ids| && last < |ids| ==> first == last;
      }
    } else {
      var i, j :| 0 <= i < j < |ids| && ids[i] == ids[j];
      assert FirstOf(ids, ids[i]) <= i < j <= LastOf(ids, ids[i]);
    }
  }

  /** What a loop over xs that overwrites earlier entries leaves in a map. */
  ghost predicate Looks<T>(index: map<string, T>, xs: seq<T>, ids: seq<string>, blanks: bool)
    requires |ids| == |xs|
  {
    forall id ::
      if LastOf(ids, id) < |ids| && (blanks || id != "") then id in index && index[id] == xs[LastOf(ids, id)]
      else id !in index
  }

  method IndexBy<T>(xs: seq<T>, ids: seq<string>, blanks: bool) returns (index: map<string, T>)
    requires |ids| == |xs|
    ensures Looks(index, xs, ids, blanks)
  {
    index := map[];
    for i := 0 to |xs|
      invariant Looks(index, xs[..i], ids[..i], blanks)
    {
      assert ids[..i + 1][..i] == ids[..i];
      if blanks || ids[i] != "" {
        index := index[ids[i] := xs[i]];
      }
    }
    assert xs[..|xs|] == xs && ids[..|ids|] == ids;
  }

  function OwnedBy(providers: seq<Provider>, id: string): seq<Provider> {
    if providers == [] then []
    else
      var before, last := OwnedBy(providers[..|providers| - 1], id), providers[|providers| - 1];
      if last.accountID == id then before + [last] else before
  }

  ghost predicate Owns(index: map<string, seq<Provider>>, providers: seq<Provider>) {
    && "" !in index
    && forall id :: id != "" ==> (if id in index then index[id] else []) == OwnedBy(providers, id)
  }

  method IndexOwners(providers: seq<Provider>) returns (index: map<string, seq<Provider>>)
    ensures Owns(index, providers)
  {
    index := map[];
    for i := 0 to |providers|
      invariant Owns(index, providers[..i])
    {
      assert providers[..i + 1][..i] == providers[..i];
      var p := providers[i];
      if p.accountID != "" {
        index := index[p.accountID := (if p.accountID in index then index[p.accountID] else []) + [p]];
      }
    }
    assert providers[..|providers|] == providers;
  }

  function Counted(index: map<string, nat>, id: string): nat {
    if id in index then index[id] else 0
  }

  method CountLoads(keys: seq<APIKey>) returns (index: map<string, nat>)
    ensures forall id :: Counted(index, id) == if id == "" then 0 else Load(KeyStates(keys), id)
  {
    index := map[];
    ghost var states := KeyStates(keys);
    for i := 0 to |keys|
      invariant forall id :: Counted(index, id) == if id == "" then 0 else Load(states[..i], id)
    {
      assert states[..i + 1][..i] == states[..i];
      if keys[i].accountID != "" {
        index := index[keys[i].accountID := Counted(index, keys[i].accountID) + 1];
      }
    }
    assert states[..|keys|] == states;
  }

  // ---------------------------------------------------------------------------------------------
  // Lookups
  // ---------------------------------------------------------------------------------------------

  function Scanned<T>(xs: seq<T>, ids: seq<string>, id: string): Option<T>
    requires |ids| == |xs|
  {
    if FirstOf(ids, id) < |xs| then Some(xs[FirstOf(ids, id)]) else None
  }

  function Get<S, T>(index: Option<S>, part: S -> T): Option<T> {
    if index.Some? then Some(part(index.value)) else None
  }

  /** A lookup in the index, or a scan while there is none. */
  method Lookup<T>(index: Option<map<string, T>>, xs: seq<T>, ids: seq<string>, blanks: bool, id: string)
    returns (found: Option<T>)
    requires |ids| == |xs| && Distinct(ids)
    requires index.Some? ==> Looks(index.value, xs, ids, blanks) && (blanks || id != "")
    ensures found == Scanned(xs, ids, id)
  {
    if index.Some? {
      IndexIsScanIffDistinct(ids);
      return if id in index.value then Some(index.value[id]) else None;
    }
    for i := 0 to |xs|
      invariant forall j :: 0 <= j < i ==> ids[j] != id
    {
      if ids[i] == id {
        return Some(xs[i]);
      }
    }
    return None;
  }

  lemma {:induction false} GroupScan(groups: seq<Group>, id: string)
    ensures FindGroup(GroupStates(groups), id) ==
            match Scanned(groups, GroupIDs(groups), id) { case None => None case Some(g) => Some(g.State()) }
  {
    if groups != [] {
      GroupScan(groups[1..], id);
      assert GroupStates(groups)[1..] == GroupStates(groups[1..]);
      assert GroupIDs(groups)[1..] == GroupIDs(groups[1..]);
    }
  }

  lemma {:induction false} AccountScan(accounts: seq<Account>, id: string)
    requires id != ""
    ensures FindAccount(AccountStates(accounts), id) ==
            match Scanned(accounts, AccountIDs(accounts), id) { case None => None case Some(a) => Some(a.State()) }
  {
    if accounts != [] {
      AccountScan(accounts[1..], id);
      assert AccountStates(accounts)[1..] == AccountStates(accounts[1..]);
      assert AccountIDs(accounts)[1..] == AccountIDs(accounts[1..]);
    }
  }

  /** The counts over an account's own upstream APIs are those over all of them. */
  lemma {:induction false} OwnCounts(providers: seq<Provider>, id: string, model: string, now: int)
    ensures ExplicitCount(ProviderStates(OwnedBy(providers, id)), id, model, now) ==
            ExplicitCount(ProviderStates(providers), id, model, now)
    ensures HealthyCount(ProviderStates(OwnedBy(providers, id)), id, model, now) ==
            HealthyCount(ProviderStates(providers), id, model, now)
  {
    hide Active, Supports, DeclaredBy;
    if providers != [] {
      var init, last := providers[..|providers| - 1], providers[|providers| - 1];
      OwnCounts(init, id, model, now);
      var own := OwnedBy(init, id);
      assert ProviderStates(providers)[..|providers| - 1] == ProviderStates(init);
      assert ProviderStates(own + [last])[..|own|] == ProviderStates(own);
    }
  }

  lemma NoCounts(id: string, model: string, now: int)
    ensures ExplicitCount([], id, model, now) == 0 && HealthyCount([], id, model, now) == 0
  {
  }

  lemma CountStep(states: seq<ProviderState>, i: nat, id: string, model: string, now: int)
    requires i < |states|
    ensures ExplicitCount(states[..i + 1], id, model, now) == ExplicitCount(states[..i], id, model, now)
            + if states[i].accountID == id && Active(states[i], now) && DeclaredBy(states[i], model) then 1 else 0
    ensures HealthyCount(states[..i + 1], id, model, now) == HealthyCount(states[..i], id, model, now)
            + if states[i].accountID == id && Active(states[i], now) && Supports(states[i], model) then 1 else 0
  {
    assert states[..i + 1][..i] == states[..i];
  }

  lemma {:induction false} OwnedAreOwn(providers: seq<Provider>, id: string)
    ensures forall i :: 0 <= i < |OwnedBy(providers, id)| ==>
              OwnedBy(providers, id)[i].accountID == id && OwnedBy(providers, id)[i] in providers
  {
    if providers != [] {
      OwnedAreOwn(providers[..|providers| - 1], id);
    }
  }

  lemma BoundTwice(keys: seq<KeyState>, k: nat)
    requires k < |keys|
    ensures forall id :: Bound(Bound(keys, k, ""), k, id) == Bound(keys, k, id)
  {
  }

  /** An account of the pool, by its position there. */
  datatype Ranked = Ranked(rank: Rank, position: nat)

  function Lower(): ((Ranked, Ranked) -> bool) {
    (a: Ranked, b: Ranked) => Before(a.rank, b.rank)
  }

  /** Sorting the pool by ranks taken beforehand puts its best account first. */
  lemma SortedPool(v: View, pool: seq<AccountState>, ranked: seq<Ranked>, model: string, now: int)
    requires |ranked| == |pool| > 0
    requires forall i :: 0 <= i < |pool| ==> ranked[i] == Ranked(RankOf(v, pool[i], model, now), i)
    ensures |StableSorted(ranked, Lower())| == |ranked|
    ensures var k := StableSorted(ranked, Lower())[0].position;
            k < |pool| && Best(v, pool, model, now) == Some(pool[k])
  {
    hide Before, RankOf, StableSorted;
    ByRankIsOrder(v, model, now);
    LowerIsOrder();
    SortHead(pool, ByRank(v, model, now));
    SortHead(ranked, Lower());
    SameFirstMinimum(pool, ByRank(v, model, now), ranked, Lower());
  }

  lemma EmptyBest(v: View, model: string, now: int)
    ensures Best(v, [], model, now) == None
  {
  }

  lemma LowerIsOrder()
    ensures StrictWeakOrder(Lower())
  {
  }

  /** Filtering objects and then looking at their states is filtering the states. */
  lemma {:induction false} KeptAccountStates(accounts: seq<Account>, wanted: set<string>)
    ensures AccountStates(Filtered(accounts, AccountOutside(wanted))) == KeptAccounts(AccountStates(accounts), wanted)
  {
    if accounts != [] {
      KeptAccountStates(accounts[..|accounts| - 1], wanted);
      assert AccountStates(accounts)[..|accounts| - 1] == AccountStates(accounts[..|accounts| - 1]);
    }
  }

  lemma {:induction false} KeptKeyStates(keys: seq<APIKey>, wanted: set<string>)
    ensures KeyStates(Filtered(keys, KeyOutside(wanted))) == KeptKeys(KeyStates(keys), wanted)
  {
    if keys != [] {
      KeptKeyStates(keys[..|keys| - 1], wanted);
      assert KeyStates(keys)[..|keys| - 1] == KeyStates(keys[..|keys| - 1]);
    }
  }

  lemma {:induction false} KeptGroupStates(groups: seq<Group>, wanted: set<string>)
    ensures GroupStates(Filtered(groups, GroupOutside(wanted))) == KeptGroups(GroupStates(groups), wanted)
  {
    if groups != [] {
      KeptGroupStates(groups[..|groups| - 1], wanted);
      assert GroupStates(groups)[..|groups| - 1] == GroupStates(groups[..|groups| - 1]);
    }
  }

  lemma {:induction false} KeptProviderStates(providers: seq<Provider>, wanted: set<string>)
    ensures ProviderStates(Filtered(providers, OwnerOutside(wanted))) ==
            KeptProviders(ProviderStates(providers), wanted)
    ensures ProviderStates(Filtered(providers, ProviderOutside(wanted))) ==
            OtherProviders(ProviderStates(providers), wanted)
  {
    if providers != [] {
      KeptProviderStates(providers[..|providers| - 1], wanted);
      assert ProviderStates(providers)[..|providers| - 1] == ProviderStates(providers[..|providers| - 1]);
    }
  }

  function AccountOutside(wanted: set<string>): (Account -> bool) {
    (a: Account) => a.config.id !in wanted
  }

  function KeyOutside(wanted: set<string>): (APIKey -> bool) {
    (k: APIKey) => k.id !in wanted
  }

  function GroupOutside(wanted: set<string>): (Group -> bool) {
    (g: Group) => g.id !in wanted
  }

  function OwnerOutside(wanted: set<string>): (Provider -> bool) {
    (p: Provider) => p.accountID !in wanted
  }

  function ProviderOutside(wanted: set<string>): (Provider -> bool) {
    (p: Provider) => p.id !in wanted
  }

  datatype Indexes = Indexes(
    keyByHash: map<string, APIKey>, accountByID: map<string, Account>, groupByID: map<string, Group>,
    providerByID: map<string, Provider>, accountProvs: map<string, seq<Provider>>)

  function IDsOf(ps: seq<ProviderState>): (ids: seq<string>)
    ensures |ids| == |ps|
  {
    seq(|ps|, i requires 0 <= i < |ps| => ps[i].id)
  }

  /** Generated upstream APIs have new ids. */
  ghost predicate NewProviders(pasted: seq<Option<ProviderState>>, ids: seq<string>) {
    && (forall i :: 0 <= i < |pasted| && pasted[i].Some? ==> pasted[i].value.id !in ids)
    && (forall i, j :: 0 <= i < j < |pasted| && pasted[i].Some? && pasted[j].Some? ==>
          pasted[i].value.id != pasted[j].value.id)
  }

  ghost predicate Apart(ps: seq<ProviderState>, ids: seq<string>) {
    Distinct(IDsOf(ps)) && forall i :: 0 <= i < |ps| ==> ps[i].id !in ids
  }

  lemma {:induction false} BuiltApart(pasted: seq<Option<ProviderState>>, accountID: string, ids: seq<string>)
    requires NewProviders(pasted, ids)
    ensures var built := Built(pasted, accountID);
            && Apart(built, ids)
            && forall i :: 0 <= i < |built| ==>
                 exists k :: 0 <= k < |pasted| && pasted[k].Some? && pasted[k].value.id == built[i].id
  {
    if pasted != [] {
      var init, last := pasted[..|pasted| - 1], pasted[|pasted| - 1];
      assert forall k :: 0 <= k < |init| ==> init[k] == pasted[k];
      BuiltApart(init, accountID, ids);
      var before := Built(init, accountID);
      assert forall i :: 0 <= i < |before| ==> IDsOf(before)[i] == before[i].id;
      assert last.Some? ==> last == pasted[|pasted| - 1];
    }
  }

  /** Generated keys have new hashes. */
  ghost predicate NewHashes(added: seq<KeyState>, hashes: seq<string>) {
    && (forall i :: 0 <= i < |added| ==> added[i].keyHash !in hashes)
    && (forall i, j :: 0 <= i < j < |added| ==> added[i].keyHash != added[j].keyHash)
  }

  lemma OneLoad(key: KeyState)
    ensures forall id :: id != key.accountID ==> Load([key], id) == 0
  {
  }

  lemma {:induction false} LoadConcat(keys: seq<KeyState>, added: seq<KeyState>, id: string)
    ensures Load(keys + added, id) == Load(keys, id) + Load(added, id)
    decreases |added|
  {
    if added == [] {
      assert keys + added == keys;
    } else {
      LoadConcat(keys, added[..|added| - 1], id);
      assert (keys + added)[..|keys + added| - 1] == keys + added[..|added| - 1];
    }
  }

  lemma NextAssigned(v: View, ks: seq<nat>, i: nat, now: int)
    requires i < |ks| && forall j :: 0 <= j < |ks| ==> ks[j] < |v.keys|
    ensures var before := AssignEach(v, ks[..i], "", NoGate, now);
            AssignEach(v, ks[..i + 1], "", NoGate, now) == before.(keys := Assign(before, ks[i], "", NoGate, now).1)
  {
    hide Assign;
    assert ks[..i + 1][..i] == ks[..i];
  }

  lemma NoneAssigned(v: View, ks: seq<nat>, now: int)
    ensures AssignEach(v, ks[..0], "", NoGate, now) == v
  {
  }

  lemma OneAssigned(v: View, added: KeyState, now: int)
    ensures KeysCreated(v, [added], now) ==
            var w := v.(keys := v.keys + [added]); w.(keys := Assign(w, |v.keys|, "", NoGate, now).1)
  {
    var w := v.(keys := v.keys + [added]);
    hide Assign;
    assert Positions(|v.keys|, 1) == [|v.keys|];
    assert AssignEach(w, [], "", NoGate, now) == w;
  }

  function Entry<T>(index: map<string, T>, id: string): Option<T> {
    if id in index then Some(index[id]) else None
  }

  function HashesOf(keys: seq<KeyState>): seq<string> {
    seq(|keys|, i requires 0 <= i < |keys| => keys[i].keyHash)
  }

  /** Generated ids and hashes are new, and account ids are not blank. */
  ghost predicate Permitted(v: View, step: Step) {
    && (step.CreateAccount? ==>
          && !IsLive(v.accounts, step.account.config.id) && !Blank(step.account.config.id)
          && NewProviders(step.pasted, IDsOf(v.providers)))
    && (step.CreateKeys? ==> NewHashes(step.keys, HashesOf(v.keys)))
  }

  ghost predicate PermittedAt(b: Books, steps: seq<Step>, n: nat)
    requires n < |steps|
  {
    Permitted(After(b, steps[..n]).view, steps[n])
  }

  ghost predicate AllPermitted(b: Books, steps: seq<Step>) {
    forall n :: 0 <= n < |steps| ==> PermittedAt(b, steps, n)
  }

  lemma NothingDone(b: Books)
    ensures forall steps: seq<Step> :: After(b, steps[..0]) == b
  {
  }

  lemma NextDone(b: Books, steps: seq<Step>, i: nat)
    requires i < |steps|
    ensures After(b, steps[..i + 1]) == Done(After(b, steps[..i]), steps[i])
  {
    hide Done;
    assert steps[..i + 1][..i] == steps[..i];
  }

  lemma {:induction false} AccountPlace(accounts: seq<Account>, id: string)
    ensures AccountIndex(AccountStates(accounts), id) == if id == "" then |accounts|
            else FirstOf(AccountIDs(accounts), id)
  {
    if accounts != [] {
      AccountPlace(accounts[1..], id);
      assert AccountStates(accounts)[1..] == AccountStates(accounts[1..]);
      assert AccountIDs(accounts)[1..] == AccountIDs(accounts[1..]);
    }
  }

  class Data {
    const hash: string -> string
    var groups: seq<Group>
    var accounts: seq<Account>
    var providers: seq<Provider>
    var keys: seq<APIKey>
    var removedLog: seq<Removed>

    /** Missing until the indexes are built for the first time. */
    var index: Option<Indexes>
    var accountKeyLoad: map<string, nat>

    ghost function Stored(): View
      reads this`accounts, this`groups, this`providers, this`keys, groups, accounts, providers, keys
    {
      View(GroupStates(groups), AccountStates(accounts), ProviderStates(providers), KeyStates(keys))
    }

    /** Generated ids and hashes are unique, and account ids are not empty. */
    ghost predicate Unique()
      reads this`accounts, this`groups, this`providers, this`keys
    {
      && Named(AccountIDs(accounts)) && Distinct(GroupIDs(groups))
      && Distinct(ProviderIDs(providers)) && Distinct(KeyHashes(keys))
    }

    /** The indexes of what never changes in place. */
    ghost predicate Indexed()
      reads this`accounts, this`groups, this`providers, this`index
    {
      index.Some? ==>
        && Looks(index.value.groupByID, groups, GroupIDs(groups), true)
        && Looks(index.value.accountByID, accounts, AccountIDs(accounts), true)
        && Looks(index.value.providerByID, providers, ProviderIDs(providers), true)
        && Owns(index.value.accountProvs, providers)
    }

    /** The index of the gateway keys. */
    ghost predicate KeysIndexed()
      reads this`keys, this`index
    {
      index.Some? ==> Looks(index.value.keyByHash, keys, KeyHashes(keys), false)
    }

    /** The load index agrees with a count over the keys. */
    ghost predicate LoadRight(id: string)
      reads this`keys, this`index, this`accountKeyLoad, keys
    {
      index.Some? ==> Counted(accountKeyLoad, id) == Load(KeyStates(keys), id)
    }

    ghost predicate Loads()
      reads this`keys, this`index, this`accountKeyLoad, keys
    {
      forall id :: id != "" ==> LoadRight(id)
    }

    ghost predicate Valid()
      reads this, keys
    {
      Unique() && Indexed() && KeysIndexed() && Loads()
    }

    ghost predicate IsIndexOf(built: Indexes)
      reads this`accounts, this`groups, this`providers, this`keys
    {
      && Looks(built.groupByID, groups, GroupIDs(groups), true)
      && Looks(built.accountByID, accounts, AccountIDs(accounts), true)
      && Looks(built.providerByID, providers, ProviderIDs(providers), true)
      && Looks(built.keyByHash, keys, KeyHashes(keys), false)
      && Owns(built.accountProvs, providers)
    }

    method BuildIndexes() returns (built: Indexes, loads: map<string, nat>)
      ensures IsIndexOf(built)
      ensures forall id :: Counted(loads, id) == if id == "" then 0 else Load(KeyStates(keys), id)
    {
      hide Looks, Owns, Load, Counted, LastOf, GroupIDs, AccountIDs, ProviderIDs, KeyHashes, KeyStates;
      var groupByID := IndexBy(groups, GroupIDs(groups), true);
      var accountByID := IndexBy(accounts, AccountIDs(accounts), true);
      var providerByID := IndexBy(providers, ProviderIDs(providers), true);
      var accountProvs := IndexOwners(providers);
      var keyByHash := IndexBy(keys, KeyHashes(keys), false);
      built := Indexes(keyByHash, accountByID, groupByID, providerByID, accountProvs);
      loads := CountLoads(keys);
    }

    method Reindex()
      modifies this`index, this`accountKeyLoad
      ensures index.Some? && Indexed() && KeysIndexed() && Loads()
      ensures Stored() == old(Stored())
    {
      hide Looks, Owns, Load, Counted, LastOf, GroupIDs, AccountIDs, ProviderIDs, KeyHashes, KeyStates, Stored;
      var built, loads := BuildIndexes();
      index, accountKeyLoad := Some(built), loads;
    }

    method FindGroupByID(id: string) returns (found: Option<Group>)
      requires Unique() && Indexed()
      ensures found == if id == "" then None else Scanned(groups, GroupIDs(groups), id)
    {
      if id == "" {
        return None;
      }
      found := Lookup(Get(index, (x: Indexes) => x.groupByID), groups, GroupIDs(groups), true, id);
    }

    method FindAccountByID(id: string) returns (found: Option<Account>)
      requires Unique() && Indexed()
      ensures found == if id == "" then None else Scanned(accounts, AccountIDs(accounts), id)
    {
      if id == "" {
        return None;
      }
      found := Lookup(Get(index, (x: Indexes) => x.accountByID), accounts, AccountIDs(accounts), true, id);
    }

    method FindProvider(id: string) returns (found: Option<Provider>)
      requires Unique() && Indexed()
      ensures found == Scanned(providers, ProviderIDs(providers), id)
    {
      found := Lookup(Get(index, (x: Indexes) => x.providerByID), providers, ProviderIDs(providers), true, id);
    }

    /** Digests are never empty. */
    method FindKeyBySecret(secret: string) returns (found: Option<APIKey>)
      requires Unique() && KeysIndexed() && hash(secret) != ""
      ensures found == if secret == "" then None else Scanned(keys, KeyHashes(keys), hash(secret))
    {
      if secret == "" {
        return None;
      }
      found := Lookup(Get(index, (x: Indexes) => x.keyByHash), keys, KeyHashes(keys), false, hash(secret));
    }

    /** For an account's id the index gives what a scan gives; upstream APIs without an account are only
        found by the scan. */
    method AccountProviders(id: string) returns (owned: seq<Provider>)
      requires Indexed()
      ensures owned == if index.Some? && id == "" then [] else OwnedBy(providers, id)
    {
      if index.Some? {
        var own := index.value.accountProvs;
        return if id in own then own[id] else [];
      }
      owned := [];
      for i := 0 to |providers|
        invariant owned == OwnedBy(providers[..i], id)
      {
        assert providers[..i + 1][..i] == providers[..i];
        if providers[i].accountID == id {
          owned := owned + [providers[i]];
        }
      }
      assert providers[..|providers|] == providers;
    }

    method KeysUsingAccount(id: string) returns (load: nat)
      requires LoadRight(id)
      ensures load == Load(KeyStates(keys), id)
    {
      if index.Some? {
        return Counted(accountKeyLoad, id);
      }
      load := 0;
      ghost var states := KeyStates(keys);
      for i := 0 to |keys|
        invariant load == Load(states[..i], id)
      {
        assert states[..i + 1][..i] == states[..i];
        if keys[i].accountID == id {
          load := load + 1;
        }
      }
      assert states[..|keys|] == states;
    }

    method GroupEnabled(id: string) returns (on: bool)
      requires Unique() && Indexed()
      ensures on == GroupOn(GroupStates(groups), id)
    {
      if id == "" {
        return true;
      }
      GroupScan(groups, id);
      var found := FindGroupByID(id);
      return found.Some? && found.value.enabled;
    }

    /** Whether an upstream API that can be used now declares the model, or takes any. */
    static method Offers(p: Provider, model: string, now: int) returns (declared: nat, any: nat)
      ensures declared == if Active(p.State(), now) && DeclaredBy(p.State(), model) then 1 else 0
      ensures declared + any == if Active(p.State(), now) && Supports(p.State(), model) then 1 else 0
    {
      if !p.enabled || p.cooldownUntil > now {
        return 0, 0;
      }
      if model == "" {
        return 0, 1;
      }
      if p.declares(model) {
        return 1, 0;
      }
      return 0, if p.anyModel then 1 else 0;
    }

    method ProviderCounts(id: string, model: string, now: int) returns (explicit: nat, loose: nat)
      requires Indexed() && id != ""
      ensures explicit == ExplicitCount(ProviderStates(providers), id, model, now)
      ensures explicit + loose == HealthyCount(ProviderStates(providers), id, model, now)
    {
      hide Indexed, OwnedBy;
      OwnCounts(providers, id, model, now);
      OwnedAreOwn(providers, id);
      var owned := AccountProviders(id);
      ghost var states := ProviderStates(owned);
      hide ProviderStates;
      assert states[..0] == [];
      explicit, loose := 0, 0;
      NoCounts(id, model, now);
      hide ExplicitCount, HealthyCount, Active, DeclaredBy, Supports;
      for i := 0 to |owned|
        invariant explicit == ExplicitCount(states[..i], id, model, now)
        invariant explicit + loose == HealthyCount(states[..i], id, model, now)
      {
        CountStep(states, i, id, model, now);
        assert states[i] == owned[i].State();
        var declared, any := Offers(owned[i], model, now);
        explicit, loose := explicit + declared, loose + any;
      }
      assert states[..|owned|] == states;
    }

    /** The filter of one account. */
    method Takes(account: Account, groupID: string, model: string, gate: Gate, now: int) returns (ok: bool)
      requires Unique() && Indexed() && account in accounts
      ensures ok == Eligible(Stored(), account.State(), groupID, model, gate, now)
    {
      hide Indexed, GroupOn, HealthyCount, ExplicitCount, Usable, Admits;
      NamedAccount(account);
      if groupID != "" && account.config.groupID != groupID {
        return false;
      }
      var on := GroupEnabled(account.config.groupID);
      if !on {
        return false;
      }
      var explicit, loose := ProviderCounts(account.config.id, model, now);
      if !Usable(account.State()) || explicit + loose <= 0 {
        return false;
      }
      return Admits(gate, account.config.id);
    }

    method UsableAccountsGated(groupID: string, model: string, gate: Gate, now: int) returns (usable: seq<Account>)
      requires Unique() && Indexed()
      ensures AccountStates(usable) == EligibleOf(Stored(), AccountStates(accounts), groupID, model, gate, now)
      ensures forall i :: 0 <= i < |usable| ==> usable[i] in accounts
    {
      hide Indexed, Eligible, Unique, ProviderStates, GroupStates, KeyStates;
      ghost var v := Stored();
      usable := [];
      for i := 0 to |accounts|
        invariant AccountStates(usable) == EligibleOf(v, v.accounts[..i], groupID, model, gate, now)
        invariant forall j :: 0 <= j < |usable| ==> usable[j] in accounts
      {
        assert v.accounts[..i + 1][..i] == v.accounts[..i];
        var account := accounts[i];
        assert account.State() == v.accounts[i];
        var ok := Takes(account, groupID, model, gate, now);
        if ok {
          usable := usable + [account];
        }
      }
      assert v.accounts[..|accounts|] == v.accounts;
    }

    method DeclaringAccounts(pool: seq<Account>, model: string, now: int) returns (declaring: seq<Account>)
      requires Unique() && Indexed() && forall i :: 0 <= i < |pool| ==> pool[i] in accounts
      ensures AccountStates(declaring) == DeclaringOf(Stored(), AccountStates(pool), model, now)
      ensures forall i :: 0 <= i < |declaring| ==> declaring[i] in accounts
    {
      hide Indexed, Unique, ExplicitCount, HealthyCount, ProviderStates, GroupStates, KeyStates;
      ghost var v, states := Stored(), AccountStates(pool);
      declaring := [];
      for i := 0 to |pool|
        invariant AccountStates(declaring) == DeclaringOf(v, states[..i], model, now)
        invariant forall j :: 0 <= j < |declaring| ==> declaring[j] in accounts
      {
        assert states[..i + 1][..i] == states[..i];
        assert pool[i].State() == states[i];
        NamedAccount(pool[i]);
        var explicit, loose := ProviderCounts(pool[i].config.id, model, now);
        if explicit > 0 {
          declaring := declaring + [pool[i]];
        }
      }
      assert states[..|pool|] == states;
    }

    /** The usable accounts, restricted to those that declare the model when there are any. */
    method AccountPoolGated(groupID: string, model: string, gate: Gate, now: int) returns (pool: seq<Account>)
      requires Unique() && Indexed()
      ensures AccountStates(pool) == Pool(Stored(), groupID, model, gate, now)
      ensures forall i :: 0 <= i < |pool| ==> pool[i] in accounts
    {
      hide Indexed, EligibleOf, Unique, Declares, ProviderStates, GroupStates, KeyStates;
      ghost var v := Stored();
      pool := UsableAccountsGated(groupID, model, gate, now);
      if model == "" || |pool| == 0 {
        assert DeclaringOf(v, [], model, now) == [];
        return;
      }
      var declaring := DeclaringAccounts(pool, model, now);
      if |declaring| > 0 {
        pool := declaring;
      }
    }

    method ContainsAccount(pool: seq<Account>, id: string) returns (held: bool)
      ensures held == Holds(AccountStates(pool), id)
    {
      for i := 0 to |pool|
        invariant forall j :: 0 <= j < i ==> pool[j].config.id != id
      {
        if pool[i].config.id == id {
          assert AccountStates(pool)[i].config.id == id;
          return true;
        }
      }
      return false;
    }

    lemma NamedAccount(account: Account)
      requires Unique() && account in accounts
      ensures account.config.id != ""
    {
      var i :| 0 <= i < |accounts| && accounts[i] == account;
      assert AccountIDs(accounts)[i] == account.config.id;
    }

    /** Sorts the pool and takes its first account. */
    method PickFromPool(pool: seq<Account>, model: string, now: int) returns (chosen: Option<Account>)
      requires Unique() && Indexed()
      requires forall i :: 0 <= i < |pool| ==> pool[i] in accounts && LoadRight(pool[i].config.id)
      ensures chosen.Some? ==> chosen.value in pool
      ensures Best(Stored(), AccountStates(pool), model, now) ==
              match chosen { case None => None case Some(a) => Some(a.State()) }
    {
      hide Indexed, Unique, LoadRight, Load, HealthyCount, ExplicitCount, Best, StableSorted, Unlimited;
      ghost var v := Stored();
      if |pool| == 0 {
        EmptyBest(v, model, now);
        return None;
      }
      ghost var states := AccountStates(pool);
      var ranked := [];
      for i := 0 to |pool|
        invariant |ranked| == i
        invariant forall j :: 0 <= j < i ==> ranked[j] == Ranked(RankOf(v, states[j], model, now), j)
      {
        var a := pool[i];
        assert a.State() == states[i];
        NamedAccount(a);
        var load := KeysUsingAccount(a.config.id);
        var explicit, loose := ProviderCounts(a.config.id, model, now);
        ranked := ranked + [Ranked(
          Rank(Pressure(load, explicit + loose), load, Unlimited(a.config), a.balance, a.config.createdAt), i)];
      }
      SortedPool(v, states, ranked, model, now);
      return Some(pool[StableSorted(ranked, Lower())[0].position]);
    }

    /** Where a stored key is. */
    ghost function Place(key: APIKey): (k: nat)
      reads this`keys
      requires key in keys
      ensures k < |keys| && keys[k] == key
    {
      var k :| 0 <= k < |keys| && keys[k] == key;
      k
    }

    /** Takes the key off its account. */
    method DetachKeyAccount(key: APIKey)
      requires Unique() && key in keys
      modifies this`accountKeyLoad, key`accountID
      ensures key.accountID == ""
      ensures Stored() == old(Stored()).(keys := Bound(old(KeyStates(keys)), Place(key), ""))
      ensures forall id :: id != "" && old(LoadRight(id)) ==> LoadRight(id)
    {
      hide Load;
      ghost var k := Place(key);
      ghost var before := KeyStates(keys);
      assert before[k] == key.State();
      DistinctKeys();
      if key.accountID == "" {
        assert Bound(before, k, "") == before;
        return;
      }
      forall id
        ensures Load(Bound(before, k, ""), id) ==
                Load(before, id) - (if before[k].accountID == id then 1 else 0) + (if "" == id then 1 else 0) {
        LoadOfBound(before, k, "", id);
      }
      if index.Some? && Counted(accountKeyLoad, key.accountID) > 0 {
        accountKeyLoad := accountKeyLoad[key.accountID := Counted(accountKeyLoad, key.accountID) - 1];
      }
      key.accountID := "";
      assert KeyStates(keys) == Bound(before, k, "");
    }

    /** Binds a key without an account. */
    method AttachKeyAccount(key: APIKey, id: string)
      requires Unique() && key in keys && key.accountID == "" && id != ""
      modifies this`accountKeyLoad, key`accountID
      ensures Stored() == old(Stored()).(keys := Bound(old(KeyStates(keys)), Place(key), id))
      ensures forall other :: other != "" && old(LoadRight(other)) ==> LoadRight(other)
    {
      hide Load;
      ghost var k := Place(key);
      ghost var before := KeyStates(keys);
      assert before[k] == key.State();
      DistinctKeys();
      forall other
        ensures Load(Bound(before, k, id), other) ==
                Load(before, other) - (if before[k].accountID == other then 1 else 0) + (if id == other then 1 else 0) {
        LoadOfBound(before, k, id, other);
      }
      key.accountID := id;
      if index.Some? {
        accountKeyLoad := accountKeyLoad[id := Counted(accountKeyLoad, id) + 1];
      }
      assert KeyStates(keys) == Bound(before, k, id);
    }

    lemma PlaceIs(k: nat)
      requires Unique() && k < |keys|
      ensures Place(keys[k]) == k
    {
      DistinctKeys();
    }

    lemma DistinctKeys()
      requires Unique()
      ensures forall i, j :: 0 <= i < j < |keys| ==> keys[i] != keys[j]
    {
      assert forall i :: 0 <= i < |keys| ==> KeyHashes(keys)[i] == keys[i].keyHash;
    }

    /** Whether a healthy account is only unsuited to this request. */
    method BorrowsFor(current: Account, model: string, gate: Gate, now: int) returns (borrow: bool)
      requires Unique() && Indexed() && current in accounts
      ensures borrow <==>
                && (model != "" || !Admits(gate, current.config.id))
                && GroupOn(GroupStates(groups), current.config.groupID)
                && Usable(current.State())
                && HealthyCount(ProviderStates(providers), current.config.id, "", now) > 0
    {
      hide Indexed, Unique, ExplicitCount, HealthyCount, GroupOn, Usable, Admits;
      if model == "" && Admits(gate, current.config.id) {
        return false;
      }
      var on := GroupEnabled(current.config.groupID);
      if !on || !Usable(current.State()) {
        return false;
      }
      NamedAccount(current);
      var explicit, loose := ProviderCounts(current.config.id, "", now);
      return explicit + loose > 0;
    }

    /** What to do with the key's binding, given the pool of the request. */
    method Judge(key: APIKey, pool: seq<Account>, model: string, gate: Gate, now: int)
        returns (kept: Option<Account>, borrow: bool)
      requires Unique() && Indexed()
      requires AccountStates(pool) == Pool(Stored(), key.groupID, model, gate, now)
      ensures Decide(Stored(), key.State(), model, gate, now) ==
              match kept { case Some(a) => Keep(a.State()) case None => if borrow then Borrow else Rebind }
    {
      hide Holds, Indexed, Unique, Pool, HealthyCount, GroupOn, Usable, Admits, FindAccount;
      if key.accountID == "" {
        return None, false;
      }
      var found := FindAccountByID(key.accountID);
      AccountScan(accounts, key.accountID);
      if found.None? {
        return None, false;
      }
      var current := found.value;
      assert current in accounts;
      hide Scanned, AccountIDs;
      if key.groupID != "" && current.config.groupID != key.groupID {
        return None, false;
      }
      var held := ContainsAccount(pool, current.config.id);
      if held {
        return found, false;
      }
      borrow := BorrowsFor(current, model, gate, now);
      return None, borrow;
    }

    /** Takes the key off its account and binds it to the first of the pool. */
    method BindAnew(key: APIKey, pool: seq<Account>, model: string, now: int) returns (chosen: Option<Account>)
      requires Unique() && Indexed() && key in keys
      requires forall i :: 0 <= i < |pool| ==>
                 pool[i] in accounts && pool[i].config.id != "" && LoadRight(pool[i].config.id)
      modifies this`accountKeyLoad, key`accountID
      ensures var best := Best(old(Stored()).(keys := Bound(old(KeyStates(keys)), Place(key), "")),
              old(AccountStates(pool)), model, now);
              && best == (match chosen { case None => None case Some(a) => Some(a.State()) })
              && Stored() == old(Stored()).(keys :=
                   Bound(old(KeyStates(keys)), Place(key), if best.Some? then best.value.config.id else ""))
      ensures forall id :: id != "" && old(LoadRight(id)) ==> LoadRight(id)
    {
      hide Indexed, Unique, Best, LoadRight, KeyStates;
      ghost var before := KeyStates(keys);
      BoundTwice(before, Place(key));
      DetachKeyAccount(key);
      chosen := PickFromPool(pool, model, now);
      if chosen.None? {
        return;
      }
      AttachKeyAccount(key, chosen.value.config.id);
    }

    /** Finds or chooses the account of a request with a key; the load index may be wrong about the key's
        own account, as it is while a key is being created. */
    method AssignAccountGated(key: APIKey, model: string, gate: Gate, now: int) returns (chosen: Option<Account>)
      requires Unique() && Indexed() && key in keys
      requires forall id :: id != "" && id != key.accountID ==> LoadRight(id)
      modifies this`accountKeyLoad, key`accountID
      ensures Unique() && Indexed()
      ensures Stored() == old(Stored()).(keys := Assign(old(Stored()), Place(key), model, gate, now).1)
      ensures Assign(old(Stored()), Place(key), model, gate, now).0 ==
              match chosen { case None => None case Some(a) => Some(a.State()) }
      ensures old(Loads()) ==> Loads()
    {
      hide Indexed, Unique, Pool, Decide, Best, LoadRight;
      ghost var v := Stored();
      assert v.keys[Place(key)] == key.State();
      var pool := AccountPoolGated(key.groupID, model, gate, now);
      var kept, borrow := Judge(key, pool, model, gate, now);
      if kept.Some? {
        return kept;
      }
      PoolIsStrange(key, pool, model, gate, now);
      if borrow {
        chosen := PickFromPool(pool, model, now);
        return;
      }
      chosen := BindAnew(key, pool, model, now);
    }

    /** Unless the key keeps its account, that account is not in the pool. */
    lemma PoolIsStrange(key: APIKey, pool: seq<Account>, model: string, gate: Gate, now: int)
      requires Unique() && AccountStates(pool) == Pool(Stored(), key.groupID, model, gate, now)
      requires !Decide(Stored(), key.State(), model, gate, now).Keep?
      requires forall i :: 0 <= i < |pool| ==> pool[i] in accounts
      ensures forall i :: 0 <= i < |pool| ==> pool[i].config.id != "" && pool[i].config.id != key.accountID
    {
      hide Pool, Decide;
      NamedStates();
      StrangerToPool(Stored(), key.State(), model, gate, now);
      forall i | 0 <= i < |pool| ensures pool[i].config.id != "" && pool[i].config.id != key.accountID {
        assert AccountStates(pool)[i] in Pool(Stored(), key.groupID, model, gate, now);
      }
    }

    lemma NamedStates()
      requires Unique()
      ensures NamedAccounts(AccountStates(accounts))
    {
      assert forall i :: 0 <= i < |accounts| ==> AccountIDs(accounts)[i] == AccountStates(accounts)[i].config.id;
    }

    // -------------------------------------------------------------------------------------------
    // Structural changes.  Each rebuilds the indexes, as every update of the store does.
    // -------------------------------------------------------------------------------------------

    ghost function Ledger(): Books
      reads this`accounts, this`groups, this`providers, this`keys, this`removedLog, groups, accounts, providers, keys
    {
      Books(Stored(), removedLog)
    }

    /** Keys and accounts are those from before, or new. */
    twostate predicate SameObjects()
      reads this`keys, this`accounts
    {
      && (forall k :: k in keys ==> k in old(keys) || fresh(k))
      && (forall a :: a in accounts ==> a in old(accounts) || fresh(a))
    }

    method RemoveKeys(ids: seq<string>) returns (removed: int)
      requires Valid()
      modifies this
      ensures Valid() && removedLog == old(removedLog) && SameObjects()
      ensures Stored() == old(Stored()).(keys := KeptKeys(old(KeyStates(keys)), Wanted(ids)))
      ensures removed == |old(keys)| - |keys|
    {
      hide Indexed, Loads, KeysIndexed, Distinct, Named, KeptKeys, Wanted, GroupStates, AccountStates, ProviderStates,
           KeyStates;
      var wanted := Wanted(ids);
      var kept := Filter(keys, KeyOutside(wanted));
      FilteredAreOld(keys, KeyOutside(wanted));
      KeptKeyStates(keys, wanted);
      KeptKeysApart(wanted);
      removed := |keys| - |kept|;
      assert KeyStates(kept) == KeptKeys(old(KeyStates(keys)), wanted);
      keys := kept;
      assert Stored() == old(Stored()).(keys := KeyStates(kept));
      Reindex();
    }

    lemma KeptKeysApart(wanted: set<string>)
      requires Unique()
      ensures Distinct(KeyHashes(Filtered(keys, KeyOutside(wanted))))
    {
      var hashes := KeyHashes(keys);
      assert forall i, j :: 0 <= i < j < |keys| ==> hashes[i] != hashes[j];
      assert forall i :: 0 <= i < |keys| ==> hashes[i] == keys[i].keyHash;
      FilteredApart(keys, KeyOutside(wanted), (k: APIKey) => k.keyHash);
    }

    method RemoveProviders(ids: seq<string>) returns (removed: int)
      requires Valid()
      modifies this
      ensures Valid() && removedLog == old(removedLog) && SameObjects()
      ensures Stored() == old(Stored()).(providers := OtherProviders(old(ProviderStates(providers)), Wanted(ids)))
      ensures removed == |old(providers)| - |providers|
    {
      hide Indexed, Loads, KeysIndexed, Distinct, Named, OtherProviders, KeptProviders, Wanted, GroupStates,
           AccountStates, ProviderStates, KeyStates;
      var wanted := Wanted(ids);
      var kept := Filter(providers, ProviderOutside(wanted));
      KeptProviderStates(providers, wanted);
      KeptProvidersApart(ProviderOutside(wanted));
      removed := |providers| - |kept|;
      assert ProviderStates(kept) == OtherProviders(old(ProviderStates(providers)), wanted);
      providers := kept;
      assert Stored() == old(Stored()).(providers := ProviderStates(kept));
      Reindex();
    }

    lemma KeptProvidersApart(keep: Provider -> bool)
      requires Unique()
      ensures Distinct(ProviderIDs(Filtered(providers, keep)))
    {
      var ids := ProviderIDs(providers);
      assert forall i, j :: 0 <= i < j < |providers| ==> ids[i] != ids[j];
      assert forall i :: 0 <= i < |providers| ==> ids[i] == providers[i].id;
      FilteredApart(providers, keep, (p: Provider) => p.id);
    }

    lemma KeptAccountsApart(keep: Account -> bool)
      requires Unique()
      ensures Named(AccountIDs(Filtered(accounts, keep)))
    {
      var ids := AccountIDs(accounts);
      assert forall i, j :: 0 <= i < j < |accounts| ==> ids[i] != ids[j];
      assert forall i :: 0 <= i < |accounts| ==> ids[i] == accounts[i].config.id && ids[i] in ids;
      FilteredApart(accounts, keep, (a: Account) => a.config.id);
    }

    lemma KeptGroupsApart(keep: Group -> bool)
      requires Unique()
      ensures Distinct(GroupIDs(Filtered(groups, keep)))
    {
      var ids := GroupIDs(groups);
      assert forall i, j :: 0 <= i < j < |groups| ==> ids[i] != ids[j];
      assert forall i :: 0 <= i < |groups| ==> ids[i] == groups[i].id;
      FilteredApart(groups, keep, (g: Group) => g.id);
    }

    /** Splits the accounts into those that stay and the log entries of those that go. */
    method SplitAccounts(wanted: set<string>) returns (kept: seq<Account>, gone: seq<Removed>)
      ensures kept == Filtered(accounts, AccountOutside(wanted))
      ensures gone == Obituaries(AccountStates(accounts), wanted)
    {
      ghost var states := AccountStates(accounts);
      kept, gone := [], [];
      for i := 0 to |accounts|
        invariant kept == Filtered(accounts[..i], AccountOutside(wanted))
        invariant gone == Obituaries(states[..i], wanted)
      {
        assert accounts[..i + 1][..i] == accounts[..i] && states[..i + 1][..i] == states[..i];
        var a := accounts[i];
        assert states[i] == a.State();
        if a.config.id !in wanted {
          kept := kept + [a];
          continue;
        }
        gone := gone + [Removed(a.config.id, a.config.groupID, a.tokens)];
      }
      assert accounts[..|accounts|] == accounts && states[..|accounts|] == states;
    }

    method UnbindKeys(wanted: set<string>)
      requires Unique()
      modifies keys`accountID
      ensures Stored() == old(Stored()).(keys := Unbound(old(KeyStates(keys)), wanted))
    {
      DistinctKeys();
      ghost var before := KeyStates(keys);
      for i := 0 to |keys|
        invariant forall j :: 0 <= j < i ==> keys[j].State() == Unbound(before, wanted)[j]
        invariant forall j :: i <= j < |keys| ==> keys[j].State() == before[j]
      {
        if keys[i].accountID in wanted {
          keys[i].accountID := "";
        }
      }
    }

    method UngroupKeys(wanted: set<string>)
      requires Unique()
      modifies keys`groupID
      ensures Stored() == old(Stored()).(keys := Ungrouped(old(KeyStates(keys)), wanted))
    {
      DistinctKeys();
      ghost var before := KeyStates(keys);
      for i := 0 to |keys|
        invariant forall j :: 0 <= j < i ==> keys[j].State() == Ungrouped(before, wanted)[j]
        invariant forall j :: i <= j < |keys| ==> keys[j].State() == before[j]
      {
        if keys[i].groupID in wanted {
          keys[i].groupID := "";
        }
      }
    }

    /** Answers with the log entries of the accounts that went. */
    method RemoveAccounts(ids: seq<string>) returns (gone: seq<Removed>)
      requires Valid()
      modifies this, keys`accountID
      ensures Valid() && keys == old(keys) && groups == old(groups) && SameObjects()
      ensures Ledger() == AccountsRemoved(old(Ledger()), Wanted(ids))
      ensures gone == Obituaries(old(AccountStates(accounts)), Wanted(ids))
    {
      hide Indexed, Loads, KeysIndexed, Unique, KeptProviders, KeptAccounts, Unbound, Obituaries, Wanted,
        GroupStates, AccountStates, ProviderStates, KeyStates, Truncated;
      var wanted := Wanted(ids);
      var kept;
      kept, gone := SplitAccounts(wanted);
      FilteredAreOld(accounts, AccountOutside(wanted));
      if |gone| == 0 {
        return;
      }
      DropAccounts(kept, gone, wanted);
    }

    /** Takes accounts and their upstream APIs out, unbinds their keys and logs the removal. */
    method DropAccounts(kept: seq<Account>, gone: seq<Removed>, wanted: set<string>)
      requires Unique() && kept == Filtered(accounts, AccountOutside(wanted))
      modifies this, keys`accountID
      ensures Valid() && keys == old(keys) && groups == old(groups) && accounts == kept
      ensures removedLog == Truncated(old(removedLog) + gone)
      ensures var v := old(Stored());
              Stored() == View(v.groups, KeptAccounts(v.accounts, wanted), KeptProviders(v.providers, wanted),
                Unbound(v.keys, wanted))
    {
      hide Indexed, Loads, KeysIndexed, Distinct, Named, KeptProviders, KeptAccounts, Unbound, Obituaries, Wanted,
        GroupStates, AccountStates, ProviderStates, KeyStates, Truncated;
      var owned := Filter(providers, OwnerOutside(wanted));
      KeptAccountStates(accounts, wanted);
      KeptProviderStates(providers, wanted);
      KeptAccountsApart(AccountOutside(wanted));
      KeptProvidersApart(OwnerOutside(wanted));
      ReplaceAccounts(kept, owned);
      UnbindKeys(wanted);
      removedLog := Truncated(removedLog + gone);
      Reindex();
    }

    method ReplaceAccounts(kept: seq<Account>, owned: seq<Provider>)
      modifies this`accounts, this`providers
      ensures accounts == kept && providers == owned
      ensures Stored() == old(Stored()).(accounts := old(AccountStates(kept)), providers := old(ProviderStates(owned)))
    {
      hide GroupStates, AccountStates, ProviderStates, KeyStates;
      accounts, providers := kept, owned;
    }

    method MemberIDs(wanted: set<string>) returns (ids: seq<string>)
      ensures ids == MembersOf(AccountStates(accounts), wanted)
    {
      ghost var states := AccountStates(accounts);
      ids := [];
      for i := 0 to |accounts|
        invariant ids == MembersOf(states[..i], wanted)
      {
        assert states[..i + 1][..i] == states[..i] && states[i] == accounts[i].State();
        if accounts[i].config.groupID in wanted {
          ids := ids + [accounts[i].config.id];
        }
      }
      assert states[..|accounts|] == states;
    }

    /** Answers with the number of groups that went. */
    method RemoveGroups(ids: seq<string>) returns (removed: int)
      requires Valid()
      modifies this, keys
      ensures Valid() && Ledger() == GroupsRemoved(old(Ledger()), Wanted(ids)) && SameObjects()
      ensures removed == |old(groups)| - |groups|
    {
      hide Indexed, Loads, KeysIndexed, Unique, AccountsRemoved, Ungrouped, KeptGroups, MembersOf, Wanted,
        GroupStates, AccountStates, ProviderStates, KeyStates;
      var wanted := Wanted(ids);
      var members := MemberIDs(wanted);
      var gone := RemoveAccounts(members);
      removed := DropGroups(wanted);
    }

    method DropGroups(wanted: set<string>) returns (removed: int)
      requires Unique()
      modifies this`groups, this`index, this`accountKeyLoad, keys`groupID
      ensures Valid() && removed == |old(groups)| - |groups|
      ensures var v := old(Stored());
              Stored() == v.(groups := KeptGroups(v.groups, wanted), keys := Ungrouped(v.keys, wanted))
    {
      hide Indexed, Loads, KeysIndexed, Distinct, Named, KeptGroups, Ungrouped, GroupStates, AccountStates,
           ProviderStates, KeyStates;
      var kept := Filter(groups, GroupOutside(wanted));
      KeptGroupStates(groups, wanted);
      KeptGroupsApart(GroupOutside(wanted));
      removed := |groups| - |kept|;
      groups := kept;
      assert Stored() == old(Stored()).(groups := GroupStates(kept));
      UngroupKeys(wanted);
      Reindex();
    }

    /** Builds at most five upstream APIs out of the pasted keys. */
    static method BuildProviders(pasted: seq<Option<ProviderState>>, accountID: string) returns (built: seq<Provider>)
      ensures ProviderStates(built) == Built(pasted, accountID)
      ensures fresh(built)
    {
      built := [];
      for i := 0 to |pasted|
        invariant ProviderStates(built) == Built(pasted[..i], accountID)
        invariant fresh(built)
      {
        assert pasted[..i + 1][..i] == pasted[..i];
        if |built| >= MAX_KEYS_PER_ACCOUNT || pasted[i].None? {
          continue;
        }
        var provider := new Provider(pasted[i].value.(accountID := accountID));
        built := built + [provider];
      }
      assert pasted[..|pasted|] == pasted;
    }

    /** Stores a generated account with its upstream APIs, or nothing when no pasted key is usable. */
    method CreateAccount(a: AccountState, pasted: seq<Option<ProviderState>>)
      requires Valid() && a.config.id !in AccountIDs(accounts) && !Blank(a.config.id)
      requires NewProviders(pasted, ProviderIDs(providers))
      modifies this, keys`accountID
      ensures Valid() && Ledger() == AccountCreated(old(Ledger()), a, pasted) && SameObjects()
    {
      hide Indexed, Loads, KeysIndexed, Unique, AccountsRemoved, Built, NewProviders, Wanted,
        GroupStates, AccountStates, ProviderStates, KeyStates, AccountIDs, ProviderIDs;
      var account := new Account(a);
      var built := BuildProviders(pasted, a.config.id);
      BuiltApart(pasted, a.config.id, ProviderIDs(providers));
      StoreAccount(account, built);
      if |built| == 0 {
        OneWanted(a.config.id);
        var gone := RemoveAccounts([a.config.id]);
      }
    }

    lemma OneWanted(id: string)
      requires !Blank(id)
      ensures Wanted([id]) == {id}
    {
    }

    method StoreAccount(account: Account, built: seq<Provider>)
      requires Valid() && account.config.id !in AccountIDs(accounts) && account.config.id != ""
      requires Apart(ProviderStates(built), ProviderIDs(providers))
      modifies this`accounts, this`providers, this`index, this`accountKeyLoad
      ensures Valid() && accounts == old(accounts) + [account]
      ensures var v := old(Stored());
              Stored() == v.(accounts := v.accounts + [old(account.State())],
                             providers := v.providers + old(ProviderStates(built)))
    {
      hide Indexed, Loads, KeysIndexed;
      ghost var v := Stored();
      accounts, providers := accounts + [account], providers + built;
      assert AccountStates(accounts) == v.accounts + [account.State()];
      assert ProviderStates(providers) == v.providers + ProviderStates(built);
      assert ProviderIDs(providers) == old(ProviderIDs(providers)) + IDsOf(ProviderStates(built));
      assert AccountIDs(accounts) == old(AccountIDs(accounts)) + [account.config.id];
      Reindex();
    }

    /** A single new key is assigned before the indexes know it. */
    method CreateKey(added: KeyState, now: int)
      requires Valid() && added.keyHash !in KeyHashes(keys)
      modifies this`keys, this`index, this`accountKeyLoad
      ensures Valid() && Stored() == KeysCreated(old(Stored()), [added], now) && SameObjects()
    {
      hide Indexed, KeysIndexed, Distinct, Named, Assign, KeyHashes, GroupStates, AccountStates, ProviderStates,
           LoadRight, KeysCreated;
      var key := new APIKey(added);
      OneAssigned(Stored(), added, now);
      OneLoad(added);
      assert KeyStates([key]) == [added];
      AppendKeys([key]);
      PlaceIs(|keys| - 1);
      var chosen := AssignAccountGated(key, "", NoGate, now);
      Reindex();
    }

    /** A batch of new keys is indexed first and then assigned one by one. */
    method CreateKeys(added: seq<KeyState>, now: int)
      requires Valid() && NewHashes(added, KeyHashes(keys))
      modifies this`keys, this`index, this`accountKeyLoad
      ensures Valid() && Stored() == KeysCreated(old(Stored()), added, now) && SameObjects()
    {
      hide Indexed, KeysIndexed, Unique, NewHashes, AssignEach, KeyHashes, GroupStates, AccountStates, ProviderStates,
           KeyStates, Loads;
      var objects := NewKeys(added);
      AppendKeys(objects);
      Reindex();
      AssignKeys(objects, now);
      Reindex();
    }

    method AssignKeys(objects: seq<APIKey>, now: int)
      requires Unique() && Indexed() && Loads()
      requires |objects| <= |keys| && keys[|keys| - |objects|..] == objects
      modifies this`accountKeyLoad, objects`accountID
      ensures Indexed() && Loads()
      ensures Stored() == AssignEach(old(Stored()), Positions(|keys| - |objects|, |objects|), "", NoGate, now)
    {
      hide Indexed, Unique, LoadRight, Assign, AssignEach;
      ghost var n := |keys| - |objects|;
      ghost var w, ks := Stored(), Positions(n, |objects|);
      assert |w.keys| == |keys|;
      NoneAssigned(w, ks, now);
      hide Stored;
      for i := 0 to |objects|
        invariant Unique() && Indexed() && Loads()
        invariant Stored() == AssignEach(w, ks[..i], "", NoGate, now)
      {
        NextAssigned(w, ks, i, now);
        assert objects[i] == keys[n + i];
        PlaceIs(n + i);
        var chosen := AssignAccountGated(objects[i], "", NoGate, now);
      }
      assert ks[..|objects|] == ks;
    }

    static method NewKeys(added: seq<KeyState>) returns (objects: seq<APIKey>)
      ensures fresh(objects) && KeyStates(objects) == added
    {
      objects := [];
      for i := 0 to |added|
        invariant |objects| == i && fresh(objects)
        invariant forall j :: 0 <= j < i ==> objects[j].State() == added[j]
      {
        var key := new APIKey(added[i]);
        objects := objects + [key];
      }
    }

    /** Appends new objects to the keys; loads stay right for accounts that the new keys do not name. */
    method AppendKeys(objects: seq<APIKey>)
      requires Unique() && NewHashes(KeyStates(objects), KeyHashes(keys))
      modifies this`keys
      ensures Unique() && keys == old(keys) + objects
      ensures Stored() == old(Stored()).(keys := old(KeyStates(keys)) + KeyStates(objects))
      ensures forall id :: old(LoadRight(id)) && Load(KeyStates(objects), id) == 0 ==> LoadRight(id)
    {
      hide Load;
      ghost var v, added := Stored(), KeyStates(objects);
      assert forall i :: 0 <= i < |objects| ==> objects[i].State() == added[i];
      keys := keys + objects;
      assert KeyHashes(keys) == old(KeyHashes(keys)) + KeyHashes(objects);
      assert KeyStates(keys) == v.keys + added;
      forall id ensures Load(v.keys + added, id) == Load(v.keys, id) + Load(added, id) {
        LoadConcat(v.keys, added, id);
      }
    }

    method FindKeyByID(id: string) returns (k: nat)
      ensures k == KeyIndex(KeyStates(keys), id)
    {
      ghost var states := KeyStates(keys);
      for i := 0 to |keys|
        invariant KeyIndex(states, id) == i + KeyIndex(states[i..], id)
      {
        assert states[i..][1..] == states[i + 1..];
        if keys[i].id == id {
          return i;
        }
      }
      return |keys|;
    }

    /** An administrator's patch may bind a key to any id. */
    method PatchKey(id: string, accountID: string, groupID: string) returns (found: bool)
      requires Valid()
      modifies this`index, this`accountKeyLoad, keys`accountID, keys`groupID
      ensures Valid() && Stored() == KeyPatched(old(Stored()), id, accountID, groupID)
      ensures found <==> KeyIndex(old(KeyStates(keys)), id) < |keys|
    {
      hide Indexed, KeysIndexed, Loads, Unique, PatchedField, KeyIndex, GroupStates, AccountStates, ProviderStates;
      var k := FindKeyByID(id);
      if k == |keys| {
        return false;
      }
      RewriteKey(k, PatchedField(accountID, keys[k].accountID), PatchedField(groupID, keys[k].groupID));
      Reindex();
      return true;
    }

    method RewriteKey(k: nat, accountID: string, groupID: string)
      requires Unique() && k < |keys|
      modifies keys`accountID, keys`groupID
      ensures var v: View := old(Stored());
              Stored() == v.(keys := v.keys[k := v.keys[k].(accountID := accountID, groupID := groupID)])
    {
      DistinctKeys();
      ghost var before := KeyStates(keys);
      var key := keys[k];
      key.accountID, key.groupID := accountID, groupID;
      assert forall i :: 0 <= i < |keys| && i != k ==> keys[i].State() == before[i];
    }

    /** Meters a request on the account of its key; no index changes. */
    method MeterRequest(keyID: string, ok: bool, usage: Metering.Usage)
      requires Valid()
      modifies accounts
      ensures Valid() && Stored() == MeteredOn(old(Stored()), keyID, ok, usage)
    {
      hide Indexed, KeysIndexed, Loads, Metering.Metered, GroupStates, ProviderStates, KeyIndex, AccountIndex;
      var k := FindKeyByID(keyID);
      if k == |keys| {
        return;
      }
      var id := keys[k].accountID;
      assert KeyStates(keys)[k].accountID == id;
      AccountPlace(accounts, id);
      var found := FindAccountByID(id);
      if found.None? {
        return;
      }
      ghost var p := AccountIndex(AccountStates(accounts), id);
      MeterOne(found.value, p, ok, usage);
    }

    method MeterOne(account: Account, ghost p: nat, ok: bool, usage: Metering.Usage)
      requires Unique() && p < |accounts| && accounts[p] == account
      modifies account
      ensures Stored() == old(Stored()).(
              accounts := old(AccountStates(accounts))[p := Metering.Metered(old(account.State()), ok, usage)])
    {
      hide Metering.Metered;
      ghost var before := AccountStates(accounts);
      assert forall i :: 0 <= i < |accounts| ==> AccountIDs(accounts)[i] == accounts[i].config.id;
      var billed := Metering.Meter(account, ok, usage);
      assert forall i :: 0 <= i < |accounts| && i != p ==> accounts[i].State() == before[i];
    }

    // -------------------------------------------------------------------------------------------
    // Runs of updates and mutations
    // -------------------------------------------------------------------------------------------

    /** One update or mutation of the store, of any kind. */
    method Perform(step: Step)
      requires Valid() && Permitted(Stored(), step)
      modifies this, keys, accounts
      ensures Valid() && SameObjects() && Ledger() == Done(old(Ledger()), step)
    {
      hide Valid, Stored, Permitted, KeysCreated, Assign, KeyPatched, MeteredOn, AccountsRemoved, GroupsRemoved,
           AccountCreated, KeptKeys, OtherProviders, Wanted;
      PermittedHere(step);
      match step {
        case CreateAccount(account, pasted) => CreateAccount(account, pasted);
        case RemoveAccounts(ids) => var gone := RemoveAccounts(ids);
        case RemoveGroups(ids) => var removed := RemoveGroups(ids);
        case CreateKeys(added, now) => CreateKeys(added, now);
        case AssignKey(k, model, gate, now) => AssignAt(k, model, gate, now);
        case PatchKey(id, accountID, groupID) => var found := PatchKey(id, accountID, groupID);
        case RemoveKeys(ids) => var removed := RemoveKeys(ids);
        case RemoveProviders(ids) => var removed := RemoveProviders(ids);
        case Meter(keyID, ok, usage) => MeterRequest(keyID, ok, usage);
      }
    }

    /** A mutation: assigns the account of the k-th key for a request, without rebuilding any index. */
    method AssignAt(k: nat, model: string, gate: Gate, now: int)
      requires Valid()
      modifies this`accountKeyLoad, keys`accountID
      ensures Valid()
      ensures Stored() == if k < old(|keys|) then old(Stored()).(keys := Assign(old(Stored()), k, model, gate, now).1)
              else old(Stored())
    {
      hide Indexed, KeysIndexed, Assign;
      if k < |keys| {
        PlaceIs(k);
        var chosen := AssignAccountGated(keys[k], model, gate, now);
      }
    }

    /** What `Permitted` says of the objects. */
    lemma PermittedHere(step: Step)
      requires Permitted(Stored(), step)
      ensures Stored().keys == KeyStates(keys) && Stored().providers == ProviderStates(providers)
      ensures step.CreateAccount? ==>
                && step.account.config.id !in AccountIDs(accounts) && !Blank(step.account.config.id)
                && NewProviders(step.pasted, ProviderIDs(providers))
      ensures step.CreateKeys? ==> NewHashes(step.keys, KeyHashes(keys))
    {
      assert IDsOf(Stored().providers) == ProviderIDs(providers);
      assert HashesOf(Stored().keys) == KeyHashes(keys);
      hide NewProviders, NewHashes, Blank;
      if step.CreateAccount? {
        forall i | 0 <= i < |accounts| ensures AccountIDs(accounts)[i] != step.account.config.id {
          assert Stored().accounts[i].config.id == accounts[i].config.id;
        }
      }
    }

    /** Any run of updates and mutations keeps the indexes right and does what the functions on plain data say. */
    method PerformAll(steps: seq<Step>)
      requires Valid() && AllPermitted(Ledger(), steps)
      modifies this, keys, accounts
      ensures Valid() && Ledger() == After(old(Ledger()), steps)
    {
      hide Valid, Ledger, Permitted, Done;
      ghost var start := Ledger();
      NothingDone(start);
      for i := 0 to |steps|
        invariant Valid() && SameObjects() && Ledger() == After(start, steps[..i])
      {
        assert PermittedAt(start, steps, i);
        NextDone(start, steps, i);
        LedgerView();
        assert forall j :: 0 <= j < |keys| ==> keys[j] in old(keys) || fresh(keys[j]);
        assert forall j :: 0 <= j < |accounts| ==> accounts[j] in old(accounts) || fresh(accounts[j]);
        Perform(steps[i]);
      }
      assert steps[..|steps|] == steps;
    }

    lemma LedgerView()
      ensures Ledger().view == Stored()
    {
    }

    /** Once built, the indexes answer every lookup as a scan of the stored lists does, and the load index counts
        the keys. */
    lemma IndexesAnswerScans(id: string)
      requires Valid() && index.Some? && id != ""
      ensures Entry(index.value.groupByID, id) == Scanned(groups, GroupIDs(groups), id)
      ensures Entry(index.value.accountByID, id) == Scanned(accounts, AccountIDs(accounts), id)
      ensures Entry(index.value.providerByID, id) == Scanned(providers, ProviderIDs(providers), id)
      ensures Entry(index.value.keyByHash, id) == Scanned(keys, KeyHashes(keys), id)
      ensures (if id in index.value.accountProvs then index.value.accountProvs[id] else []) == OwnedBy(providers, id)
      ensures Counted(accountKeyLoad, id) == Load(KeyStates(keys), id)
    {
      IndexIsScanIffDistinct(GroupIDs(groups));
      IndexIsScanIffDistinct(AccountIDs(accounts));
      IndexIsScanIffDistinct(ProviderIDs(providers));
      IndexIsScanIffDistinct(KeyHashes(keys));
      assert LoadRight(id);
      hide Distinct, Load, OwnedBy, FirstOf, LastOf;
    }
  }

  /** The index of upstream APIs gives what a scan gives, for every id, exactly when each of them belongs
      to an account. */
  lemma OwnersAnswerScansIff(index: map<string, seq<Provider>>, providers: seq<Provider>)
    requires Owns(index, providers)
    ensures (forall id: string :: (if id in index then index[id] else []) == OwnedBy(providers, id))
            <==> forall i :: 0 <= i < |providers| ==> providers[i].accountID != ""
  {
    OwnedIffPresent(providers, "");
    assert "" !in index;
  }

  lemma {:induction false} OwnedIffPresent(providers: seq<Provider>, id: string)
    ensures OwnedBy(providers, id) == [] <==> forall i :: 0 <= i < |providers| ==> providers[i].accountID != id
  {
    if providers != [] {
      OwnedIffPresent(providers[..|providers| - 1], id);
    }
  }
}
