/** Creating and removing accounts, groups, upstream APIs and gateway keys (internal/store/account.go,
    internal/store/store.go, internal/admin/accounts.go, internal/admin/keys.go) as functions of the stored
    data and the removal log. */
module Lifecycle {
  import opened Accounts
  import opened Allocation
  import opened Lists
  import Metering

  /** An entry of the removal log. */
  datatype Removed = Removed(id: string, groupID: string, tokens: nat)

  datatype Books = Books(view: View, log: seq<Removed>)

  const MAX_LOG := 200
  const MAX_KEYS_PER_ACCOUNT := 5

  function KeptAccounts(accounts: seq<AccountState>, wanted: set<string>): seq<AccountState> {
    Filtered(accounts, (a: AccountState) => a.config.id !in wanted)
  }

  function Obituaries(accounts: seq<AccountState>, wanted: set<string>): seq<Removed> {
    if accounts == [] then []
    else
      var before, last := Obituaries(accounts[..|accounts| - 1], wanted), accounts[|accounts| - 1];
      if last.config.id in wanted then before + [Removed(last.config.id, last.config.groupID, last.tokens)] else before
  }

  function KeptProviders(ps: seq<ProviderState>, wanted: set<string>): seq<ProviderState> {
    Filtered(ps, (p: ProviderState) => p.accountID !in wanted)
  }

  function Unbound(keys: seq<KeyState>, wanted: set<string>): seq<KeyState> {
    seq(|keys|, i requires 0 <= i < |keys| =>
      if keys[i].accountID in wanted then keys[i].(accountID := "") else keys[i])
  }

  /** The newest entries of the log. */
  function Truncated(log: seq<Removed>): seq<Removed> {
    if |log| > MAX_LOG then log[|log| - MAX_LOG..] else log
  }

  function AccountsRemoved(b: Books, wanted: set<string>): Books {
    var v, gone := b.view, Obituaries(b.view.accounts, wanted);
    if gone == [] then b
    else
      Books(
        View(v.groups, KeptAccounts(v.accounts, wanted), KeptProviders(v.providers, wanted), Unbound(v.keys, wanted)),
        Truncated(b.log + gone))
  }

  /** White space, as Unicode defines it. */
  predicate IsSpace(c: char) {
    var n := c as int;
    9 <= n <= 13 || n in {0x20, 0x85, 0xA0, 0x1680, 0x2028, 0x2029, 0x202F, 0x205F, 0x3000} || 0x2000 <= n <= 0x200A
  }

  predicate Blank(id: string) {
    forall i :: 0 <= i < |id| ==> IsSpace(id[i])
  }

  /** The ids of a removal; blank ones are ignored. */
  function Wanted(ids: seq<string>): set<string> {
    set id | id in ids && !Blank(id)
  }

  /** Ids of the accounts in the given groups. */
  function MembersOf(accounts: seq<AccountState>, groups: set<string>): seq<string> {
    if accounts == [] then []
    else
      var before, last := MembersOf(accounts[..|accounts| - 1], groups), accounts[|accounts| - 1];
      if last.config.groupID in groups then before + [last.config.id] else before
  }

  function KeptGroups(groups: seq<GroupState>, wanted: set<string>): seq<GroupState> {
    Filtered(groups, (g: GroupState) => g.id !in wanted)
  }

  function Ungrouped(keys: seq<KeyState>, wanted: set<string>): seq<KeyState> {
    seq(|keys|, i requires 0 <= i < |keys| =>
      if keys[i].groupID in wanted then keys[i].(groupID := "") else keys[i])
  }

  function GroupsRemoved(b: Books, wanted: set<string>): Books {
    var emptied := AccountsRemoved(b, Wanted(MembersOf(b.view.accounts, wanted)));
    emptied.(view :=
      emptied.view.(groups := KeptGroups(b.view.groups, wanted), keys := Ungrouped(emptied.view.keys, wanted)))
  }

  /** The upstream APIs created from a list of pasted keys: unusable ones are skipped, and everything after
      the fifth that was created. */
  function Built(pasted: seq<Option<ProviderState>>, accountID: string): seq<ProviderState> {
    if pasted == [] then []
    else
      var before, last := Built(pasted[..|pasted| - 1], accountID), pasted[|pasted| - 1];
      if |before| >= MAX_KEYS_PER_ACCOUNT || last.None? then before else before + [last.value.(accountID := accountID)]
  }

  /** An account is stored with its upstream APIs, and removed again when it has none. */
  function AccountCreated(b: Books, account: AccountState, pasted: seq<Option<ProviderState>>): Books {
    var built, v := Built(pasted, account.config.id), b.view;
    var stored := b.(view := v.(accounts := v.accounts + [account], providers := v.providers + built));
    if built == [] then AccountsRemoved(stored, {account.config.id}) else stored
  }

  function KeptKeys(keys: seq<KeyState>, wanted: set<string>): seq<KeyState> {
    Filtered(keys, (k: KeyState) => k.id !in wanted)
  }

  function OtherProviders(ps: seq<ProviderState>, wanted: set<string>): seq<ProviderState> {
    Filtered(ps, (p: ProviderState) => p.id !in wanted)
  }

  function Positions(start: nat, count: nat): (ks: seq<nat>)
    ensures |ks| == count && forall i :: 0 <= i < count ==> ks[i] == start + i
  {
    seq(count, i requires 0 <= i < count => start + i)
  }

  /** New keys are stored and then assigned one after the other. */
  function KeysCreated(v: View, added: seq<KeyState>, now: int): View {
    AssignEach(v.(keys := v.keys + added), Positions(|v.keys|, |added|), "", NoGate, now)
  }

  function TrimLeft(s: string): string {
    if s != "" && IsSpace(s[0]) then TrimLeft(s[1..]) else s
  }

  function TrimRight(s: string): string {
    if s != "" && IsSpace(s[|s| - 1]) then TrimRight(s[..|s| - 1]) else s
  }

  function TrimSpace(s: string): string {
    TrimRight(TrimLeft(s))
  }

  function KeyIndex(keys: seq<KeyState>, id: string): (k: nat)
    ensures k <= |keys|
    ensures k < |keys| ==> keys[k].id == id
  {
    if keys == [] || keys[0].id == id then 0 else 1 + KeyIndex(keys[1..], id)
  }

  /** An empty field of a patch leaves the key's field as it is. */
  function PatchedField(patch: string, current: string): string {
    TrimSpace(if patch != "" then patch else current)
  }

  function KeyPatched(v: View, id: string, accountID: string, groupID: string): View {
    var k := KeyIndex(v.keys, id);
    if k == |v.keys| then v
    else
      var key := v.keys[k];
      v.(keys := v.keys[k := key.(accountID := PatchedField(accountID, key.accountID),
                                  groupID := PatchedField(groupID, key.groupID))])
  }

  // ---------------------------------------------------------------------------------------------
  // What every such step keeps
  // ---------------------------------------------------------------------------------------------

  predicate IsLive(accounts: seq<AccountState>, id: string) {
    exists i :: 0 <= i < |accounts| && accounts[i].config.id == id
  }

  function OwnedCount(ps: seq<ProviderState>, id: string): nat {
    if ps == [] then 0 else OwnedCount(ps[..|ps| - 1], id) + if ps[|ps| - 1].accountID == id then 1 else 0
  }

  /** Every upstream API belongs to a live account, no account has more than five, and every bound key
      points at a live account. */
  ghost predicate Closed(v: View) {
    && NamedAccounts(v.accounts)
    && (forall i :: 0 <= i < |v.providers| ==> IsLive(v.accounts, v.providers[i].accountID))
    && (forall id :: OwnedCount(v.providers, id) <= MAX_KEYS_PER_ACCOUNT)
    && (forall i :: 0 <= i < |v.keys| ==> v.keys[i].accountID == "" || IsLive(v.accounts, v.keys[i].accountID))
  }

  function LiveTokens(accounts: seq<AccountState>): nat {
    if accounts == [] then 0 else LiveTokens(accounts[..|accounts| - 1]) + accounts[|accounts| - 1].tokens
  }

  function LoggedTokens(log: seq<Removed>): nat {
    if log == [] then 0 else LoggedTokens(log[..|log| - 1]) + log[|log| - 1].tokens
  }

  /** Tokens ever metered: live plus logged. */
  function Lifetime(b: Books): nat {
    LiveTokens(b.view.accounts) + LoggedTokens(b.log)
  }

  lemma {:induction false} KeptLive(accounts: seq<AccountState>, wanted: set<string>)
    ensures forall id :: IsLive(KeptAccounts(accounts, wanted), id) <==> IsLive(accounts, id) && id !in wanted
    ensures NamedAccounts(accounts) ==> NamedAccounts(KeptAccounts(accounts, wanted))
    ensures |KeptAccounts(accounts, wanted)| + |Obituaries(accounts, wanted)| == |accounts|
  {
    if accounts != [] {
      var init, last := accounts[..|accounts| - 1], accounts[|accounts| - 1];
      KeptLive(init, wanted);
      LiveSnoc(init, last);
      LiveSnoc(KeptAccounts(init, wanted), last);
      assert accounts == init + [last];
      NamedSnoc(init, last);
      NamedSnoc(KeptAccounts(init, wanted), last);
      hide IsLive, NamedAccounts;
    }
  }

  lemma LiveSnoc(accounts: seq<AccountState>, last: AccountState)
    ensures forall id :: IsLive(accounts + [last], id) <==> IsLive(accounts, id) || id == last.config.id
  {
    forall id ensures IsLive(accounts + [last], id) <==> IsLive(accounts, id) || id == last.config.id {
      if IsLive(accounts, id) {
        var i :| 0 <= i < |accounts| && accounts[i].config.id == id;
        assert (accounts + [last])[i].config.id == id;
      }
      if id == last.config.id {
        assert (accounts + [last])[|accounts|].config.id == id;
      }
    }
  }

  lemma NamedSnoc(accounts: seq<AccountState>, last: AccountState)
    ensures NamedAccounts(accounts + [last]) <==>
              NamedAccounts(accounts) && last.config.id != "" && !IsLive(accounts, last.config.id)
  {
    var all := accounts + [last];
    if NamedAccounts(all) {
      assert forall i :: 0 <= i < |accounts| ==> accounts[i] == all[i];
      assert all[|accounts|] == last;
    }
  }

  lemma {:induction false} KeptOwned(ps: seq<ProviderState>, wanted: set<string>)
    ensures forall id :: OwnedCount(KeptProviders(ps, wanted), id) == if id in wanted then 0 else OwnedCount(ps, id)
    ensures forall i :: 0 <= i < |KeptProviders(ps, wanted)| ==>
              KeptProviders(ps, wanted)[i] in ps && KeptProviders(ps, wanted)[i].accountID !in wanted
  {
    if ps != [] {
      KeptOwned(ps[..|ps| - 1], wanted);
      var before := KeptProviders(ps[..|ps| - 1], wanted);
      assert (before + [ps[|ps| - 1]])[..|before|] == before;
    }
  }

  lemma {:induction false} KeptTokens(accounts: seq<AccountState>, wanted: set<string>)
    ensures LiveTokens(KeptAccounts(accounts, wanted)) + LoggedTokens(Obituaries(accounts, wanted)) ==
            LiveTokens(accounts)
  {
    if accounts != [] {
      var init, last := accounts[..|accounts| - 1], accounts[|accounts| - 1];
      KeptTokens(init, wanted);
      var kept, gone := KeptAccounts(init, wanted), Obituaries(init, wanted);
      assert (kept + [last])[..|kept|] == kept;
      var entry := Removed(last.config.id, last.config.groupID, last.tokens);
      assert (gone + [entry])[..|gone|] == gone;
    }
  }

  lemma {:induction false} LogConcat(a: seq<Removed>, b: seq<Removed>)
    ensures LoggedTokens(a + b) == LoggedTokens(a) + LoggedTokens(b)
    decreases |b|
  {
    if b == [] {
      assert a + b == a;
    } else {
      LogConcat(a, b[..|b| - 1]);
      assert (a + b)[..|a + b| - 1] == a + b[..|b| - 1];
    }
  }

  /** Removing accounts keeps the store closed, logs at most 200 removals, and loses exactly the tokens of
      the entries that fall out of the log. */
  lemma RemovalKeepsClosed(b: Books, wanted: set<string>)
    requires Closed(b.view) && |b.log| <= MAX_LOG
    ensures var gone, after := Obituaries(b.view.accounts, wanted), AccountsRemoved(b, wanted);
            && Closed(after.view) && |after.log| <= MAX_LOG
            && (forall id :: id in wanted ==> !IsLive(after.view.accounts, id))
            && (forall i :: 0 <= i < |after.view.keys|
                  ==> after.view.keys[i].accountID !in wanted || after.view.keys[i].accountID == "")
            && var dropped := if |b.log + gone| > MAX_LOG then (b.log + gone)[..|b.log + gone| - MAX_LOG] else [];
               Lifetime(after) + LoggedTokens(dropped) == Lifetime(b)
  {
    var v, gone := b.view, Obituaries(b.view.accounts, wanted);
    KeptLive(v.accounts, wanted);
    KeptTokens(v.accounts, wanted);
    LogConcat(b.log, gone);
    LogSplit(b.log + gone);
    if gone == [] {
      NobodyWanted(v.accounts, wanted);
      NoneGone(b, wanted);
    } else {
      RemovedClosed(b, wanted);
    }
    hide Closed, IsLive, KeptAccounts, Obituaries, KeptProviders, LoggedTokens, LiveTokens;
  }

  lemma NoneGone(b: Books, wanted: set<string>)
    requires Closed(b.view) && forall id :: id in wanted ==> !IsLive(b.view.accounts, id)
    ensures forall i :: 0 <= i < |b.view.keys| ==> b.view.keys[i].accountID !in wanted || b.view.keys[i].accountID == ""
  {
    hide IsLive, NamedAccounts;
  }

  lemma NobodyWanted(accounts: seq<AccountState>, wanted: set<string>)
    requires Obituaries(accounts, wanted) == []
    ensures KeptAccounts(accounts, wanted) == accounts
    ensures forall id :: id in wanted ==> !IsLive(accounts, id)
  {
    if accounts != [] {
      NobodyWanted(accounts[..|accounts| - 1], wanted);
      LiveSnoc(accounts[..|accounts| - 1], accounts[|accounts| - 1]);
      assert accounts == accounts[..|accounts| - 1] + [accounts[|accounts| - 1]];
    }
  }

  lemma LogSplit(log: seq<Removed>)
    ensures |log| > MAX_LOG ==>
              LoggedTokens(log) == LoggedTokens(log[..|log| - MAX_LOG]) + LoggedTokens(log[|log| - MAX_LOG..])
  {
    if |log| > MAX_LOG {
      LogConcat(log[..|log| - MAX_LOG], log[|log| - MAX_LOG..]);
      assert log == log[..|log| - MAX_LOG] + log[|log| - MAX_LOG..];
    }
  }

  lemma RemovedClosed(b: Books, wanted: set<string>)
    requires Closed(b.view) && Obituaries(b.view.accounts, wanted) != []
    ensures Closed(AccountsRemoved(b, wanted).view)
    ensures forall id :: id in wanted ==> !IsLive(AccountsRemoved(b, wanted).view.accounts, id)
    ensures var keys := AccountsRemoved(b, wanted).view.keys;
            forall i :: 0 <= i < |keys| ==> keys[i].accountID !in wanted || keys[i].accountID == ""
  {
    var v, w := b.view, AccountsRemoved(b, wanted).view;
    KeptLive(v.accounts, wanted);
    KeptOwned(v.providers, wanted);
    hide IsLive, KeptAccounts, KeptProviders, Obituaries, NamedAccounts, OwnedCount;
    forall i | 0 <= i < |w.providers| ensures IsLive(w.accounts, w.providers[i].accountID) {
      assert w.providers[i] in v.providers;
    }
  }

  lemma {:induction false} OwnedConcat(ps: seq<ProviderState>, more: seq<ProviderState>, id: string)
    ensures OwnedCount(ps + more, id) == OwnedCount(ps, id) + OwnedCount(more, id)
    decreases |more|
  {
    if more == [] {
      assert ps + more == ps;
    } else {
      OwnedConcat(ps, more[..|more| - 1], id);
      assert (ps + more)[..|ps + more| - 1] == ps + more[..|more| - 1];
    }
  }

  lemma {:induction false} NoneOwned(accounts: seq<AccountState>, ps: seq<ProviderState>, id: string)
    requires !IsLive(accounts, id)
    requires forall i :: 0 <= i < |ps| ==> IsLive(accounts, ps[i].accountID)
    ensures OwnedCount(ps, id) == 0
  {
    hide IsLive;
    if ps != [] {
      NoneOwned(accounts, ps[..|ps| - 1], id);
    }
  }

  lemma {:induction false} BuiltOwned(pasted: seq<Option<ProviderState>>, accountID: string)
    ensures var built := Built(pasted, accountID);
            && |built| <= MAX_KEYS_PER_ACCOUNT
            && (forall i :: 0 <= i < |built| ==> built[i].accountID == accountID)
            && forall id :: OwnedCount(built, id) == if id == accountID then |built| else 0
  {
    if pasted != [] {
      BuiltOwned(pasted[..|pasted| - 1], accountID);
      var before, last := Built(pasted[..|pasted| - 1], accountID), pasted[|pasted| - 1];
      if last.Some? {
        assert (before + [last.value.(accountID := accountID)])[..|before|] == before;
      }
    }
  }

  /** The new account and its upstream APIs, before an account without any is taken out again. */
  lemma {:induction false} StoredIsClosed(v: View, account: AccountState, built: seq<ProviderState>)
    requires Closed(v) && account.config.id != "" && !IsLive(v.accounts, account.config.id)
    requires |built| <= MAX_KEYS_PER_ACCOUNT
    requires forall i :: 0 <= i < |built| ==> built[i].accountID == account.config.id
    requires forall id :: OwnedCount(built, id) == if id == account.config.id then |built| else 0
    ensures Closed(v.(accounts := v.accounts + [account], providers := v.providers + built))
  {
    LiveSnoc(v.accounts, account);
    NamedSnoc(v.accounts, account);
    NoneOwned(v.accounts, v.providers, account.config.id);
    hide IsLive, NamedAccounts, OwnedCount;
    forall id ensures OwnedCount(v.providers + built, id) <= MAX_KEYS_PER_ACCOUNT {
      OwnedConcat(v.providers, built, id);
    }
  }

  lemma {:induction false} RegroupedIsClosed(v: View, wanted: set<string>, groups: seq<GroupState>)
    requires Closed(v)
    ensures Closed(v.(groups := groups, keys := Ungrouped(v.keys, wanted)))
  {
    hide IsLive, NamedAccounts, OwnedCount;
  }

  // ---------------------------------------------------------------------------------------------
  // Runs
  // ---------------------------------------------------------------------------------------------

  datatype Step =
    | CreateAccount(account: AccountState, pasted: seq<Option<ProviderState>>)
    | RemoveAccounts(accountIDs: seq<string>)
    | RemoveGroups(groupIDs: seq<string>)
    | CreateKeys(keys: seq<KeyState>, at: int)
    | AssignKey(k: nat, model: string, gate: Gate, now: int)
    | PatchKey(keyID: string, accountID: string, groupID: string)
    | RemoveKeys(keyIDs: seq<string>)
    | RemoveProviders(providerIDs: seq<string>)
    | Meter(keyID: string, ok: bool, usage: Metering.Usage)

  /** The account that a request with a key is metered on, by its position. */
  function PayerOf(v: View, keyID: string): (p: nat)
    ensures p <= |v.accounts|
  {
    var k := KeyIndex(v.keys, keyID);
    if k == |v.keys| then |v.accounts| else AccountIndex(v.accounts, v.keys[k].accountID)
  }

  function AccountIndex(accounts: seq<AccountState>, id: string): (p: nat)
    ensures p <= |accounts|
    ensures p < |accounts| ==> accounts[p].config.id == id && id != ""
  {
    if id == "" || accounts == [] then |accounts|
    else if accounts[0].config.id == id then 0
    else 1 + AccountIndex(accounts[1..], id)
  }

  /** Meters a request on the account of its key, if there is one. */
  function MeteredOn(v: View, keyID: string, ok: bool, usage: Metering.Usage): View {
    var p := PayerOf(v, keyID);
    if p == |v.accounts| then v else v.(accounts := v.accounts[p := Metering.Metered(v.accounts[p], ok, usage)])
  }

  function Done(b: Books, step: Step): Books {
    match step
    case CreateAccount(account, pasted) => AccountCreated(b, account, pasted)
    case RemoveAccounts(ids) => AccountsRemoved(b, Wanted(ids))
    case RemoveGroups(ids) => GroupsRemoved(b, Wanted(ids))
    case CreateKeys(keys, now) => b.(view := KeysCreated(b.view, keys, now))
    case AssignKey(k, model, gate, now) =>
      if k < |b.view.keys| then b.(view := b.view.(keys := Assign(b.view, k, model, gate, now).1)) else b
    case PatchKey(id, accountID, groupID) => b.(view := KeyPatched(b.view, id, accountID, groupID))
    case RemoveKeys(ids) => b.(view := b.view.(keys := KeptKeys(b.view.keys, Wanted(ids))))
    case RemoveProviders(ids) => b.(view := b.view.(providers := OtherProviders(b.view.providers, Wanted(ids))))
    case Meter(keyID, ok, usage) => b.(view := MeteredOn(b.view, keyID, ok, usage))
  }

  /** A created account has a new id and no metered tokens; a patch names a live account or none. */
  predicate Allowed(b: Books, step: Step) {
    && (step.CreateAccount? ==>
          && step.account.config.id != "" && !IsLive(b.view.accounts, step.account.config.id)
          && step.account.tokens == 0)
    && (step.PatchKey? ==> PatchIsSound(b.view, step.keyID, step.accountID))
  }

  predicate PatchIsSound(v: View, id: string, accountID: string) {
    var k := KeyIndex(v.keys, id);
    k < |v.keys| ==>
      var bound := PatchedField(accountID, v.keys[k].accountID);
      bound == "" || IsLive(v.accounts, bound)
  }

  /** What a step removes. */
  function Losses(b: Books, step: Step): seq<Removed> {
    match step
    case CreateAccount(account, pasted) =>
      if Built(pasted, account.config.id) == [] then Obituaries(b.view.accounts + [account], {account.config.id})
        else []
    case RemoveAccounts(ids) => Obituaries(b.view.accounts, Wanted(ids))
    case RemoveGroups(ids) => Obituaries(b.view.accounts, Wanted(MembersOf(b.view.accounts, Wanted(ids))))
    case _ => []
  }

  /** The tokens that a step meters on an account. */
  function Gains(b: Books, step: Step): nat {
    if step.Meter? && PayerOf(b.view, step.keyID) < |b.view.accounts| then Metering.TotalTokens(step.usage) else 0
  }

  function AllGains(b: Books, steps: seq<Step>): nat {
    if steps == [] then 0
    else AllGains(b, steps[..|steps| - 1]) + Gains(After(b, steps[..|steps| - 1]), steps[|steps| - 1])
  }

  function After(b: Books, steps: seq<Step>): Books {
    if steps == [] then b else Done(After(b, steps[..|steps| - 1]), steps[|steps| - 1])
  }

  function AllLosses(b: Books, steps: seq<Step>): seq<Removed> {
    if steps == [] then []
    else AllLosses(b, steps[..|steps| - 1]) + Losses(After(b, steps[..|steps| - 1]), steps[|steps| - 1])
  }

  predicate AllowedAt(b: Books, steps: seq<Step>, n: nat)
    requires n < |steps|
  {
    Allowed(After(b, steps[..n]), steps[n])
  }

  predicate AllAllowed(b: Books, steps: seq<Step>) {
    forall n :: 0 <= n < |steps| ==> AllowedAt(b, steps, n)
  }

  lemma AssignBinds(v: View, k: nat, model: string, gate: Gate, now: int)
    requires k < |v.keys|
    ensures var keys := Assign(v, k, model, gate, now).1;
            && |keys| == |v.keys| && (forall i :: 0 <= i < |keys| && i != k ==> keys[i] == v.keys[i])
            && (keys[k].accountID == "" || IsLive(v.accounts, keys[k].accountID))
  {
    var key := v.keys[k];
    var pool := Pool(v, key.groupID, model, gate, now);
    FoundAccount(v.accounts, key.accountID);
    PoolMembers(v, key.groupID, model, gate, now);
    BestIsMinimal(v.(keys := Bound(v.keys, k, "")), pool, model, now);
    hide Pool, Best, Eligible, Declares, FindAccount, Usable, GroupOn, HealthyCount, RankOf, Before, Holds;
    assert forall a :: a in v.accounts ==> IsLive(v.accounts, a.config.id);
  }

  ghost predicate BoundToLive(v: View, key: KeyState) {
    key.accountID == "" || IsLive(v.accounts, key.accountID)
  }

  lemma {:induction false} AssignEachBinds(v: View, ks: seq<nat>, model: string, gate: Gate, now: int)
    requires forall i :: 0 <= i < |ks| ==> ks[i] < |v.keys|
    requires forall i :: 0 <= i < |v.keys| && i !in ks ==> BoundToLive(v, v.keys[i])
    ensures var after := AssignEach(v, ks, model, gate, now);
            && after == v.(keys := after.keys) && |after.keys| == |v.keys|
            && forall i :: 0 <= i < |v.keys| ==> BoundToLive(v, after.keys[i])
  {
    hide Assign, IsLive;
    if ks != [] {
      var init, k := ks[..|ks| - 1], ks[|ks| - 1];
      RestBinds(v, init, model, gate, now);
      var before := AssignEach(v, init, model, gate, now);
      AssignBinds(before, k, model, gate, now);
      forall i | 0 <= i < |v.keys| ensures BoundToLive(v, AssignEach(v, ks, model, gate, now).keys[i]) {
        if i != k && i !in init {
          assert i !in ks;
        }
      }
    }
  }

  /** Keys that are not reassigned stay, the others end up bound to live accounts. */
  lemma {:induction false} RestBinds(v: View, ks: seq<nat>, model: string, gate: Gate, now: int)
    requires forall i :: 0 <= i < |ks| ==> ks[i] < |v.keys|
    ensures var after := AssignEach(v, ks, model, gate, now);
            && after == v.(keys := after.keys) && |after.keys| == |v.keys|
            && (forall i :: 0 <= i < |v.keys| && i in ks ==> BoundToLive(v, after.keys[i]))
            && (forall i :: 0 <= i < |v.keys| && i !in ks ==> after.keys[i] == v.keys[i])
  {
    hide Assign, IsLive;
    if ks != [] {
      var init, k := ks[..|ks| - 1], ks[|ks| - 1];
      RestBinds(v, init, model, gate, now);
      AssignBinds(AssignEach(v, init, model, gate, now), k, model, gate, now);
      assert forall i :: i in ks <==> i in init || i == k;
    }
  }

  lemma AreInPositions(start: nat, count: nat)
    ensures forall i :: start <= i < start + count ==> i in Positions(start, count)
  {
    forall i | start <= i < start + count ensures i in Positions(start, count) {
      assert Positions(start, count)[i - start] == i;
    }
  }

  /** Whatever account the template of a new key names, the key ends up without one or with a live one. */
  lemma CreatedIsClosed(v: View, added: seq<KeyState>, now: int)
    requires Closed(v)
    ensures Closed(KeysCreated(v, added, now))
    ensures KeysCreated(v, added, now) == v.(keys := KeysCreated(v, added, now).keys)
  {
    hide IsLive, NamedAccounts, OwnedCount, AssignEach;
    var w, ks := v.(keys := v.keys + added), Positions(|v.keys|, |added|);
    AreInPositions(|v.keys|, |added|);
    assert forall i :: 0 <= i < |w.keys| && i !in ks ==> BoundToLive(w, w.keys[i]);
    AssignEachBinds(w, ks, "", NoGate, now);
    var after := KeysCreated(v, added, now);
    forall i | 0 <= i < |after.keys|
      ensures after.keys[i].accountID == "" || IsLive(after.accounts, after.keys[i].accountID) {
      assert BoundToLive(w, after.keys[i]);
    }
  }

  /** A patch keeps the store closed exactly when it names a live account or none. */
  lemma PatchKeepsClosedIff(v: View, id: string, accountID: string, groupID: string)
    requires Closed(v)
    ensures Closed(KeyPatched(v, id, accountID, groupID)) <==> PatchIsSound(v, id, accountID)
  {
    hide IsLive, NamedAccounts, OwnedCount, PatchedField;
    var k, w := KeyIndex(v.keys, id), KeyPatched(v, id, accountID, groupID);
    if k < |v.keys| {
      assert w.keys[k].accountID == PatchedField(accountID, v.keys[k].accountID);
    }
  }

  /** Nothing checks the account that a patch names. */
  lemma PatchMayDangle()
    ensures var v := View([], [], [], [PlainKey("k")]);
            Closed(v) && !Closed(KeyPatched(v, "k", "gone", ""))
  {
    var v := View([], [], [], [PlainKey("k")]);
    assert PatchedField("gone", "") == "gone";
    assert KeyPatched(v, "k", "gone", "").keys[0].accountID == "gone";
  }

  lemma {:induction false} KeptKeysAreKeys(keys: seq<KeyState>, wanted: set<string>)
    ensures forall key :: key in KeptKeys(keys, wanted) <==> key in keys && key.id !in wanted
  {
    if keys != [] {
      KeptKeysAreKeys(keys[..|keys| - 1], wanted);
      assert forall key :: key in keys <==> key in keys[..|keys| - 1] || key == keys[|keys| - 1];
    }
  }

  lemma {:induction false} OthersOwned(ps: seq<ProviderState>, wanted: set<string>)
    ensures forall id :: OwnedCount(OtherProviders(ps, wanted), id) <= OwnedCount(ps, id)
    ensures forall i :: 0 <= i < |OtherProviders(ps, wanted)| ==> OtherProviders(ps, wanted)[i] in ps
  {
    if ps != [] {
      OthersOwned(ps[..|ps| - 1], wanted);
      var before := OtherProviders(ps[..|ps| - 1], wanted);
      assert (before + [ps[|ps| - 1]])[..|before|] == before;
    }
  }

  lemma {:induction false} FewerIsClosed(v: View, wanted: set<string>)
    requires Closed(v)
    ensures Closed(v.(keys := KeptKeys(v.keys, wanted)))
    ensures Closed(v.(providers := OtherProviders(v.providers, wanted)))
  {
    KeptKeysAreKeys(v.keys, wanted);
    OthersOwned(v.providers, wanted);
    hide IsLive, NamedAccounts, OwnedCount, KeptKeys, OtherProviders;
    var kept, others := KeptKeys(v.keys, wanted), OtherProviders(v.providers, wanted);
    forall i | 0 <= i < |kept| ensures kept[i].accountID == "" || IsLive(v.accounts, kept[i].accountID) {
      assert kept[i] in v.keys;
    }
    forall i | 0 <= i < |others| ensures IsLive(v.accounts, others[i].accountID) {
      assert others[i] in v.providers;
    }
    forall id ensures OwnedCount(others, id) <= MAX_KEYS_PER_ACCOUNT {
      assert OwnedCount(others, id) <= OwnedCount(v.providers, id);
    }
  }

  lemma {:induction false} AssignedIsClosed(v: View, k: nat, model: string, gate: Gate, now: int)
    requires Closed(v) && k < |v.keys|
    ensures Closed(v.(keys := Assign(v, k, model, gate, now).1))
  {
    AssignBinds(v, k, model, gate, now);
    hide IsLive, NamedAccounts, OwnedCount, Assign;
  }

  /** The store stays closed, the log gains what was removed, and no token is lost. */
  ghost predicate KeepsBooks(b: Books, step: Step) {
    && Closed(Done(b, step).view)
    && Done(b, step).log == Truncated(b.log + Losses(b, step))
    && LiveTokens(Done(b, step).view.accounts) + LoggedTokens(Losses(b, step)) ==
       LiveTokens(b.view.accounts) + Gains(b, step)
  }

  lemma RemoveAccountsKeeps(b: Books, ids: seq<string>)
    requires Closed(b.view) && |b.log| <= MAX_LOG
    ensures KeepsBooks(b, RemoveAccounts(ids))
  {
    RemovalStep(b, Wanted(ids));
    hide Closed, AccountsRemoved, Obituaries, Wanted, LiveTokens, LoggedTokens, Truncated;
  }

  lemma RemoveGroupsKeeps(b: Books, ids: seq<string>)
    requires Closed(b.view) && |b.log| <= MAX_LOG
    ensures KeepsBooks(b, RemoveGroups(ids))
  {
    var members := Wanted(MembersOf(b.view.accounts, Wanted(ids)));
    RemovalStep(b, members);
    RegroupedIsClosed(AccountsRemoved(b, members).view, Wanted(ids), KeptGroups(b.view.groups, Wanted(ids)));
    hide Closed, AccountsRemoved, Obituaries, Wanted, MembersOf, LiveTokens, LoggedTokens, Truncated, KeptGroups,
         Ungrouped;
  }

  lemma CreateAccountKeeps(b: Books, account: AccountState, pasted: seq<Option<ProviderState>>)
    requires Closed(b.view) && |b.log| <= MAX_LOG && Allowed(b, CreateAccount(account, pasted))
    ensures KeepsBooks(b, CreateAccount(account, pasted))
  {
    var built := Built(pasted, account.config.id);
    var v := b.view.(accounts := b.view.accounts + [account], providers := b.view.providers + built);
    BuiltOwned(pasted, account.config.id);
    StoredIsClosed(b.view, account, built);
    RemovalStep(b.(view := v), {account.config.id});
    assert v.accounts[..|b.view.accounts|] == b.view.accounts;
    assert b.log + [] == b.log;
    NothingLogged();
    hide Closed, AccountsRemoved, IsLive, Built, Obituaries;
  }

  lemma StepKeepsClosed(b: Books, step: Step)
    requires Closed(b.view) && |b.log| <= MAX_LOG && Allowed(b, step)
    ensures KeepsBooks(b, step)
  {
    match step {
      case RemoveAccounts(ids) => RemoveAccountsKeeps(b, ids);
      case RemoveGroups(ids) => RemoveGroupsKeeps(b, ids);
      case CreateAccount(account, pasted) => CreateAccountKeeps(b, account, pasted);
      case CreateKeys(keys, now) =>
        CreatedIsClosed(b.view, keys, now);
        QuietStep(b, step);
      case AssignKey(k, model, gate, now) =>
        if k < |b.view.keys| {
          AssignedIsClosed(b.view, k, model, gate, now);
        }
        QuietStep(b, step);
      case PatchKey(id, accountID, groupID) =>
        PatchKeepsClosedIff(b.view, id, accountID, groupID);
        QuietStep(b, step);
      case RemoveKeys(ids) =>
        FewerIsClosed(b.view, Wanted(ids));
        QuietStep(b, step);
      case RemoveProviders(ids) =>
        FewerIsClosed(b.view, Wanted(ids));
        QuietStep(b, step);
      case Meter(keyID, ok, usage) =>
        MeteringStep(b.view, keyID, ok, usage);
        QuietStep(b, step);
    }
    hide *;
  }

  /** Steps that remove no account leave the log alone. */
  lemma QuietStep(b: Books, step: Step)
    requires |b.log| <= MAX_LOG && !step.RemoveAccounts? && !step.RemoveGroups? && !step.CreateAccount?
    requires Closed(Done(b, step).view)
    requires LiveTokens(Done(b, step).view.accounts) == LiveTokens(b.view.accounts) + Gains(b, step)
    ensures KeepsBooks(b, step)
  {
    hide Closed, Wanted, KeysCreated, Assign, PatchIsSound, KeptKeys, OtherProviders, MeteredOn, LiveTokens, KeyPatched,
         Gains;
    assert b.log + [] == b.log;
    NothingLogged();
  }

  lemma MeteringStep(v: View, keyID: string, ok: bool, usage: Metering.Usage)
    requires Closed(v)
    ensures Closed(MeteredOn(v, keyID, ok, usage))
    ensures LiveTokens(MeteredOn(v, keyID, ok, usage).accounts) ==
            LiveTokens(v.accounts) + if PayerOf(v, keyID) < |v.accounts| then Metering.TotalTokens(usage) else 0
  {
    var p, w := PayerOf(v, keyID), MeteredOn(v, keyID, ok, usage);
    if p < |v.accounts| {
      var a := Metering.Metered(v.accounts[p], ok, usage);
      MeteredKeeps(v.accounts[p], ok, usage);
      hide Metering.Metered, OwnedCount, PayerOf;
      TokensAfterUpdate(v.accounts, p, a);
      forall id ensures IsLive(w.accounts, id) <==> IsLive(v.accounts, id) {
        SameLive(v.accounts, p, a, id);
      }
      hide IsLive;
    }
  }

  lemma MeteredKeeps(a: AccountState, ok: bool, usage: Metering.Usage)
    ensures Metering.Metered(a, ok, usage).config == a.config
    ensures Metering.Metered(a, ok, usage).tokens == a.tokens + Metering.TotalTokens(usage)
  {
    hide CostFor, Round6, Exhausted, HasManualBalance;
  }

  lemma SameLive(accounts: seq<AccountState>, p: nat, a: AccountState, id: string)
    requires p < |accounts| && a.config == accounts[p].config
    ensures IsLive(accounts[p := a], id) <==> IsLive(accounts, id)
  {
    var after := accounts[p := a];
    assert forall i :: 0 <= i < |after| ==> after[i].config == accounts[i].config;
    if IsLive(accounts, id) {
      var i :| 0 <= i < |accounts| && accounts[i].config.id == id;
      assert after[i].config.id == id;
    }
  }

  lemma {:induction false} TokensAfterUpdate(accounts: seq<AccountState>, p: nat, a: AccountState)
    requires p < |accounts|
    ensures LiveTokens(accounts[p := a]) + accounts[p].tokens == LiveTokens(accounts) + a.tokens
  {
    var n := |accounts| - 1;
    if p == n {
      assert accounts[p := a][..n] == accounts[..n];
    } else {
      TokensAfterUpdate(accounts[..n], p, a);
      assert accounts[p := a][..n] == accounts[..n][p := a];
    }
  }

  lemma RemovalStep(b: Books, wanted: set<string>)
    requires Closed(b.view) && |b.log| <= MAX_LOG
    ensures Closed(AccountsRemoved(b, wanted).view)
    ensures AccountsRemoved(b, wanted).log == Truncated(b.log + Obituaries(b.view.accounts, wanted))
    ensures LiveTokens(AccountsRemoved(b, wanted).view.accounts) + LoggedTokens(Obituaries(b.view.accounts, wanted)) ==
            LiveTokens(b.view.accounts)
  {
    RemovalKeepsClosed(b, wanted);
    KeptTokens(b.view.accounts, wanted);
    if Obituaries(b.view.accounts, wanted) == [] {
      NobodyWanted(b.view.accounts, wanted);
      assert b.log + [] == b.log;
    }
    hide Closed, KeptAccounts, Obituaries, LiveTokens, IsLive;
  }

  /** After any run of creations, removals, assignments and sound patches, every upstream API belongs
      to a live account, no account has more than five, every bound key points at a live account, the log
      holds the newest 200 removals, and live plus removed tokens are those of the beginning and those metered
      since. */
  lemma {:induction false} RunKeepsClosed(b: Books, steps: seq<Step>)
    requires Closed(b.view) && |b.log| <= MAX_LOG && AllAllowed(b, steps)
    ensures var after, gone := After(b, steps), AllLosses(b, steps);
            && Closed(after.view)
            && after.log == Truncated(b.log + gone)
            && LiveTokens(after.view.accounts) + LoggedTokens(gone) == LiveTokens(b.view.accounts) + AllGains(b, steps)
            && (|b.log + gone| <= MAX_LOG ==> Lifetime(after) == Lifetime(b) + AllGains(b, steps))
  {
    hide Closed, Allowed, Done, Losses, Gains, LiveTokens, LoggedTokens, Truncated;
    var gone := AllLosses(b, steps);
    if steps != [] {
      var init, last := steps[..|steps| - 1], steps[|steps| - 1];
      AllowedInit(b, steps);
      RunKeepsClosed(b, init);
      var before := After(b, init);
      TruncatedLog(b.log + AllLosses(b, init), Losses(before, last));
      StepKeepsClosed(before, last);
      assert b.log + gone == b.log + AllLosses(b, init) + Losses(before, last);
      LogConcat(AllLosses(b, init), Losses(before, last));
    } else {
      assert b.log + gone == b.log;
      TruncatedLog(b.log, []);
      assert b.log + [] == b.log;
      NothingLogged();
    }
    LogConcat(b.log, gone);
    TruncatedLog(b.log + gone, []);
  }

  lemma NothingLogged()
    ensures LoggedTokens([]) == 0
  {
  }

  lemma AllowedInit(b: Books, steps: seq<Step>)
    requires steps != [] && AllAllowed(b, steps)
    ensures AllAllowed(b, steps[..|steps| - 1]) && Allowed(After(b, steps[..|steps| - 1]), steps[|steps| - 1])
  {
    hide Allowed, After;
    assert AllowedAt(b, steps, |steps| - 1);
    var init := steps[..|steps| - 1];
    forall n | 0 <= n < |init| ensures AllowedAt(b, init, n) {
      assert AllowedAt(b, steps, n);
      assert init[..n] == steps[..n];
    }
  }

  /** Truncating early changes nothing. */
  lemma TruncatedLog(log: seq<Removed>, more: seq<Removed>)
    ensures Truncated(Truncated(log) + more) == Truncated(log + more)
    ensures |log| <= MAX_LOG ==> Truncated(log) == log
    ensures |Truncated(log)| <= MAX_LOG == 200
  {
  }

  lemma {:induction false} MembersAre(accounts: seq<AccountState>, groups: set<string>)
    ensures forall id :: id in MembersOf(accounts, groups) <==>
              exists a :: a in accounts && a.config.id == id && a.config.groupID in groups
  {
    if accounts != [] {
      var init, last := accounts[..|accounts| - 1], accounts[|accounts| - 1];
      MembersAre(init, groups);
      assert forall a :: a in accounts <==> a in init || a == last;
    }
  }

  /** Removing accounts: exactly the others stay, with their upstream APIs, and a key that was bound to one of them
      is bound no longer and otherwise the same. */
  lemma AccountsGo(b: Books, wanted: set<string>)
    ensures var v, z := b.view, AccountsRemoved(b, wanted).view;
            (exists a :: a in v.accounts && a.config.id in wanted) ==>
              && z.groups == v.groups && |z.keys| == |v.keys|
              && (forall a :: a in z.accounts <==> a in v.accounts && a.config.id !in wanted)
              && (forall p :: p in z.providers <==> p in v.providers && p.accountID !in wanted)
              && (forall i :: 0 <= i < |v.keys| ==>
                    z.keys[i] == v.keys[i].(accountID :=
                      if v.keys[i].accountID in wanted then "" else v.keys[i].accountID))
    ensures (forall a :: a in b.view.accounts ==> a.config.id !in wanted) ==> AccountsRemoved(b, wanted) == b
  {
    FilteredAre(b.view.accounts, (a: AccountState) => a.config.id !in wanted);
    FilteredAre(b.view.providers, (p: ProviderState) => p.accountID !in wanted);
    SomeObituary(b.view.accounts, wanted);
    hide Filtered, Obituaries, Truncated;
  }

  lemma {:induction false} SomeObituary(accounts: seq<AccountState>, wanted: set<string>)
    ensures Obituaries(accounts, wanted) == [] <==> forall a :: a in accounts ==> a.config.id !in wanted
  {
    if accounts != [] {
      var init, last := accounts[..|accounts| - 1], accounts[|accounts| - 1];
      SomeObituary(init, wanted);
      assert forall a :: a in accounts <==> a in init || a == last;
    }
  }

  /** Removing groups: exactly the other groups stay, and exactly the accounts of other groups; a key of a removed
      group is in no group afterwards, and a key bound to an account that went is bound to none. */
  lemma GroupsGo(b: Books, wanted: set<string>)
    requires NamedAccounts(b.view.accounts) && forall a :: a in b.view.accounts ==> !Blank(a.config.id)
    ensures var v, z := b.view, GroupsRemoved(b, wanted).view;
            && (forall g :: g in z.groups <==> g in v.groups && g.id !in wanted)
            && (forall a :: a in z.accounts <==> a in v.accounts && a.config.groupID !in wanted)
            && |z.keys| == |v.keys|
            && forall i :: 0 <= i < |v.keys| ==>
                 && z.keys[i].groupID == (if v.keys[i].groupID in wanted then "" else v.keys[i].groupID)
                 && (z.keys[i].accountID == v.keys[i].accountID || z.keys[i].accountID == "")
                 && (forall a :: a in v.accounts && a.config.id == v.keys[i].accountID ==>
                       (z.keys[i].accountID == "" <==> a.config.groupID in wanted))
  {
    var v, gone := b.view, Wanted(MembersOf(b.view.accounts, wanted));
    MembersAre(v.accounts, wanted);
    FilteredAre(v.groups, (g: GroupState) => g.id !in wanted);
    AccountsGo(b, gone);
    OneOwner(v.accounts);
    assert forall a :: a in v.accounts ==> (a.config.id in gone <==> a.config.groupID in wanted);
    hide Filtered, AccountsRemoved, MembersOf, NamedAccounts, Blank;
  }

  lemma OneOwner(accounts: seq<AccountState>)
    requires NamedAccounts(accounts)
    ensures forall a, c :: a in accounts && c in accounts && a.config.id == c.config.id ==> a == c
    ensures forall a :: a in accounts ==> a.config.id != ""
  {
  }
}
