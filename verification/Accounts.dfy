/** Upstream accounts (internal/store/account.go): local billing, the balance floor, suspension, and
    the balance refreshes of internal/accounts/manager.go. */
module Accounts {
  /** Micro-dollars.  Prices are arbitrary; charged amounts are rounded to whole micro-dollars. */
  type Money = real

  /** Half away from zero. */
  function Round6(x: Money): Money {
    if x >= 0.0 then (x + 0.5).Floor as real else -((0.5 - x).Floor as real)
  }

  predicate OnGrid(x: Money) {
    x == x.Floor as real
  }

  const MIN_BALANCE_FLOOR: Money := 500_000.0
  const RESERVE_TOKENS_PER_CALL := 4000

  lemma WholeIsOnGrid(n: int)
    ensures OnGrid(n as real)
  {
  }

  /** Rounding gives the nearest whole number of micro-dollars; halves move away from zero. */
  lemma Round6IsNearest(x: Money)
    ensures OnGrid(Round6(x))
    ensures x >= 0.0 ==> x - 0.5 < Round6(x) <= x + 0.5
    ensures x < 0.0 ==> x - 0.5 <= Round6(x) < x + 0.5
  {
    var up := (if x >= 0.0 then x + 0.5 else 0.5 - x).Floor;
    if x >= 0.0 {
      WholeIsOnGrid(up);
    } else {
      WholeIsOnGrid(-up);
    }
  }

  datatype Billing = NoBilling | PerMToken(price: Money) | PerCall(price: Money)

  /** What never changes after an account is created. */
  datatype Config = Config(
    id: string, groupID: string, createdAt: int,
    billing: Billing, manualBalance: bool, queryable: bool, autoSuspend: bool, minBalance: Money)

  /** An account: its configuration and the fields that billing, refreshes and administration change.
      `checked` says that a balance has been recorded, `checkFailed` that the last query failed;
      `tokens` is the metered total. */
  datatype AccountState = AccountState(
    config: Config, enabled: bool, suspended: bool, balance: Money, usedAmount: Money, cost: Money,
    checked: bool, checkFailed: bool, tokens: nat)

  predicate HasManualBalance(c: Config) {
    c.manualBalance && c.billing != NoBilling
  }

  /** Billed from a balance that only the gateway keeps. */
  predicate ManualOnly(c: Config) {
    HasManualBalance(c) && !c.queryable
  }

  predicate Unlimited(c: Config) {
    !c.queryable && !HasManualBalance(c)
  }

  function EstimatedCallCost(billing: Billing): Money {
    match billing
    case NoBilling => 0.0
    case PerMToken(price) => price * RESERVE_TOKENS_PER_CALL as real / 1000000.0
    case PerCall(price) => price
  }

  function CostFor(billing: Billing, tokens: int, calls: int): Money {
    match billing
    case NoBilling => 0.0
    case PerMToken(price) => if tokens <= 0 then 0.0 else price * tokens as real / 1000000.0
    case PerCall(price) => if calls <= 0 then 0.0 else price * calls as real
  }

  /** A million tokens cost their price and a call costs its own; parts of a usage cost what the whole does. */
  lemma CostIsLinear(price: Money, m: int, n: int, other: int)
    ensures CostFor(PerMToken(price), 1_000_000, other) == price == CostFor(PerCall(price), other, 1)
    ensures CostFor(PerMToken(price), m, other) == (if m > 0 then CostFor(PerMToken(price), m, 0) else 0.0)
    ensures CostFor(PerCall(price), other, m) == (if m > 0 then CostFor(PerCall(price), 0, m) else 0.0)
    ensures CostFor(NoBilling, m, n) == 0.0
    ensures m >= 0 && n >= 0 ==>
        && CostFor(PerMToken(price), m + n, other) ==
           CostFor(PerMToken(price), m, other) + CostFor(PerMToken(price), n, other)
        && CostFor(PerCall(price), other, m + n) ==
           CostFor(PerCall(price), other, m) + CostFor(PerCall(price), other, n)
  {
    if m >= 0 && n >= 0 {
      Distributes(price, m, n);
      assert price * m as real / 1000000.0 + price * n as real / 1000000.0
          == (price * m as real + price * n as real) / 1000000.0;
    }
  }

  lemma Distributes(x: real, m: int, n: int)
    ensures x * (m + n) as real == x * m as real + x * n as real
  {
    assert (m + n) as real == m as real + n as real;
  }

  function BalanceFloor(c: Config): Money {
    var least := if ManualOnly(c) then EstimatedCallCost(c.billing) else MIN_BALANCE_FLOOR;
    if c.minBalance > least then c.minBalance else least
  }

  /** The least balance: the configured one, but never less than half a dollar, or than the price of one call
      or of four thousand tokens where only the gateway keeps the balance. */
  lemma FloorIs(c: Config)
    ensures var reserve :=
              if !c.manualBalance || c.billing == NoBilling || c.queryable then 500_000.0
              else if c.billing.PerCall? then c.billing.price
              else c.billing.price / 250.0;
            && BalanceFloor(c) >= c.minBalance && BalanceFloor(c) >= reserve
            && (BalanceFloor(c) == c.minBalance || BalanceFloor(c) == reserve)
  {
    match c.billing
    case PerMToken(price) =>
      assert price * RESERVE_TOKENS_PER_CALL as real / 1000000.0 == price / 250.0;
    case _ =>
  }

  predicate Exhausted(a: AccountState) {
    if Unlimited(a.config) then false
    else if ManualOnly(a.config) then a.balance <= BalanceFloor(a.config)
    else a.checked && !a.checkFailed && a.balance <= BalanceFloor(a.config)
  }

  /** An account may take traffic exactly when it is enabled, not suspended and not exhausted. */
  predicate Usable(a: AccountState)
    ensures Usable(a) <==> a.enabled && !a.suspended && !Exhausted(a)
  {
    if !a.enabled || a.suspended then false
    else if Unlimited(a.config) then true
    else if ManualOnly(a.config) then a.balance > BalanceFloor(a.config)
    else if !a.checked || a.checkFailed then true
    else a.balance > BalanceFloor(a.config)
  }

  /** The same in fields: a queried balance counts once it has been answered, a balance that the gateway
      keeps always, and an account with neither has no end. */
  lemma UsableIff(a: AccountState)
    ensures var c := a.config;
            Usable(a) <==>
              && a.enabled && !a.suspended
              && (if c.queryable then !a.checked || a.checkFailed || a.balance > BalanceFloor(c)
                  else !c.manualBalance || c.billing == NoBilling || a.balance > BalanceFloor(c))
  {
    hide BalanceFloor;
  }

  // ---------------------------------------------------------------------------------------------
  // Steps
  // ---------------------------------------------------------------------------------------------

  /** Bills one request. */
  function Charged(a: AccountState, tokens: int, calls: int): AccountState {
    var cost := CostFor(a.config.billing, tokens, calls);
    if cost <= 0.0 then a
    else
      var billed := a.(cost := Round6(a.cost + cost));
      if !HasManualBalance(a.config) then billed
      else
        var left := Round6(a.balance - cost);
        billed.(balance := if left < 0.0 then 0.0 else left,
                usedAmount := Round6(a.usedAmount + cost),
                checked := true, checkFailed := false)
  }

  function SuspendedNow(a: AccountState): AccountState {
    a.(suspended := true)
  }

  function Resumed(a: AccountState): AccountState {
    a.(suspended := false, enabled := true)
  }

  /** What the sweep, a local refresh and the end of a billed request do. */
  function SuspendedIfExhausted(a: AccountState): AccountState {
    if a.config.autoSuspend && Exhausted(a) then SuspendedNow(a) else a
  }

  /** The answer to a balance query; a script may leave fields out. */
  datatype Snapshot = Failed | Answer(balance: Money, usedAmount: Money, hasBalance: bool, hasUsed: bool, script: bool)

  /** Writes a balance query back. */
  function Applied(a: AccountState, s: Snapshot): AccountState {
    match s
    case Failed => a.(checked := true, checkFailed := true)
    case Answer(balance, used, hasBalance, hasUsed, script) =>
      var answered := a.(
        checked := true, checkFailed := false,
        balance := if hasBalance || !script then balance else a.balance,
        usedAmount := if hasUsed || !script then used else a.usedAmount);
      var settled := SuspendedIfExhausted(answered);
      if settled.suspended && !Exhausted(answered) && answered.balance > BalanceFloor(a.config) then Resumed(settled)
        else settled
  }

  /** What a query reports besides the two amounts. */
  datatype Report = Report(
    total: Money, hasTotal: bool, plan: string, currency: string, quotaPerUnit: Money, extra: string, source: string)

  /** What is kept of it. */
  datatype Details = Details(
    total: Money, plan: string, currency: string, quotaPerUnit: Money, extra: string, source: string)

  /** Currency and unit are taken from failed queries too; whatever an answer leaves out stays. */
  function Detailed(d: Details, s: Snapshot, r: Report): Details {
    var noted := d.(
      currency := if r.currency != "" then r.currency else d.currency,
      quotaPerUnit := if r.quotaPerUnit > 0.0 then r.quotaPerUnit else d.quotaPerUnit);
    if s.Failed? then noted
    else
      noted.(
        total := if r.hasTotal || !s.script then r.total else d.total,
        plan := if r.plan != "" then r.plan else d.plan,
        extra := r.extra, source := r.source)
  }

  /** A refresh: accounts that cannot be queried only look at their local balance. */
  function Refreshed(a: AccountState, s: Snapshot): AccountState {
    if a.config.queryable then Applied(a, s)
    else if HasManualBalance(a.config) then SuspendedIfExhausted(a)
    else a
  }

  function Administered(a: AccountState, enable: bool): AccountState {
    if enable then Resumed(a) else SuspendedNow(a.(enabled := false))
  }

  class Account {
    const config: Config
    var enabled: bool
    var suspended: bool
    var suspendReason: string
    var balance: Money
    var usedAmount: Money
    var cost: Money
    var checked: bool
    var checkFailed: bool
    var tokens: nat
    var details: Details

    function State(): AccountState
      reads this
    {
      AccountState(config, enabled, suspended, balance, usedAmount, cost, checked, checkFailed, tokens)
    }

    constructor (a: AccountState)
      ensures State() == a && details == Details(a.balance, "", "USD", 0.0, "", "")
    {
      config := a.config;
      enabled, suspended, suspendReason := a.enabled, a.suspended, "";
      balance, usedAmount, cost := a.balance, a.usedAmount, a.cost;
      checked, checkFailed, tokens := a.checked, a.checkFailed, a.tokens;
      details := Details(a.balance, "", "USD", 0.0, "", "");
    }

    method Charge(tokens: int, calls: int) returns (charged: Money)
      modifies this
      ensures State() == Charged(old(State()), tokens, calls)
      ensures charged == var due := CostFor(config.billing, tokens, calls); if due <= 0.0 then 0.0 else due
      ensures cost == if charged > 0.0 then Round6(old(cost) + charged) else old(cost)
      ensures charged > 0.0 && HasManualBalance(config) ==>
          && balance == (var left := Round6(old(balance) - charged); if left < 0.0 then 0.0 else left)
          && usedAmount == Round6(old(usedAmount) + charged) && checked && !checkFailed
      ensures charged == 0.0 || !HasManualBalance(config) ==>
          balance == old(balance) && usedAmount == old(usedAmount) &&
          checked == old(checked) && checkFailed == old(checkFailed)
      ensures enabled == old(enabled) && suspended == old(suspended) && this.tokens == old(this.tokens)
    {
      hide CostFor, Round6;
      charged := CostFor(config.billing, tokens, calls);
      if charged <= 0.0 {
        return 0.0;
      }
      cost := Round6(cost + charged);
      if !HasManualBalance(config) {
        return;
      }
      balance := Round6(balance - charged);
      if balance < 0.0 {
        balance := 0.0;
      }
      usedAmount := Round6(usedAmount + charged);
      checked, checkFailed := true, false;
    }

    method Suspend(reason: string) returns (changed: bool)
      modifies this`suspended, this`suspendReason
      ensures State() == SuspendedNow(old(State())) && suspended && changed == !old(suspended)
      ensures suspendReason == if changed then reason else old(suspendReason)
    {
      if suspended {
        return false;
      }
      suspended := true;
      suspendReason := reason;
      return true;
    }

    method Resume()
      modifies this`suspended, this`suspendReason, this`enabled
      ensures State() == Resumed(old(State())) && enabled && !suspended && suspendReason == ""
    {
      suspended := false;
      suspendReason := "";
      enabled := true;
    }

    /** Writes everything but the amounts back. */
    method Note(s: Snapshot, r: Report)
      modifies this`details
      ensures details == Detailed(old(details), s, r)
      ensures details.total == if s.Answer? && (r.hasTotal || !s.script) then r.total else old(details.total)
    {
      if r.quotaPerUnit > 0.0 {
        details := details.(quotaPerUnit := r.quotaPerUnit);
      }
      if r.currency != "" {
        details := details.(currency := r.currency);
      }
      if s.Failed? {
        return;
      }
      if r.hasTotal || !s.script {
        details := details.(total := r.total);
      }
      if r.plan != "" {
        details := details.(plan := r.plan);
      }
      details := details.(extra := r.extra, source := r.source);
    }

    /** Writes the answer of a balance query back; says whether the account ends up exhausted or suspended. */
    method Apply(s: Snapshot, r: Report) returns (isExhausted: bool, isSuspended: bool)
      requires s.Answer? ==> (s.script <==> r.source == "script")
      modifies this
      ensures State() == Applied(old(State()), s) && details == Detailed(old(details), s, r)
      ensures s.Failed? ==> !isExhausted && !isSuspended && checkFailed
      ensures s.Failed? ==> balance == old(balance) && usedAmount == old(usedAmount) && suspended == old(suspended)
      ensures s.Answer? ==> isExhausted == Exhausted(State()) && isSuspended == suspended && checked && !checkFailed
      ensures s.Answer? ==> balance == if s.hasBalance || !s.script then s.balance else old(balance)
      ensures s.Answer? ==> usedAmount == if s.hasUsed || !s.script then s.usedAmount else old(usedAmount)
      ensures details.total == if s.Answer? && (r.hasTotal || !s.script) then r.total else old(details.total)
    {
      hide BalanceFloor, Detailed;
      checked := true;
      Note(s, r);
      if s.Failed? {
        checkFailed := true;
        return false, false;
      }
      checkFailed := false;
      if s.hasBalance || !s.script {
        balance := s.balance;
      }
      if s.hasUsed || !s.script {
        usedAmount := s.usedAmount;
      }
      isExhausted := Exhausted(State());
      isSuspended := false;
      if isExhausted && config.autoSuspend {
        isSuspended := Suspend("balance at the floor");
      }
      if suspended && !isExhausted && balance > BalanceFloor(config) {
        Resume();
        isSuspended := false;
      }
      if suspended {
        isSuspended := true;
      }
    }

    /** Suspends an exhausted account that asks for it, unless it is suspended already. */
    method SuspendAtFloor() returns (changed: bool)
      modifies this`suspended, this`suspendReason
      ensures State() == SuspendedIfExhausted(old(State())) && (changed <==> State() != old(State()))
    {
      hide BalanceFloor;
      if !config.autoSuspend || suspended || !Exhausted(State()) {
        return false;
      }
      changed := Suspend("balance at the floor");
    }

    /** A refresh of a manual balance looks at the local numbers. */
    method RefreshLocally() returns (isExhausted: bool, isSuspended: bool)
      requires HasManualBalance(config)
      modifies this
      ensures State() == SuspendedIfExhausted(old(State()))
      ensures isExhausted == Exhausted(State()) && isSuspended == suspended
    {
      isExhausted := Exhausted(State());
      isSuspended := suspended;
      if isExhausted && config.autoSuspend {
        var changed := Suspend("balance at the floor");
        isSuspended := true;
      }
    }

    method Administer(enable: bool)
      modifies this
      ensures State() == Administered(old(State()), enable)
      ensures enabled == enable && suspended == !enable
      ensures balance == old(balance) && usedAmount == old(usedAmount) && cost == old(cost)
    {
      if enable {
        Resume();
        return;
      }
      enabled := false;
      var changed := Suspend("paused by the administrator");
    }
  }

  function AccountStates(accounts: seq<Account>): (states: seq<AccountState>)
    reads accounts
    ensures |states| == |accounts|
  {
    seq(|accounts|, i requires 0 <= i < |accounts| reads accounts => accounts[i].State())
  }

  /** The accounts that a sweep suspends, by their positions. */
  function Swept(states: seq<AccountState>): (ks: seq<nat>)
    ensures forall k: nat :: k in ks <==> k < |states| && SuspendedIfExhausted(states[k]) != states[k]
  {
    if states == [] then []
    else
      var last := |states| - 1;
      assert forall k :: 0 <= k < last ==> states[..last][k] == states[k];
      Swept(states[..last]) + if SuspendedIfExhausted(states[last]) != states[last] then [last] else []
  }

  lemma OneMoreSwept(states: seq<AccountState>, i: nat)
    requires i < |states|
    ensures Swept(states[..i + 1]) ==
            Swept(states[..i]) + if SuspendedIfExhausted(states[i]) != states[i] then [i] else []
  {
    assert states[..i + 1][..i] == states[..i];
  }

  /** Suspends every exhausted account and says which were not suspended before. */
  method SweepExhausted(accounts: seq<Account>) returns (swept: seq<nat>)
    requires forall i, j :: 0 <= i < j < |accounts| ==> accounts[i] != accounts[j]
    modifies accounts
    ensures forall i :: 0 <= i < |accounts| ==> accounts[i].State() == SuspendedIfExhausted(old(accounts[i].State()))
    ensures swept == Swept(old(AccountStates(accounts)))
  {
    ghost var before := AccountStates(accounts);
    assert Swept([]) == [] && before[..0] == [];
    assert forall j :: 0 <= j < |accounts| ==> before[j] == accounts[j].State();
    hide SuspendedIfExhausted, Swept, AccountStates;
    swept := [];
    for i := 0 to |accounts|
      invariant forall j :: 0 <= j < i ==> accounts[j].State() == SuspendedIfExhausted(before[j])
      invariant forall j :: i <= j < |accounts| ==> accounts[j].State() == before[j]
      invariant swept == Swept(before[..i])
    {
      var account := accounts[i];
      OneMoreSwept(before, i);
      var changed := account.SuspendAtFloor();
      if changed {
        swept := swept + [i];
      }
    }
    assert before[..|accounts|] == before;
  }

  // ---------------------------------------------------------------------------------------------
  // Runs
  // ---------------------------------------------------------------------------------------------

  datatype Action = Bill(tokens: int, calls: int) | Sweep | Refresh(answer: Snapshot) | Admin(enable: bool)

  function Stepped(a: AccountState, action: Action): AccountState {
    match action
    case Bill(tokens, calls) => Charged(a, tokens, calls)
    case Sweep => SuspendedIfExhausted(a)
    case Refresh(answer) => Refreshed(a, answer)
    case Admin(enable) => Administered(a, enable)
  }

  function Run(a: AccountState, actions: seq<Action>): AccountState {
    if actions == [] then a else Stepped(Run(a, actions[..|actions| - 1]), actions[|actions| - 1])
  }

  /** Balance plus used amount. */
  function Total(a: AccountState): Money {
    a.balance + a.usedAmount
  }

  /** A manual balance that has been kept on the micro-dollar grid. */
  predicate SoundBooks(a: AccountState) {
    && ManualOnly(a.config)
    && OnGrid(a.balance) && OnGrid(a.usedAmount)
    && a.balance >= 0.0 && a.usedAmount >= 0.0
  }

  /** The amount of an action that bills, zero for the others. */
  function Due(a: AccountState, action: Action): Money {
    if action.Bill? && CostFor(a.config.billing, action.tokens, action.calls) > 0.0
    then CostFor(a.config.billing, action.tokens, action.calls) else 0.0
  }

  /** The balance does not cover the rounded charge and is cut at zero. */
  predicate Clamps(a: AccountState, action: Action) {
    Round6(a.balance - Due(a, action)) < 0.0
  }

  /** The charge lies exactly between two micro-dollars. */
  predicate IsHalf(x: Money) {
    x - x.Floor as real == 0.5
  }

  lemma FloorShift(x: real, k: int)
    ensures (k as real + x).Floor == k + x.Floor
  {
    var f := x.Floor;
    assert f as real <= x < f as real + 1.0;
    assert (k + f) as real <= k as real + x < (k + f) as real + 1.0;
  }

  /** Taking a positive amount off a balance and adding it to the used amount, both rounded. */
  lemma RoundedTransfer(balance: int, used: int, due: Money)
    requires balance >= 0 && used >= 0 && due > 0.0
    ensures var left := Round6(balance as real - due);
            var taken := Round6(used as real + due);
            && OnGrid(left) && OnGrid(taken)
            && left <= balance as real && taken >= used as real
            && (left >= 0.0 ==> left + taken == (balance + used) as real + if IsHalf(due) then 1.0 else 0.0)
            && (left < 0.0 ==> taken > (balance + used) as real)
  {
    var f := due.Floor;
    var up := (due + 0.5).Floor;
    assert f as real <= due < f as real + 1.0;
    assert up == if due - f as real >= 0.5 then f + 1 else f;
    FloorShift(due + 0.5, used);
    assert used as real + (due + 0.5) == (used as real + due) + 0.5;
    assert Round6(used as real + due) == (used + up) as real;
    if balance as real - due >= 0.0 {
      var down := (0.5 - due).Floor;
      assert down == if due - f as real > 0.5 then -f - 1 else -f;
      FloorShift(0.5 - due, balance);
      assert balance as real + (0.5 - due) == (balance as real - due) + 0.5;
      assert Round6(balance as real - due) == (balance + down) as real;
    } else {
      FloorShift(due + 0.5, -balance);
      assert (-balance) as real + (due + 0.5) == 0.5 - (balance as real - due);
      assert Round6(balance as real - due) == (balance - up) as real;
    }
  }

  /** One step of an account with a manual balance. */
  lemma ManualStep(a: AccountState, action: Action)
    requires SoundBooks(a)
    ensures var z := Stepped(a, action);
            && SoundBooks(z) && z.config == a.config
            && z.balance <= a.balance
            && Total(a) <= Total(z)
            && (!Clamps(a, action) ==> Total(z) == Total(a) + if IsHalf(Due(a, action)) then 1.0 else 0.0)
  {
    if Due(a, action) > 0.0 {
      RoundedTransfer(a.balance.Floor, a.usedAmount.Floor, Due(a, action));
      hide CostFor;
    } else {
      assert Stepped(a, action).balance == a.balance && Stepped(a, action).usedAmount == a.usedAmount;
    }
  }

  predicate NeverClamps(a: AccountState, actions: seq<Action>) {
    forall i :: 0 <= i < |actions| ==> !Clamps(Run(a, actions[..i]), actions[i])
  }

  function Halves(a: AccountState, actions: seq<Action>): nat {
    if actions == [] then 0
    else
      var init, last := actions[..|actions| - 1], actions[|actions| - 1];
      Halves(a, init) + if IsHalf(Due(Run(a, init), last)) then 1 else 0
  }

  /** Over any run of charges, sweeps, refreshes and administration, a manual balance stays between zero
      and where it started, balance and used amount together never lose money, and until a charge is cut
      at zero they gain exactly one micro-dollar for every charge that ends on half a micro-dollar. */
  lemma {:induction false} ManualBalanceRun(a: AccountState, actions: seq<Action>)
    requires SoundBooks(a)
    ensures var z := Run(a, actions);
            && SoundBooks(z) && z.config == a.config
            && 0.0 <= z.balance <= a.balance
            && Total(a) <= Total(z)
            && (NeverClamps(a, actions) ==> Total(z) == Total(a) + Halves(a, actions) as real)
  {
    if actions != [] {
      var init, last := actions[..|actions| - 1], actions[|actions| - 1];
      ManualBalanceRun(a, init);
      ManualStep(Run(a, init), last);
      hide Stepped, Clamps, IsHalf, Due;
      if NeverClamps(a, actions) {
        forall i | 0 <= i < |init| ensures !Clamps(Run(a, init[..i]), init[i]) {
          assert init[..i] == actions[..i] && !Clamps(Run(a, actions[..i]), actions[i]);
        }
        assert !Clamps(Run(a, init), last);
      }
    }
  }

  /** A charge of half a micro-dollar is rounded up on both sides: the balance does not fall, the used amount
      rises by one. */
  lemma HalfIsMadeWhole(c: Config)
    requires ManualOnly(c) && c.billing == PerCall(0.5)
    ensures var a := AccountState(c, true, false, 10.0, 0.0, 0.0, true, false, 0);
            SoundBooks(a) && !Clamps(a, Bill(0, 1)) && Total(Stepped(a, Bill(0, 1))) == Total(a) + 1.0
  {
    assert (10.0 as real).Floor == 10 && (10.0 as real - 0.5 + 0.5).Floor == 10 && (0.5 + 0.5 as real).Floor == 1;
  }

  /** Once a manual balance is at its floor it stays there, whatever happens, and the account is never
      usable again. */
  lemma ExhaustedForGood(a: AccountState, actions: seq<Action>)
    requires SoundBooks(a) && Exhausted(a)
    ensures Exhausted(Run(a, actions)) && !Usable(Run(a, actions))
  {
    ManualBalanceRun(a, actions);
    hide Run, BalanceFloor;
  }

  /** A call billed from a usable account, priced per call on the grid, is covered by its balance. */
  lemma UsableCallIsCovered(a: AccountState, tokens: int)
    requires SoundBooks(a) && Usable(a)
    requires a.config.billing.PerCall? && a.config.billing.price > 0.0 && OnGrid(a.config.billing.price)
    ensures var z := Charged(a, tokens, 1);
            && !Clamps(a, Bill(tokens, 1))
            && z.balance == a.balance - a.config.billing.price > 0.0
            && z.usedAmount == a.usedAmount + a.config.billing.price
  {
    var price := a.config.billing.price;
    assert CostFor(a.config.billing, tokens, 1) == price;
    RoundOnGrid(a.balance, -price);
    RoundOnGrid(a.usedAmount, price);
  }

  lemma RoundOnGrid(x: Money, y: Money)
    requires OnGrid(x) && (OnGrid(y) || OnGrid(-y))
    ensures x + y >= 0.0 ==> Round6(x + y) == x + y
  {
    var n := if OnGrid(y) then x.Floor + y.Floor else x.Floor - (-y).Floor;
    assert x + y == n as real;
    FloorShift(0.5, n);
  }

  /** Every billed call is one call from a usable state. */
  predicate CallsWhenUsable(a: AccountState, actions: seq<Action>) {
    forall i :: 0 <= i < |actions| && actions[i].Bill? ==> actions[i].calls == 1 && Usable(Run(a, actions[..i]))
  }

  /** The price once for every billed call. */
  function CallFees(price: Money, actions: seq<Action>): Money {
    if actions == [] then 0.0
    else CallFees(price, actions[..|actions| - 1]) + if actions[|actions| - 1].Bill? then price else 0.0
  }

  /** Per-call billing of usable accounts conserves money to the micro-dollar and takes exactly the price
      of every call. */
  lemma {:induction false} PerCallConservation(a: AccountState, actions: seq<Action>)
    requires SoundBooks(a) && CallsWhenUsable(a, actions)
    requires a.config.billing.PerCall? && a.config.billing.price > 0.0 && OnGrid(a.config.billing.price)
    ensures var z := Run(a, actions);
            && Total(z) == Total(a)
            && z.balance == a.balance - CallFees(a.config.billing.price, actions)
  {
    hide Stepped, Usable, CostFor, BalanceFloor, SoundBooks;
    if actions != [] {
      var init, last := actions[..|actions| - 1], actions[|actions| - 1];
      forall i | 0 <= i < |init| && init[i].Bill? ensures init[i].calls == 1 && Usable(Run(a, init[..i])) {
        assert init[..i] == actions[..i] && init[i] == actions[i];
      }
      PerCallConservation(a, init);
      ManualBalanceRun(a, init);
      PerCallStep(Run(a, init), last);
    }
  }

  lemma PerCallStep(a: AccountState, action: Action)
    requires SoundBooks(a) && (action.Bill? ==> action.calls == 1 && Usable(a))
    requires a.config.billing.PerCall? && a.config.billing.price > 0.0 && OnGrid(a.config.billing.price)
    ensures var z := Stepped(a, action);
            && Total(z) == Total(a)
            && z.balance == a.balance - if action.Bill? then a.config.billing.price else 0.0
  {
    if action.Bill? {
      UsableCallIsCovered(a, action.tokens);
      hide Charged, Usable;
    } else {
      MoneyUntouched(a, action);
      hide Stepped, Usable;
    }
  }

  lemma MoneyUntouched(a: AccountState, action: Action)
    requires ManualOnly(a.config) && !action.Bill?
    ensures Stepped(a, action).balance == a.balance && Stepped(a, action).usedAmount == a.usedAmount
  {
    hide BalanceFloor;
  }

  /** The balance the upstream answered; only a script may leave it out, and then the recorded one stays. */
  function AnsweredBalance(a: AccountState, s: Snapshot): Money
    requires s.Answer?
  {
    if s.hasBalance || !s.script then s.balance else a.balance
  }

  /** An answered query takes the answered amounts over; a failed query, and a refresh of an account that
      cannot be queried, leave both amounts alone.  No refresh changes what has been billed. */
  lemma RefreshedTakesOver(a: AccountState, s: Snapshot)
    ensures var z := Refreshed(a, s);
            && z.config == a.config && z.cost == a.cost && z.tokens == a.tokens
            && (a.config.queryable ==> z.checked && (z.checkFailed <==> s.Failed?))
            && (a.config.queryable && s.Answer? ==>
                  && z.balance == (if s.hasBalance || !s.script then s.balance else a.balance)
                  && z.usedAmount == (if s.hasUsed || !s.script then s.usedAmount else a.usedAmount))
            && (!a.config.queryable || s.Failed? ==> z.balance == a.balance && z.usedAmount == a.usedAmount)
            && (!a.config.queryable ==> z.checked == a.checked && z.checkFailed == a.checkFailed)
  {
    hide BalanceFloor;
  }

  /** Besides the amounts, whatever an answer leaves out stays; currency and unit are taken from failed queries too. */
  lemma LeftOutStays(d: Details, s: Snapshot, r: Report)
    ensures var z := Detailed(d, s, r);
            && z.currency == (if r.currency == "" then d.currency else r.currency)
            && z.quotaPerUnit == (if r.quotaPerUnit > 0.0 then r.quotaPerUnit else d.quotaPerUnit)
            && (s.Failed? ==> z.total == d.total && z.plan == d.plan && z.extra == d.extra && z.source == d.source)
            && (s.Answer? ==>
                  && z.total == (if s.script && !r.hasTotal then d.total else r.total)
                  && z.plan == (if r.plan == "" then d.plan else r.plan) && z.extra == r.extra && z.source == r.source)
  {
  }

  /** What a balance query does to an account that can be queried.  A failed query moves neither money nor
      state; an answered one leaves an account that suspends itself suspended exactly when its balance is at
      the floor, and enables it again when the balance is above. */
  lemma QuerySettles(a: AccountState, s: Snapshot)
    requires a.config.queryable
    ensures var z := Refreshed(a, s);
            && (s.Failed? ==>
                  z == a.(checked := true, checkFailed := true) && (Usable(z) <==> z.enabled && !z.suspended))
            && (s.Answer? ==>
                  var answered, least := AnsweredBalance(a, s), BalanceFloor(a.config);
                  && z.balance == answered
                  && (z.suspended <==> answered <= least && (a.config.autoSuspend || a.suspended))
                  && (z.enabled <==> a.enabled || (a.suspended && answered > least))
                  && (Usable(z) <==> (a.enabled || a.suspended) && answered > least))
  {
    hide BalanceFloor;
  }

  /** What keeps the verdict of the last answered query. */
  predicate KeepsVerdict(action: Action) {
    action.Bill? || action.Sweep? || (action.Refresh? && action.answer.Failed?)
  }

  /** Between answered queries and without administration, the verdict of the last answer stands: billing,
      sweeps and failed queries change neither balance nor suspension. */
  lemma {:induction false} VerdictStands(a: AccountState, s: Snapshot, actions: seq<Action>)
    requires a.config.queryable && a.config.autoSuspend && !HasManualBalance(a.config) && s.Answer?
    requires forall i :: 0 <= i < |actions| ==> KeepsVerdict(actions[i])
    ensures var z, settled := Run(Refreshed(a, s), actions), Refreshed(a, s);
            && z.config == a.config
            && z.balance == AnsweredBalance(a, s) && z.enabled == settled.enabled
            && (z.suspended <==> AnsweredBalance(a, s) <= BalanceFloor(a.config))
  {
    hide BalanceFloor, CostFor, Round6;
    if actions == [] {
      QuerySettles(a, s);
    } else {
      VerdictStands(a, s, actions[..|actions| - 1]);
      assert KeepsVerdict(actions[|actions| - 1]);
    }
  }
}
