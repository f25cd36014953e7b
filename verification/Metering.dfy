/** Accounting for finished requests (internal/gateway/chat.go): every request is counted on its gateway key and
    on the account that the key is bound to, and billed there. */
module Metering {
  import opened Accounts

  /** The gateway's own count, and what the upstream claims. */
  datatype Usage = Usage(prompt: nat, completion: nat, upstream: int)

  function TotalTokens(u: Usage): nat {
    u.prompt + u.completion
  }

  /** What keys and accounts count alike. */
  datatype Counts = Counts(
    requests: nat, success: nat, failure: nat, prompt: nat, completion: nat, total: nat, upstream: int)

  function Counted(c: Counts, ok: bool, u: Usage): Counts {
    Counts(
      c.requests + 1, c.success + (if ok then 1 else 0), c.failure + (if ok then 0 else 1),
      c.prompt + u.prompt, c.completion + u.completion, c.total + TotalTokens(u), c.upstream + u.upstream)
  }

  datatype KeyStats = KeyStats(counts: Counts, cost: Money)

  /** What a request costs its account: nothing unless it succeeded. */
  function BilledFor(a: AccountState, ok: bool, u: Usage): Money {
    var due := CostFor(a.config.billing, TotalTokens(u), 1);
    if ok && due > 0.0 then due else 0.0
  }

  function Booked(k: KeyStats, ok: bool, u: Usage, billed: Money): KeyStats {
    KeyStats(Counted(k.counts, ok, u), if billed > 0.0 then Round6(k.cost + billed) else k.cost)
  }

  /** The account after the request, suspended when it is exhausted. */
  function Metered(a: AccountState, ok: bool, u: Usage): AccountState {
    var counted := a.(tokens := a.tokens + TotalTokens(u));
    if ok then SuspendedIfExhausted(Charged(counted, TotalTokens(u), 1)) else counted
  }

  class Counters {
    var requests: nat
    var success: nat
    var failure: nat
    var prompt: nat
    var completion: nat
    var total: nat
    var upstream: int

    function State(): Counts
      reads this
    {
      Counts(requests, success, failure, prompt, completion, total, upstream)
    }

    method Count(ok: bool, u: Usage)
      modifies this
      ensures State() == Counted(old(State()), ok, u)
    {
      requests := requests + 1;
      if ok {
        success := success + 1;
      } else {
        failure := failure + 1;
      }
      prompt, completion, total := prompt + u.prompt, completion + u.completion, total + TotalTokens(u);
      upstream := upstream + u.upstream;
    }
  }

  /** An account with its counters; `tokens` of the account is their total. */
  class Payer {
    const account: Account
    const counters: Counters

    constructor (account: Account, counters: Counters)
      ensures this.account == account && this.counters == counters
    {
      this.account, this.counters := account, counters;
    }
  }

  class Key {
    const counters: Counters
    var cost: Money

    constructor (counters: Counters, cost: Money)
      ensures this.counters == counters && this.cost == cost
    {
      this.counters, this.cost := counters, cost;
    }

    function Stats(): KeyStats
      reads this, counters
    {
      KeyStats(counters.State(), cost)
    }

    /** Counts a request on the key and on the account it is bound to, if there is one, and bills it there. */
    method RecordUsage(payer: Payer?, ok: bool, u: Usage)
      requires payer != null ==> payer.counters != counters
      modifies this, counters, if payer == null then {} else {payer.account, payer.counters}
      ensures Stats() ==
              Booked(old(Stats()), ok, u, if payer == null then 0.0 else BilledFor(old(payer.account.State()), ok, u))
      ensures payer != null ==>
                && payer.account.State() == Metered(old(payer.account.State()), ok, u)
                && payer.counters.State() == Counted(old(payer.counters.State()), ok, u)
    {
      hide CostFor, Round6, BalanceFloor, Counted;
      counters.Count(ok, u);
      if payer == null {
        return;
      }
      payer.counters.Count(ok, u);
      var billed := Meter(payer.account, ok, u);
      if billed > 0.0 {
        cost := Round6(cost + billed);
      }
    }
  }

  /** Adds the tokens of a request to an account, bills it and suspends the account at its floor. */
  method Meter(account: Account, ok: bool, u: Usage) returns (billed: Money)
    modifies account
    ensures account.State() == Metered(old(account.State()), ok, u)
    ensures billed == BilledFor(old(account.State()), ok, u)
  {
    hide CostFor, Round6, BalanceFloor;
    account.tokens := account.tokens + TotalTokens(u);
    if !ok {
      return 0.0;
    }
    billed := account.Charge(TotalTokens(u), 1);
    if account.config.autoSuspend && Exhausted(account.State()) && !account.suspended {
      var changed := account.Suspend("local balance at the floor");
    }
  }

  // ---------------------------------------------------------------------------------------------
  // Keys of one account
  // ---------------------------------------------------------------------------------------------

  datatype Entry = Entry(key: nat, ok: bool, usage: Usage)

  /** An account, its counters and the keys bound to it. */
  datatype Ledger = Ledger(keys: seq<KeyStats>, account: AccountState, counts: Counts)

  function Recorded(l: Ledger, e: Entry): Ledger {
    if e.key >= |l.keys| then l
    else
      Ledger(
        l.keys[e.key := Booked(l.keys[e.key], e.ok, e.usage, BilledFor(l.account, e.ok, e.usage))],
        Metered(l.account, e.ok, e.usage), Counted(l.counts, e.ok, e.usage))
  }

  function AllRecorded(l: Ledger, entries: seq<Entry>): Ledger {
    if entries == [] then l else Recorded(AllRecorded(l, entries[..|entries| - 1]), entries[|entries| - 1])
  }

  const NOTHING := Counts(0, 0, 0, 0, 0, 0, 0)

  function Plus(a: Counts, b: Counts): Counts {
    Counts(
      a.requests + b.requests, a.success + b.success, a.failure + b.failure, a.prompt + b.prompt,
      a.completion + b.completion, a.total + b.total, a.upstream + b.upstream)
  }

  function KeyCounts(keys: seq<KeyStats>): Counts {
    if keys == [] then NOTHING else Plus(KeyCounts(keys[..|keys| - 1]), keys[|keys| - 1].counts)
  }

  function KeyCosts(keys: seq<KeyStats>): Money {
    if keys == [] then 0.0 else KeyCosts(keys[..|keys| - 1]) + keys[|keys| - 1].cost
  }

  /** Costs are whole micro-dollars, as rounding leaves them. */
  predicate WholeCosts(l: Ledger) {
    && OnGrid(l.account.cost) && l.account.cost >= 0.0
    && forall i :: 0 <= i < |l.keys| ==> OnGrid(l.keys[i].cost) && l.keys[i].cost >= 0.0
  }

  lemma {:induction false} SumsAfterUpdate(keys: seq<KeyStats>, i: nat, k: KeyStats)
    requires i < |keys|
    ensures Plus(KeyCounts(keys[i := k]), keys[i].counts) == Plus(KeyCounts(keys), k.counts)
    ensures KeyCosts(keys[i := k]) == KeyCosts(keys) - keys[i].cost + k.cost
  {
    var n := |keys| - 1;
    if i == n {
      assert keys[i := k][..n] == keys[..n];
    } else {
      SumsAfterUpdate(keys[..n], i, k);
      assert keys[i := k][..n] == keys[..n][i := k];
    }
  }

  /** Whole amounts pass through the rounding. */
  lemma RoundedOnTop(whole: Money, amount: Money)
    requires OnGrid(whole) && whole >= 0.0 && amount >= 0.0
    ensures Round6(whole + amount) == whole + Round6(amount)
    ensures OnGrid(Round6(whole + amount)) && Round6(whole + amount) >= 0.0
  {
    assert (whole + amount + 0.5).Floor == whole.Floor + (amount + 0.5).Floor;
  }

  lemma CostsMoveTogether(l: Ledger, e: Entry)
    requires WholeCosts(l) && e.key < |l.keys|
    ensures WholeCosts(Recorded(l, e))
    ensures Recorded(l, e).account.cost - l.account.cost == Recorded(l, e).keys[e.key].cost - l.keys[e.key].cost
    ensures Recorded(l, e).account.tokens - l.account.tokens == Recorded(l, e).counts.total - l.counts.total
    ensures Plus(Recorded(l, e).counts, l.keys[e.key].counts) == Plus(l.counts, Recorded(l, e).keys[e.key].counts)
  {
    var billed := BilledFor(l.account, e.ok, e.usage);
    if billed > 0.0 {
      RoundedOnTop(l.account.cost, billed);
      RoundedOnTop(l.keys[e.key].cost, billed);
    }
    hide CostFor, Round6, Exhausted, HasManualBalance, OnGrid;
  }

  /** Whatever requests are recorded on the keys of an account, its counters and its cost grow by exactly what
      the keys' counters and costs add up to, and its metered tokens by their total. */
  lemma {:induction false} KeysAddUp(l: Ledger, entries: seq<Entry>)
    requires WholeCosts(l)
    ensures var after := AllRecorded(l, entries);
            && WholeCosts(after) && |after.keys| == |l.keys|
            && Plus(after.counts, KeyCounts(l.keys)) == Plus(l.counts, KeyCounts(after.keys))
            && after.account.tokens - l.account.tokens == after.counts.total - l.counts.total
            && after.account.cost - l.account.cost == KeyCosts(after.keys) - KeyCosts(l.keys)
  {
    hide Booked, Metered, WholeCosts, BilledFor, Counted;
    if entries != [] {
      var e := entries[|entries| - 1];
      var before := AllRecorded(l, entries[..|entries| - 1]);
      KeysAddUp(l, entries[..|entries| - 1]);
      if e.key < |before.keys| {
        CostsMoveTogether(before, e);
        SumsAfterUpdate(before.keys, e.key, Recorded(before, e).keys[e.key]);
      }
    }
  }
}
