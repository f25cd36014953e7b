/** Authentication of a request and the search for its account (internal/gateway/chat.go): the key is looked up
    and judged, an account is assigned under the accounts' rate limits, a stale balance is refreshed first, and
    the account that will serve is counted against its limit.  Other requests may change the store and the
    limiter at any time; what an attempt finds is a moment of both. */
module Authentication {
  import opened Accounts
  import opened Allocation
  import opened Lists
  import L = RateLimiter
  import R = Refresh

  const MAX_ATTEMPTS := 3

  const SECOND: int := 1_000_000_000
  const DEFAULT_REFRESH_SECONDS := 60
  const MAX_REFRESH_SECONDS := 3600

  // ---------------------------------------------------------------------------------------------
  // Keys
  // ---------------------------------------------------------------------------------------------

  datatype KeyFacts = KeyFacts(enabled: bool, expiresAt: Option<int>, quota: Option<int>, used: int)

  datatype KeyStatus = ActiveKey | DisabledKey | ExpiredKey | OverQuota

  function StatusOf(f: KeyFacts, now: int): KeyStatus {
    if !f.enabled then DisabledKey
    else if f.expiresAt.Some? && f.expiresAt.value < now then ExpiredKey
    else if f.quota.Some? && f.used >= f.quota.value then OverQuota
    else ActiveKey
  }

  function KeyStateError(status: KeyStatus): Option<int> {
    match status
    case DisabledKey => Some(403)
    case ExpiredKey => Some(403)
    case OverQuota => Some(429)
    case ActiveKey => None
  }

  /** A key is refused with 403 when it is disabled or has expired, and with 429 when its quota is used up; it is good
      up to its very last moment, and until the quota is reached. */
  lemma KeyErrorsAre(f: KeyFacts, now: int)
    ensures var error := KeyStateError(StatusOf(f, now));
            var expired := f.expiresAt.Some? && now > f.expiresAt.value;
            var spent := f.quota.Some? && f.quota.value <= f.used;
            && (error == Some(403) <==> !f.enabled || expired)
            && (error == Some(429) <==> f.enabled && !expired && spent)
            && (error == None <==> f.enabled && !expired && !spent)
  {
  }

  /** Position of the key with a digest, or the number of keys. */
  function KeyAt(keys: seq<KeyState>, digest: string): (k: nat)
    ensures k <= |keys| && (k < |keys| ==> keys[k].keyHash == digest)
    ensures forall j :: 0 <= j < k ==> keys[j].keyHash != digest
  {
    if keys == [] || keys[0].keyHash == digest then 0 else 1 + KeyAt(keys[1..], digest)
  }

  // ---------------------------------------------------------------------------------------------
  // Accounts at a moment
  // ---------------------------------------------------------------------------------------------

  /** What requests need to know of an account beyond its state; `checkedAt` is when its balance was recorded. */
  datatype AccountFacts = AccountFacts(rateLimit: Option<int>, refreshOnRequest: bool, refreshSeconds: int,
    checkedAt: int)

  /** The store and the limiter at one time. */
  datatype Moment = Moment(view: View, facts: string -> AccountFacts, buckets: L.Buckets, time: int)

  function RateLimitOf(f: AccountFacts): nat {
    if f.rateLimit.Some? && f.rateLimit.value > 0 then f.rateLimit.value else 0
  }

  function RefreshInterval(f: AccountFacts): int {
    SECOND * (if f.refreshSeconds <= 0 then DEFAULT_REFRESH_SECONDS
              else if f.refreshSeconds > MAX_REFRESH_SECONDS then MAX_REFRESH_SECONDS
              else f.refreshSeconds)
  }

  predicate NeedsRequestRefresh(a: AccountState, f: AccountFacts, now: int) {
    if !f.refreshOnRequest || !a.enabled || !a.config.queryable then false
    else !a.checked || now - f.checkedAt >= RefreshInterval(f)
  }

  /** A balance is queried on a request when the account asks for it, is enabled and can be queried, and no balance
      is recorded or the last one is as old as the interval: a minute unless set, and an hour at most. */
  lemma RefreshIsDue(a: AccountState, f: AccountFacts, now: int)
    ensures var asked := f.refreshSeconds;
            var seconds := if asked < 1 then 60 else if asked < 3600 then asked else 3600;
            NeedsRequestRefresh(a, f, now) <==>
              && f.refreshOnRequest && a.enabled && a.config.queryable
              && (!a.checked || f.checkedAt + seconds * 1_000_000_000 <= now)
  {
  }

  function Bucket(id: string): string {
    "account:" + id
  }

  /** Whether the limiter would admit one more request for an account. */
  predicate HasRoom(m: Moment, id: string) {
    var limit := RateLimitOf(m.facts(id));
    limit <= 0 || L.Step(m.buckets, L.Call(Bucket(id), limit, m.time, false)).0.allowed
  }

  function GateOf(limited: bool, m: Moment): Gate {
    if limited then Gate(id => HasRoom(m, id)) else NoGate
  }

  /** The limiter after a request for an account was counted; accounts that are gone or unlimited are not. */
  function Counted(m: Moment, id: string): L.Buckets {
    var a := FindAccount(m.view.accounts, id);
    if a.None? || RateLimitOf(m.facts(id)) <= 0 then m.buckets
    else L.Step(m.buckets, L.Call(Bucket(id), RateLimitOf(m.facts(id)), m.time, true)).1
  }

  // ---------------------------------------------------------------------------------------------
  // Attempts
  // ---------------------------------------------------------------------------------------------

  /** A caller of the shared balance refresh, in one interleaving of callers and runs. */
  datatype Ask = Ask(accounts: map<string, AccountState>, actions: seq<R.Action>, caller: nat)

  function Asked(ask: Ask): R.State {
    R.Run(R.Idle(ask.accounts), ask.actions)
  }

  /** The caller asked for this account and has its answer. */
  predicate Answers(ask: Ask, id: string) {
    var s := Asked(ask);
    ask.caller < |s.callers| && s.callers[ask.caller].id == id && s.callers[ask.caller].place.Returned?
  }

  function PlaceOf(ask: Ask): R.Place {
    var s := Asked(ask);
    if ask.caller < |s.callers| then s.callers[ask.caller].place else R.Arrived
  }

  predicate SaysUsable(ask: Ask) {
    PlaceOf(ask).Returned? && PlaceOf(ask).usable
  }

  /** One attempt: what it finds, how its refresh goes if it needs one, whether the client has gone by then, and
      what it finds when it counts the request. */
  datatype Scene = Scene(found: Moment, keys: string -> KeyFacts, ask: Ask, gone: bool, later: Moment)

  datatype Setup = Setup(limited: bool, refreshes: bool)

  /** No session, one without an account because none is configured, or one with an account. */
  datatype Attempt = Refused(status: int) | Unassigned | Assigned(account: AccountState, stale: bool)

  /** What an attempt comes to, and the stored data afterwards. */
  function Attempted(setup: Setup, s: Scene, digest: string, model: string): (Attempt, View) {
    var v, k := s.found.view, KeyAt(s.found.view.keys, digest);
    if k == |v.keys| then (Refused(401), v)
    else
      match KeyStateError(StatusOf(s.keys(v.keys[k].id), s.found.time))
      case Some(status) => (Refused(status), v)
      case None =>
        if v.accounts == [] then (Unassigned, v)
        else
          var (chosen, keys) := Assign(v, k, model, GateOf(setup.limited, s.found), s.found.time);
          match chosen
          case None => (Refused(503), v.(keys := keys))
          case Some(a) =>
            (Assigned(a, setup.refreshes && NeedsRequestRefresh(a, s.found.facts(a.config.id), s.found.time)),
              v.(keys := keys))
  }

  /** When a refresh is needed it is one for the assigned account, and it is cut short only for a client that
      has gone. */
  predicate Fits(setup: Setup, s: Scene, digest: string, model: string) {
    var a := Attempted(setup, s, digest, model).0;
    a.Assigned? && a.stale ==>
      Answers(s.ask, a.account.config.id) && (PlaceOf(s.ask).why.Cancelled? ==> s.gone)
  }

  datatype Outcome = Denied(status: int) | Admitted(account: string) | Cancelled | Unavailable

  /** How an attempt ends the search, if it does. */
  function Settled(setup: Setup, s: Scene, digest: string, model: string): Option<Outcome> {
    match Attempted(setup, s, digest, model).0
    case Refused(status) => Some(Denied(status))
    case Unassigned => Some(Admitted(""))
    case Assigned(a, stale) =>
      if !stale || SaysUsable(s.ask) then Some(Admitted(a.config.id)) else if s.gone then Some(Cancelled) else None
  }

  class Gateway {
    const limiter: L.RateLimiter?
    const refreshes: bool
    var view: View

    constructor (limiter: L.RateLimiter?, refreshes: bool, view: View)
      ensures this.limiter == limiter && this.refreshes == refreshes && this.view == view
    {
      this.limiter, this.refreshes, this.view := limiter, refreshes, view;
    }

    function SetupOf(): Setup {
      Setup(limiter != null, refreshes)
    }

    /** Leaves the store and the limiter as other requests make them. */
    method Meanwhile(m: Moment)
      modifies this`view, limiter
      ensures view == m.view && (limiter != null ==> limiter.buckets == m.buckets)
    {
      view := m.view;
      if limiter != null {
        limiter.buckets := m.buckets;
      }
    }

    method FindKey(digest: string) returns (k: nat)
      ensures k == KeyAt(view.keys, digest)
    {
      for i := 0 to |view.keys|
        invariant forall j :: 0 <= j < i ==> view.keys[j].keyHash != digest
      {
        if view.keys[i].keyHash == digest {
          return i;
        }
      }
      return |view.keys|;
    }

    /** Judges the key and assigns an account, in one critical section of the store. */
    method AssignSession(s: Scene, digest: string, model: string) returns (a: Attempt)
      modifies this`view, limiter
      ensures (a, view) == Attempted(SetupOf(), s, digest, model)
    {
      hide Assign, NeedsRequestRefresh;
      Meanwhile(s.found);
      var k := FindKey(digest);
      if k == |view.keys| {
        return Refused(401);
      }
      var error := KeyStateError(StatusOf(s.keys(view.keys[k].id), s.found.time));
      if error.Some? {
        return Refused(error.value);
      }
      if |view.accounts| == 0 {
        return Unassigned;
      }
      var (chosen, keys) := Assign(view, k, model, GateOf(limiter != null, s.found), s.found.time);
      view := view.(keys := keys);
      if chosen.None? {
        return Refused(503);
      }
      var account := chosen.value;
      return Assigned(account,
        refreshes && NeedsRequestRefresh(account, s.found.facts(account.config.id), s.found.time));
    }

    /** Counts the request against the limit of the account that will serve it. */
    method RecordAccountHit(m: Moment, id: string)
      requires limiter != null ==> limiter.buckets == m.buckets
      modifies limiter
      ensures limiter != null ==> limiter.buckets == Counted(m, id)
    {
      hide L.Step, FindAccount;
      if limiter == null {
        return;
      }
      var account := FindAccount(m.view.accounts, id);
      var limit := if account.Some? then RateLimitOf(m.facts(id)) else 0;
      if limit <= 0 {
        return;
      }
      var d := limiter.Allow(Bucket(id), limit, m.time);
    }

    /** The first of three attempts that ends the search decides; only the account that will serve is counted.
        No digest stands for a blank secret. */
    method AuthenticateForModel(scenes: nat -> Scene, digest: Option<string>, model: string)
        returns (outcome: Outcome, tried: nat)
      modifies this`view, limiter
      ensures digest.None? ==> tried == 0 && outcome == Denied(401)
      ensures digest.Some? ==>
                && 1 <= tried <= MAX_ATTEMPTS == 3
                && (forall k :: 0 <= k < tried - 1 ==> Settled(SetupOf(), scenes(k), digest.value, model).None?)
                && (match Settled(SetupOf(), scenes(tried - 1), digest.value, model)
                    case Some(end) => outcome == end
                    case None => tried == MAX_ATTEMPTS && outcome == Unavailable)
      ensures outcome.Admitted? && limiter != null ==>
                tried > 0 && limiter.buckets == Counted(scenes(tried - 1).later, outcome.account)
    {
      hide Attempted, Counted;
      tried := 0;
      if digest.None? {
        return Denied(401), tried;
      }
      while tried < MAX_ATTEMPTS
        invariant tried <= MAX_ATTEMPTS
        invariant forall k :: 0 <= k < tried ==> Settled(SetupOf(), scenes(k), digest.value, model).None?
      {
        var s := scenes(tried);
        var a := AssignSession(s, digest.value, model);
        tried := tried + 1;
        if a.Refused? {
          return Denied(a.status), tried;
        }
        var id := if a.Assigned? then a.account.config.id else "";
        if a.Unassigned? || !a.stale || SaysUsable(s.ask) {
          Meanwhile(s.later);
          RecordAccountHit(s.later, id);
          return Admitted(id), tried;
        }
        if s.gone {
          return Cancelled, tried;
        }
      }
      outcome := Unavailable;
    }
  }

  // ---------------------------------------------------------------------------------------------
  // What an admission means
  // ---------------------------------------------------------------------------------------------

  /** The account may serve the key, and declares the model whenever an account that may serve it does. */
  ghost predicate Suits(a: AccountState, key: KeyState, m: Moment, gate: Gate, model: string) {
    && a in m.view.accounts && Eligible(m.view, a, key.groupID, model, gate, m.time)
    && ((exists b ::
           b in m.view.accounts && Eligible(m.view, b, key.groupID, model, gate, m.time)
           && Declares(m.view, b, model, m.time))
        ==> Declares(m.view, a, model, m.time))
  }

  /** Only an active key is admitted.  Its account is stored, in its scope, usable, with a healthy upstream API for
      the model and room under its rate limit; it declares the model whenever an eligible account does.  If its
      balance was stale, its refresh did not refuse it.  Without any account the key is admitted on its own. */
  lemma AdmittedIsSound(setup: Setup, s: Scene, digest: string, model: string)
    requires NamedAccounts(s.found.view.accounts) && Fits(setup, s, digest, model)
    requires Settled(setup, s, digest, model).Some? && Settled(setup, s, digest, model).value.Admitted?
    ensures var attempt := Attempted(setup, s, digest, model).0;
            var v, k := s.found.view, KeyAt(s.found.view.keys, digest);
            && k < |v.keys| && StatusOf(s.keys(v.keys[k].id), s.found.time) == ActiveKey
            && (v.accounts == [] <==> attempt.Unassigned?)
            && (v.accounts != [] ==>
                  && attempt.Assigned? && Settled(setup, s, digest, model) == Some(Admitted(attempt.account.config.id))
                  && Suits(attempt.account, v.keys[k], s.found, GateOf(setup.limited, s.found), model)
                  && (setup.limited ==> HasRoom(s.found, attempt.account.config.id))
                  && (attempt.stale ==> !RefusedByRefresh(s.ask)))
  {
    var v, k, gate := s.found.view, KeyAt(s.found.view.keys, digest), GateOf(setup.limited, s.found);
    hide Assign, Eligible, Declares, HasRoom, SaysUsable, RefusedByRefresh;
    if v.accounts != [] {
      AssignedAccount(v, k, model, gate, s.found.time);
      var a := Attempted(setup, s, digest, model).0;
      assert Assign(v, k, model, gate, s.found.time).0 == Some(a.account);
      AdmitsByGate(v, a.account, v.keys[k].groupID, model, setup.limited, s.found);
      if a.stale {
        UsableIsNotRefused(s.ask, a.account.config.id);
      }
    }
  }

  lemma AdmitsByGate(v: View, a: AccountState, groupID: string, model: string, limited: bool, m: Moment)
    requires Eligible(v, a, groupID, model, GateOf(limited, m), m.time)
    ensures limited ==> HasRoom(m, a.config.id)
  {
    hide HasRoom, GroupOn, Usable, HealthyCount;
  }

  /** The refresh told its caller that the account is missing, suspended or exhausted. */
  predicate RefusedByRefresh(ask: Ask) {
    var s, place := Asked(ask), PlaceOf(ask);
    && place.Returned? && place.why.Told? && place.why.call < |s.calls|
    && s.calls[place.why.call].stage.Closed?
    && var o := s.calls[place.why.call].stage.outcome;
       o.Missing? || ((o.Local? || o.Answered?) && (o.seen.suspended || Exhausted(o.seen)))
  }

  lemma UsableIsNotRefused(ask: Ask, id: string)
    requires Answers(ask, id) && SaysUsable(ask)
    ensures !RefusedByRefresh(ask)
  {
    R.RefusalHasReason(ask.accounts, ask.actions, ask.caller);
    hide R.Run, Exhausted;
    R.RunIsSound(ask.accounts, ask.actions);
    assert R.CallerIsSound(Asked(ask).calls, Asked(ask).callers[ask.caller]);
  }

  /** An account is passed over only when its refresh found it missing, suspended or exhausted. */
  lemma PassedOverForReason(setup: Setup, s: Scene, digest: string, model: string)
    requires NamedAccounts(s.found.view.accounts) && Fits(setup, s, digest, model)
    requires Settled(setup, s, digest, model).None?
    ensures Attempted(setup, s, digest, model).0.Assigned? && Attempted(setup, s, digest, model).0.stale
    ensures RefusedByRefresh(s.ask)
  {
    var v, k, gate := s.found.view, KeyAt(s.found.view.keys, digest), GateOf(setup.limited, s.found);
    hide Assign, Eligible, R.Run, Exhausted, RefusedByRefresh;
    AssignedAccount(v, k, model, gate, s.found.time);
    var a := Attempted(setup, s, digest, model).0.account;
    assert Assign(v, k, model, gate, s.found.time).0 == Some(a) && a in v.accounts;
    NotUsableIsRefused(s.ask, a.config.id);
  }

  lemma NotUsableIsRefused(ask: Ask, id: string)
    requires id != "" && Answers(ask, id) && !SaysUsable(ask) && !PlaceOf(ask).why.Cancelled?
    ensures RefusedByRefresh(ask)
  {
    R.RefusalHasReason(ask.accounts, ask.actions, ask.caller);
    R.RunIsSound(ask.accounts, ask.actions);
    hide R.Run, Exhausted;
    assert R.CallerIsSound(Asked(ask).calls, Asked(ask).callers[ask.caller]);
  }

  // ---------------------------------------------------------------------------------------------
  // Counting
  // ---------------------------------------------------------------------------------------------

  /** An admitted request enters the window of its account if and only if the account, if it still exists, is
      limited and the window has room when the request is counted.  A request that finds the window filled
      meanwhile is served all the same. */
  lemma CountedIff(m: Moment, id: string)
    ensures var limit := RateLimitOf(m.facts(id));
            L.Hits(Counted(m, id), Bucket(id)) == L.Recent(L.Hits(m.buckets, Bucket(id)), m.time) + [m.time]
            <==> FindAccount(m.view.accounts, id).Some? && limit > 0
                 && |L.Recent(L.Hits(m.buckets, Bucket(id)), m.time)| < limit
  {
    hide FindAccount;
    RecentIsShorter(L.Hits(m.buckets, Bucket(id)), m.time);
    hide L.Recent;
  }

  lemma {:induction false} RecentIsShorter(hits: seq<L.Time>, now: L.Time)
    ensures L.Recent(hits, now) + [now] != hits
  {
    assert |L.Recent(hits, now)| <= |hits|;
    if hits != [] {
      var init, last := hits[..|hits| - 1], hits[|hits| - 1];
      if L.Recent(hits, now) + [now] == hits {
        assert hits[|hits| - 1] == now;
        assert |L.Recent(hits, now)| == |hits| - 1;
        assert L.Recent(hits, now) == L.Recent(init, now) + [now];
        assert init == (L.Recent(init, now) + [now]);
        RecentIsShorter(init, now);
      }
    }
  }

  /** When nothing is counted between the assignment and the count, the room that the gate saw is still there. */
  lemma RoomIsKept(found: Moment, later: Moment, id: string)
    requires HasRoom(found, id) && found.time <= later.time
    requires L.Hits(later.buckets, Bucket(id)) == L.Hits(found.buckets, Bucket(id))
    requires RateLimitOf(later.facts(id)) == RateLimitOf(found.facts(id)) > 0
    ensures |L.Recent(L.Hits(later.buckets, Bucket(id)), later.time)| < RateLimitOf(later.facts(id))
  {
    L.RecentAgain(L.Hits(found.buckets, Bucket(id)), found.time, later.time);
    hide L.Recent;
  }
}
