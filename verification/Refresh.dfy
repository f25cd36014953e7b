/** Balance refreshes on the request path (internal/accounts/manager.go): concurrent requests for one
    account share a single query.  Callers and background runs interleave; every step below is one
    critical section, one channel operation or one field write. */
module Refresh {
  import opened Accounts

  /** How a background run ended, with the account as the run left it. */
  datatype Outcome =
    | Missing
    | Vanished
    | NoLimit
    | Local(seen: AccountState)
    | Answered(seen: AccountState)
    | Unanswered(seen: AccountState)

  predicate EndsSuspended(o: Outcome) {
    (o.Local? || o.Answered?) && o.seen.suspended
  }

  predicate EndsExhausted(o: Outcome) {
    (o.Local? || o.Answered?) && Exhausted(o.seen)
  }

  /** The fields that a run writes for its waiters. */
  datatype Verdict = Verdict(usable: bool, missing: bool, suspended: bool, exhausted: bool, failed: bool)

  const BLANK := Verdict(false, false, false, false, false)

  function Writes(o: Outcome): nat {
    if o.Missing? then 1 else 4
  }

  /** The verdict after one more write. */
  function Write(v: Verdict, o: Outcome, k: nat): Verdict {
    if o.Missing? then v.(missing := true)
    else if k == 0 then v.(suspended := EndsSuspended(o))
    else if k == 1 then v.(exhausted := EndsExhausted(o))
    else if k == 2 then v.(failed := o.Unanswered?)
    else v.(usable := v.failed || (!v.suspended && !v.exhausted))
  }

  function WrittenUpTo(o: Outcome, k: nat): Verdict {
    if k == 0 then BLANK else Write(WrittenUpTo(o, k - 1), o, k - 1)
  }

  /** Where a run stands. */
  datatype Stage =
    | Unspawned
    | Spawned
    | Querying
    | Fetched(answer: Snapshot)
    | LocalDue
    | Settled(outcome: Outcome, written: nat)
    | Deleted(outcome: Outcome)
    | Closed(outcome: Outcome)

  /** A shared call; `closes` counts how often its channel was closed. */
  datatype Call = Call(id: string, stage: Stage, verdict: Verdict, closes: nat)

  datatype Why = EmptyID | Cancelled | TimedOut | Told(call: nat)

  datatype Place = Arrived | Created(call: nat) | Waiting(call: nat) | Returned(usable: bool, why: Why)

  datatype Caller = Caller(id: string, place: Place)

  datatype State = State(accounts: map<string, AccountState>, pending: map<string, nat>, calls: seq<Call>,
    callers: seq<Caller>)

  datatype Action =
    | Arrive(id: string)
    | Enter(caller: nat)
    | Spawn(caller: nat)
    | Hear(caller: nat)
    | TimeOut(caller: nat)
    | Cancel(caller: nat)
    | Advance(call: nat, reply: Snapshot)
    | Change(accounts: map<string, AccountState>)

  function Moved(s: State, i: nat, place: Place): State
    requires i < |s.callers|
  {
    s.(callers := s.callers[i := s.callers[i].(place := place)])
  }

  function Entered(s: State, i: nat): State
    requires i < |s.callers|
  {
    var id := s.callers[i].id;
    if id == "" then Moved(s, i, Returned(false, EmptyID))
    else if id in s.pending then Moved(s, i, Waiting(s.pending[id]))
    else
      Moved(
        s.(calls := s.calls + [Call(id, Unspawned, BLANK, 0)], pending := s.pending[id := |s.calls|]),
        i, Created(|s.calls|))
  }

  function Staged(s: State, c: nat, stage: Stage): State
    requires c < |s.calls|
  {
    s.(calls := s.calls[c := s.calls[c].(stage := stage)])
  }

  /** The next step of a background run; `reply` is what the balance query answers. */
  function Advanced(s: State, c: nat, reply: Snapshot): State
    requires c < |s.calls|
  {
    var call := s.calls[c];
    var known := call.id in s.accounts;
    match call.stage
    case Unspawned => s
    case Spawned =>
      Staged(s, c,
        if !known then Settled(Missing, 0) else if s.accounts[call.id].config.queryable then Querying else LocalDue)
    case Querying => Staged(s, c, Fetched(reply))
    case Fetched(answer) =>
      if !known then Staged(s, c, Settled(Vanished, 0))
      else
        var after := Applied(s.accounts[call.id], answer);
        Staged(s.(accounts := s.accounts[call.id := after]), c,
          Settled(if answer.Failed? then Unanswered(after) else Answered(after), 0))
    case LocalDue =>
      if !known || !HasManualBalance(s.accounts[call.id].config) then Staged(s, c, Settled(NoLimit, 0))
      else
        var after := SuspendedIfExhausted(s.accounts[call.id]);
        Staged(s.(accounts := s.accounts[call.id := after]), c, Settled(Local(after), 0))
    case Settled(outcome, k) =>
      if k < Writes(outcome)
      then s.(calls :=
        s.calls[c := call.(verdict := Write(call.verdict, outcome, k), stage := Settled(outcome, k + 1))])
      else Staged(s, c, Deleted(outcome)).(pending := s.pending - {call.id})
    case Deleted(outcome) =>
      s.(calls := s.calls[c := call.(stage := Closed(outcome), closes := call.closes + 1)])
    case Closed(_) => s
  }

  /** A step that is not enabled changes nothing. */
  function Next(s: State, action: Action): State {
    match action
    case Arrive(id) => s.(callers := s.callers + [Caller(id, Arrived)])
    case Enter(i) => if i < |s.callers| && s.callers[i].place.Arrived? then Entered(s, i) else s
    case Spawn(i) =>
      if i < |s.callers| && s.callers[i].place.Created? && s.callers[i].place.call < |s.calls|
      then Moved(Staged(s, s.callers[i].place.call, Spawned), i, Waiting(s.callers[i].place.call)) else s
    case Hear(i) =>
      if i < |s.callers| && s.callers[i].place.Waiting? && s.callers[i].place.call < |s.calls|
        && s.calls[s.callers[i].place.call].stage.Closed?
      then Moved(s, i, Returned(s.calls[s.callers[i].place.call].verdict.usable, Told(s.callers[i].place.call))) else s
    case TimeOut(i) => if i < |s.callers| && s.callers[i].place.Waiting? then Moved(s, i, Returned(true, TimedOut))
      else s
    case Cancel(i) => if i < |s.callers| && s.callers[i].place.Waiting? then Moved(s, i, Returned(false, Cancelled))
      else s
    case Advance(c, reply) => if c < |s.calls| then Advanced(s, c, reply) else s
    case Change(accounts) => s.(accounts := accounts)
  }

  function Run(s: State, actions: seq<Action>): State {
    if actions == [] then s else Next(Run(s, actions[..|actions| - 1]), actions[|actions| - 1])
  }

  function Idle(accounts: map<string, AccountState>): State {
    State(accounts, map[], [], [])
  }

  // ---------------------------------------------------------------------------------------------
  // Invariant
  // ---------------------------------------------------------------------------------------------

  /** Registered and not yet taken out of the pending calls. */
  predicate InProgress(stage: Stage) {
    !stage.Deleted? && !stage.Closed?
  }

  predicate CallIsSound(call: Call) {
    && call.id != ""
    && call.closes == (if call.stage.Closed? then 1 else 0)
    && call.verdict == match call.stage {
         case Settled(o, k) => WrittenUpTo(o, k)
         case Deleted(o) => WrittenUpTo(o, Writes(o))
         case Closed(o) => WrittenUpTo(o, Writes(o))
         case _ => BLANK
       }
    && (call.stage.Settled? ==> call.stage.written <= Writes(call.stage.outcome))
  }

  predicate CallerIsSound(calls: seq<Call>, caller: Caller) {
    match caller.place
    case Arrived => true
    case Created(c) => c < |calls| && calls[c].id == caller.id && calls[c].stage.Unspawned?
    case Waiting(c) => c < |calls| && calls[c].id == caller.id
    case Returned(usable, why) =>
      match why
      case EmptyID => !usable && caller.id == ""
      case Cancelled => !usable
      case TimedOut => usable
      case Told(c) =>
        c < |calls| && calls[c].id == caller.id && calls[c].stage.Closed? && usable == calls[c].verdict.usable
  }

  /** The call's own entry is the pending one as long as it is in progress. */
  predicate Registered(s: State, c: nat)
    requires c < |s.calls|
  {
    InProgress(s.calls[c].stage) <==> s.calls[c].id in s.pending && s.pending[s.calls[c].id] == c
  }

  predicate Entry(s: State, id: string) {
    id in s.pending ==> s.pending[id] < |s.calls| && s.calls[s.pending[id]].id == id
  }

  /** The caller that is about to start the run of an unstarted call. */
  predicate HasStarter(s: State, c: nat)
    requires c < |s.calls|
  {
    s.calls[c].stage.Unspawned? ==> exists i :: 0 <= i < |s.callers| && s.callers[i].place == Created(c)
  }

  predicate OneStarter(s: State, i: nat, j: nat)
    requires i < |s.callers| && j < |s.callers|
  {
    s.callers[i].place.Created? && s.callers[i].place == s.callers[j].place ==> i == j
  }

  ghost predicate Sound(s: State) {
    && (forall c :: 0 <= c < |s.calls| ==> CallIsSound(s.calls[c]))
    && (forall c :: 0 <= c < |s.calls| ==> Registered(s, c))
    && (forall id :: Entry(s, id))
    && (forall i :: 0 <= i < |s.callers| ==> CallerIsSound(s.calls, s.callers[i]))
    && (forall c :: 0 <= c < |s.calls| ==> HasStarter(s, c))
    && (forall i, j :: 0 <= i < |s.callers| && 0 <= j < |s.callers| ==> OneStarter(s, i, j))
  }

  /** What the waiters of a run are told in the end: after a failed query that the account may be used, after an
      answered one and after a look at a manual balance whether the account, as it is recorded then, is neither
      suspended nor exhausted. */
  lemma ToldWhatIsRecorded(s: State, c: nat, reply: Snapshot)
    requires c < |s.calls| && s.calls[c].id in s.accounts
    requires s.calls[c].stage.Fetched? || s.calls[c].stage.LocalDue?
    ensures var t := Advanced(s, c, reply);
            var recorded := t.accounts[s.calls[c].id];
            && t.calls[c].stage.Settled? && t.calls[c].stage.written == 0
            && var told := WrittenUpTo(t.calls[c].stage.outcome, Writes(t.calls[c].stage.outcome));
              && !told.missing
              && (s.calls[c].stage.Fetched? && s.calls[c].stage.answer.Failed? ==> told.usable && told.failed)
              && (s.calls[c].stage.Fetched? && s.calls[c].stage.answer.Answer? ==>
                    (told.usable <==> !recorded.suspended && !Exhausted(recorded)) && !told.failed)
              && (s.calls[c].stage.LocalDue? ==>
                    (told.usable <==>
                       !HasManualBalance(s.accounts[s.calls[c].id].config)
                       || (!recorded.suspended && !Exhausted(recorded))))
  {
    hide Exhausted, Applied, SuspendedIfExhausted;
    FourWrites(Advanced(s, c, reply).calls[c].stage.outcome);
  }

  lemma FourWrites(o: Outcome)
    ensures !o.Missing? ==>
              WrittenUpTo(o, 4) ==
              Verdict(
                o.Unanswered? || (!EndsSuspended(o) && !EndsExhausted(o)), false, EndsSuspended(o), EndsExhausted(o),
                o.Unanswered?)
    ensures o.Missing? ==> WrittenUpTo(o, 1) == Verdict(false, true, false, false, false)
  {
    hide Exhausted;
    assert WrittenUpTo(o, 0) == BLANK;
    assert WrittenUpTo(o, 1) == Write(BLANK, o, 0);
    if !o.Missing? {
      assert WrittenUpTo(o, 3) == Write(WrittenUpTo(o, 2), o, 2);
    }
  }

  lemma CallChanged(s: State, t: State, c: nat)
    requires Sound(s) && c < |s.calls| == |t.calls| && t.calls == s.calls[c := t.calls[c]] && t.callers == s.callers
    requires t.calls[c].id == s.calls[c].id && CallIsSound(t.calls[c])
    requires !s.calls[c].stage.Unspawned? && !s.calls[c].stage.Closed? && !t.calls[c].stage.Unspawned?
    requires InProgress(t.calls[c].stage) ==> InProgress(s.calls[c].stage)
    requires t.pending ==
             if InProgress(s.calls[c].stage) && !InProgress(t.calls[c].stage) then s.pending - {s.calls[c].id}
               else s.pending
    ensures Sound(t)
  {
    hide CallIsSound;
    assert Registered(s, c) && Entry(s, s.calls[c].id);
    forall d | 0 <= d < |t.calls| ensures CallIsSound(t.calls[d]) && Registered(t, d) && HasStarter(t, d) {
      assert CallIsSound(s.calls[d]) && Registered(s, d) && HasStarter(s, d);
    }
    forall id ensures Entry(t, id) {
      assert Entry(s, id);
    }
    forall i | 0 <= i < |t.callers| ensures CallerIsSound(t.calls, t.callers[i]) {
      assert CallerIsSound(s.calls, s.callers[i]);
    }
    forall i, j | 0 <= i < |t.callers| && 0 <= j < |t.callers| ensures OneStarter(t, i, j) {
      assert OneStarter(s, i, j);
    }
  }

  lemma AdvanceIsSound(s: State, c: nat, reply: Snapshot)
    requires Sound(s) && c < |s.calls|
    ensures Sound(Advanced(s, c, reply))
  {
    var call, t := s.calls[c], Advanced(s, c, reply);
    assert CallIsSound(call);
    hide Sound, Exhausted, Applied, SuspendedIfExhausted, Write;
    if !call.stage.Unspawned? && !call.stage.Closed? {
      CallChanged(s, t, c);
    }
  }

  /** A caller moves on; no call changes. */
  lemma CallerMoved(s: State, i: nat, place: Place)
    requires Sound(s) && i < |s.callers| && !s.callers[i].place.Created? && !place.Created?
    requires CallerIsSound(s.calls, s.callers[i].(place := place))
    ensures Sound(Moved(s, i, place))
  {
    hide CallIsSound, CallerIsSound;
    var t := Moved(s, i, place);
    forall d | 0 <= d < |t.calls| ensures CallIsSound(t.calls[d]) && Registered(t, d) && HasStarter(t, d) {
      assert CallIsSound(s.calls[d]) && Registered(s, d) && HasStarter(s, d);
      if t.calls[d].stage.Unspawned? {
        var j :| 0 <= j < |s.callers| && s.callers[j].place == Created(d);
        assert t.callers[j].place == Created(d);
      }
    }
    forall id ensures Entry(t, id) {
      assert Entry(s, id);
    }
    forall j, k | 0 <= j < |t.callers| && 0 <= k < |t.callers| ensures OneStarter(t, j, k) {
      assert OneStarter(s, j, k);
    }
  }

  lemma EnterIsSound(s: State, i: nat)
    requires Sound(s) && i < |s.callers| && s.callers[i].place.Arrived?
    ensures Sound(Entered(s, i))
  {
    var id := s.callers[i].id;
    assert Entry(s, id);
    if id == "" {
      CallerMoved(s, i, Returned(false, EmptyID));
    } else if id in s.pending {
      CallerMoved(s, i, Waiting(s.pending[id]));
    } else {
      NewCallIsSound(s, i);
    }
  }

  lemma NewCallIsSound(s: State, i: nat)
    requires Sound(s) && i < |s.callers| && s.callers[i].place.Arrived?
    requires s.callers[i].id != "" && s.callers[i].id !in s.pending
    ensures Sound(Entered(s, i))
  {
    var t, n := Entered(s, i), |s.calls|;
    assert CallIsSound(t.calls[n]);
    hide CallIsSound;
    forall d | 0 <= d < |t.calls| ensures CallIsSound(t.calls[d]) && Registered(t, d) && HasStarter(t, d) {
      if d < n {
        assert CallIsSound(s.calls[d]) && Registered(s, d) && HasStarter(s, d);
        if s.calls[d].stage.Unspawned? {
          var j :| 0 <= j < |s.callers| && s.callers[j].place == Created(d);
          assert t.callers[j].place == Created(d);
        }
      } else {
        assert t.callers[i].place == Created(n);
      }
    }
    forall id ensures Entry(t, id) {
      assert Entry(s, id);
    }
    forall j | 0 <= j < |t.callers| ensures CallerIsSound(t.calls, t.callers[j]) {
      assert CallerIsSound(s.calls, s.callers[j]);
    }
    forall j, k | 0 <= j < |t.callers| && 0 <= k < |t.callers| ensures OneStarter(t, j, k) {
      assert OneStarter(s, j, k) && CallerIsSound(s.calls, s.callers[j]) && CallerIsSound(s.calls, s.callers[k]);
    }
  }

  lemma SpawnIsSound(s: State, i: nat)
    requires Sound(s) && i < |s.callers| && s.callers[i].place.Created? && s.callers[i].place.call < |s.calls|
    ensures Sound(Next(s, Spawn(i)))
  {
    var t, c := Next(s, Spawn(i)), s.callers[i].place.call;
    assert CallerIsSound(s.calls, s.callers[i]) && CallIsSound(s.calls[c]);
    assert CallIsSound(t.calls[c]);
    hide CallIsSound;
    forall d | 0 <= d < |t.calls| ensures CallIsSound(t.calls[d]) && Registered(t, d) && HasStarter(t, d) {
      assert CallIsSound(s.calls[d]) && Registered(s, d) && HasStarter(s, d);
      if t.calls[d].stage.Unspawned? {
        var j :| 0 <= j < |s.callers| && s.callers[j].place == Created(d);
        assert t.callers[j].place == Created(d);
      }
    }
    forall id ensures Entry(t, id) {
      assert Entry(s, id);
    }
    forall j | 0 <= j < |t.callers| ensures CallerIsSound(t.calls, t.callers[j]) {
      assert CallerIsSound(s.calls, s.callers[j]) && OneStarter(s, i, j);
    }
    forall j, k | 0 <= j < |t.callers| && 0 <= k < |t.callers| ensures OneStarter(t, j, k) {
      assert OneStarter(s, j, k);
    }
  }

  lemma ArriveIsSound(s: State, id: string)
    requires Sound(s)
    ensures Sound(Next(s, Arrive(id)))
  {
    hide CallIsSound;
    var t := Next(s, Arrive(id));
    forall d | 0 <= d < |t.calls| ensures Registered(t, d) && HasStarter(t, d) {
      assert Registered(s, d) && HasStarter(s, d);
      if t.calls[d].stage.Unspawned? {
        var j :| 0 <= j < |s.callers| && s.callers[j].place == Created(d);
        assert t.callers[j].place == Created(d);
      }
    }
    forall id ensures Entry(t, id) {
      assert Entry(s, id);
    }
    forall j, k | 0 <= j < |t.callers| && 0 <= k < |t.callers| ensures OneStarter(t, j, k) {
      if j < |s.callers| && k < |s.callers| {
        assert OneStarter(s, j, k);
      }
    }
  }

  lemma ChangeIsSound(s: State, accounts: map<string, AccountState>)
    requires Sound(s)
    ensures Sound(s.(accounts := accounts))
  {
    var t := s.(accounts := accounts);
    forall d | 0 <= d < |t.calls| ensures Registered(t, d) && HasStarter(t, d) {
      assert Registered(s, d) && HasStarter(s, d);
    }
    forall id ensures Entry(t, id) {
      assert Entry(s, id);
    }
    forall j, k | 0 <= j < |t.callers| && 0 <= k < |t.callers| ensures OneStarter(t, j, k) {
      assert OneStarter(s, j, k);
    }
  }

  lemma StepIsSound(s: State, action: Action)
    requires Sound(s)
    ensures Sound(Next(s, action))
  {
    match action {
      case Arrive(id) => ArriveIsSound(s, id);
      case Enter(i) =>
        if i < |s.callers| && s.callers[i].place.Arrived? {
          EnterIsSound(s, i);
        }
      case Spawn(i) =>
        if i < |s.callers| && s.callers[i].place.Created? && s.callers[i].place.call < |s.calls| {
          SpawnIsSound(s, i);
        }
      case Hear(i) => ReturnIsSound(s, i);
      case TimeOut(i) => ReturnIsSound(s, i);
      case Cancel(i) => ReturnIsSound(s, i);
      case Advance(c, reply) =>
        if c < |s.calls| {
          AdvanceIsSound(s, c, reply);
        }
      case Change(accounts) => ChangeIsSound(s, accounts);
    }
    hide Sound, Entered, Advanced;
  }

  lemma ReturnIsSound(s: State, i: nat)
    requires Sound(s)
    ensures Sound(Next(s, Hear(i))) && Sound(Next(s, TimeOut(i))) && Sound(Next(s, Cancel(i)))
  {
    if i < |s.callers| && s.callers[i].place.Waiting? {
      assert CallerIsSound(s.calls, s.callers[i]);
      hide Sound;
      var c := s.callers[i].place.call;
      if s.calls[c].stage.Closed? {
        CallerMoved(s, i, Returned(s.calls[c].verdict.usable, Told(c)));
      }
      CallerMoved(s, i, Returned(true, TimedOut));
      CallerMoved(s, i, Returned(false, Cancelled));
    }
  }

  lemma {:induction false} RunIsSound(accounts: map<string, AccountState>, actions: seq<Action>)
    ensures Sound(Run(Idle(accounts), actions))
  {
    hide Sound, Next;
    if actions == [] {
      IdleIsSound(accounts);
    } else {
      RunIsSound(accounts, actions[..|actions| - 1]);
      StepIsSound(Run(Idle(accounts), actions[..|actions| - 1]), actions[|actions| - 1]);
    }
  }

  lemma IdleIsSound(accounts: map<string, AccountState>)
    ensures Sound(Idle(accounts))
  {
  }

  // ---------------------------------------------------------------------------------------------
  // What follows for every run
  // ---------------------------------------------------------------------------------------------

  /** Two calls of one account are never in progress at once, however callers and runs interleave. */
  lemma OneCallInProgress(accounts: map<string, AccountState>, actions: seq<Action>, c: nat, d: nat)
    requires var s := Run(Idle(accounts), actions);
             && c < |s.calls| && d < |s.calls| && s.calls[c].id == s.calls[d].id
             && InProgress(s.calls[c].stage) && InProgress(s.calls[d].stage)
    ensures c == d
  {
    RunIsSound(accounts, actions);
    var s := Run(Idle(accounts), actions);
    hide Run;
    assert Registered(s, c) && Registered(s, d);
  }

  /** A channel is closed at most once, and only after the verdict is completely written and the entry is
      taken out of the pending calls. */
  lemma ClosedIsSettled(accounts: map<string, AccountState>, actions: seq<Action>, c: nat)
    requires c < |Run(Idle(accounts), actions).calls|
    ensures var s := Run(Idle(accounts), actions);
            var call := s.calls[c];
            && call.closes <= 1
            && (call.closes == 1 <==> call.stage.Closed?)
            && (call.stage.Closed? ==>
                  && call.verdict == Final(call.stage.outcome)
                  && (call.id in s.pending ==> s.pending[call.id] != c))
  {
    RunIsSound(accounts, actions);
    var s := Run(Idle(accounts), actions);
    hide Run;
    assert Registered(s, c) && CallIsSound(s.calls[c]);
    if s.calls[c].stage.Closed? {
      AllWritten(s.calls[c].stage.outcome);
    }
  }

  /** The verdict that an outcome calls for. */
  function Final(o: Outcome): Verdict {
    if o.Missing? then BLANK.(missing := true)
    else
      Verdict(
        o.Unanswered? || (!EndsSuspended(o) && !EndsExhausted(o)),
        false, EndsSuspended(o), EndsExhausted(o), o.Unanswered?)
  }

  lemma AllWritten(o: Outcome)
    ensures WrittenUpTo(o, Writes(o)) == Final(o)
  {
    hide EndsSuspended, EndsExhausted;
    assert WrittenUpTo(o, 0) == BLANK;
    assert WrittenUpTo(o, 1) == Write(BLANK, o, 0);
    assert WrittenUpTo(o, 2) == Write(WrittenUpTo(o, 1), o, 1);
    assert WrittenUpTo(o, 3) == Write(WrittenUpTo(o, 2), o, 2);
    assert WrittenUpTo(o, 4) == Write(WrittenUpTo(o, 3), o, 3);
  }

  /** Nothing that happens later touches a closed call. */
  lemma {:induction false} ClosedStays(s: State, actions: seq<Action>, c: nat)
    requires Sound(s) && c < |s.calls| && s.calls[c].stage.Closed?
    ensures c < |Run(s, actions).calls| && Run(s, actions).calls[c] == s.calls[c] && Sound(Run(s, actions))
  {
    hide Sound, Next;
    if actions != [] {
      ClosedStays(s, actions[..|actions| - 1], c);
      var before := Run(s, actions[..|actions| - 1]);
      StepIsSound(before, actions[|actions| - 1]);
      ClosedStaysOnce(before, actions[|actions| - 1], c);
    }
  }

  lemma ClosedStaysOnce(s: State, action: Action, c: nat)
    requires Sound(s) && c < |s.calls| && s.calls[c].stage.Closed?
    ensures c < |Next(s, action).calls| && Next(s, action).calls[c] == s.calls[c]
  {
    if action.Spawn? && action.caller < |s.callers| {
      assert CallerIsSound(s.calls, s.callers[action.caller]);
    }
    hide Sound, Applied, SuspendedIfExhausted, CallIsSound;
  }

  /** Everyone who hears from the same call hears the same, whenever they listen. */
  lemma JoinersAgree(accounts: map<string, AccountState>, actions: seq<Action>, i: nat, j: nat)
    requires var s := Run(Idle(accounts), actions);
             && i < |s.callers| && j < |s.callers|
             && s.callers[i].place.Returned? && s.callers[j].place.Returned?
             && s.callers[i].place.why.Told? && s.callers[i].place.why == s.callers[j].place.why
    ensures var s := Run(Idle(accounts), actions);
            s.callers[i].place.usable == s.callers[j].place.usable && s.callers[i].id == s.callers[j].id
  {
    RunIsSound(accounts, actions);
    var s := Run(Idle(accounts), actions);
    hide Run;
    assert CallerIsSound(s.calls, s.callers[i]) && CallerIsSound(s.calls, s.callers[j]);
  }

  /** A caller is told no only for an empty id, when it gave up itself, when the account was missing, or
      when a refresh without error left the account suspended or exhausted. */
  lemma RefusalHasReason(accounts: map<string, AccountState>, actions: seq<Action>, i: nat)
    requires var s := Run(Idle(accounts), actions); i < |s.callers| && s.callers[i].place.Returned?
    ensures var s := Run(Idle(accounts), actions);
            var place := s.callers[i].place;
            !place.usable <==>
              match place.why {
                case EmptyID => true
                case Cancelled => true
                case TimedOut => false
                case Told(c) =>
                  && c < |s.calls| && s.calls[c].id == s.callers[i].id && s.calls[c].stage.Closed?
                  && var o := s.calls[c].stage.outcome;
                     o.Missing? || ((o.Local? || o.Answered?) && (o.seen.suspended || Exhausted(o.seen)))
              }
  {
    RunIsSound(accounts, actions);
    var s := Run(Idle(accounts), actions);
    hide Run, Exhausted;
    assert CallerIsSound(s.calls, s.callers[i]);
    if s.callers[i].place.why.Told? {
      var c := s.callers[i].place.why.call;
      assert CallIsSound(s.calls[c]);
      AllWritten(s.calls[c].stage.outcome);
    }
  }

  /** Steps that a run still has to take. */
  function StepsLeft(stage: Stage): nat {
    match stage
    case Unspawned => 10
    case Spawned => 9
    case Querying => 8
    case Fetched(_) => 7
    case LocalDue => 7
    case Settled(o, k) => if k <= Writes(o) then 2 + Writes(o) - k else 2
    case Deleted(_) => 1
    case Closed(_) => 0
  }

  /** A started run is never stuck: each of its steps brings it closer to closing its channel, and no step
      of anything else moves it.  Unstarted runs have a caller that can start them. */
  lemma RunsFinish(s: State, c: nat, reply: Snapshot)
    requires Sound(s) && c < |s.calls| && !s.calls[c].stage.Closed?
    ensures s.calls[c].stage.Unspawned? ==>
              exists i :: 0 <= i < |s.callers| && s.callers[i].place == Created(c)
                && Next(s, Spawn(i)).calls[c].stage.Spawned?
    ensures !s.calls[c].stage.Unspawned?
            ==> StepsLeft(Next(s, Advance(c, reply)).calls[c].stage) < StepsLeft(s.calls[c].stage)
    ensures !s.calls[c].stage.Unspawned? ==>
              forall action: Action :: !(action.Advance? && action.call == c) ==> Keeps(s, action, c)
  {
    assert HasStarter(s, c) && CallIsSound(s.calls[c]);
    if s.calls[c].stage.Unspawned? {
      var i :| 0 <= i < |s.callers| && s.callers[i].place == Created(c);
      assert Next(s, Spawn(i)).calls[c].stage.Spawned?;
    } else {
      forall action: Action | !(action.Advance? && action.call == c) ensures Keeps(s, action, c) {
        OthersKeep(s, action, c);
      }
    }
    hide Sound, Applied, SuspendedIfExhausted, CallIsSound, Exhausted;
  }

  predicate Keeps(s: State, action: Action, c: nat) {
    c < |s.calls| && c < |Next(s, action).calls| && Next(s, action).calls[c] == s.calls[c]
  }

  lemma OthersKeep(s: State, action: Action, c: nat)
    requires Sound(s) && c < |s.calls| && !s.calls[c].stage.Unspawned? && !(action.Advance? && action.call == c)
    ensures Keeps(s, action, c)
  {
    if action.Spawn? && action.caller < |s.callers| {
      assert CallerIsSound(s.calls, s.callers[action.caller]);
    }
    hide Sound, CallIsSound;
  }
}
