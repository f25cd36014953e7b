/** One inference request after authentication (internal/gateway/chat.go): trying upstream APIs in turn,
    changing accounts when an upstream reports that it cannot pay, and accounting for the outcome.  What the
    network and the rest of the system answer is an environment; every claim holds for all environments. */
module RetryLoop {
  import opened Lists

  const MAX_SWITCHES := 3

  /** How a send ends: no response, an error status (with the upstream's text matching the balance markers
      or not), a stream, or a decoded body.  Tokens are the gateway's own count. */
  datatype Reply =
    | SendFailed(cancelled: bool)
    | ErrorStatus(code: int, saysBalance: bool)
    | StreamShort(streamed: bool, tokens: nat)
    | StreamBroken(tokens: nat)
    | StreamDone(tokens: nat)
    | Undecodable
    | PayloadShort
    | Delivered(tokens: nat)

  /** `replies(n)` is what the n-th send of the request gets, `pools(k)` what the k-th change of accounts
      finds (nothing, or ordered upstream APIs), `retries(k)` the configured retries read after it. */
  datatype Env = Env(replies: nat -> Reply, pools: nat -> Option<seq<string>>, retries: nat -> int)

  datatype Exit =
    | ClientGone
    | Relayed(status: int)
    | NoAccount
    | Truncated
    | StreamBroke
    | Streamed
    | BadBody
    | Answered
    | AllFailed

  /** One call of the usage accounting. */
  datatype Record = Record(ok: bool, tokens: nat)

  predicate IsRetryable(code: int) {
    code in {408, 409, 425, 429, 500, 502, 503, 504, 522, 524}
  }

  predicate IsBalanceExhausted(code: int, saysBalance: bool) {
    code in {400, 402, 403, 429, 401} && saysBalance
  }

  function Shown(code: int): int {
    if code == 401 || code == 403 then 502 else code
  }

  /** Upstream APIs that may be tried. */
  function Limit(retries: int, pool: seq<string>): (limit: nat)
    ensures limit <= |pool|
  {
    var wanted := if retries < 1 then 1 else retries;
    if wanted > |pool| then |pool| else wanted
  }

  /** Where the loop stands: the ordered upstream APIs, how many of them may be tried, the next one, and
      the changes of account so far. */
  datatype Cursor = Cursor(pool: seq<string>, limit: nat, index: nat, switches: nat)

  predicate Ready(c: Cursor) {
    c.index < c.limit <= |c.pool| && c.switches <= MAX_SWITCHES
  }

  function Start(env: Env, candidates: seq<string>): Cursor {
    Cursor(candidates, Limit(env.retries(0), candidates), 0, 0)
  }

  datatype Verdict = Again(next: Cursor) | Stop(exit: Exit, record: Option<Record>)

  /** Another account, when one is left to try and can take the request. */
  function Switched(env: Env, c: Cursor): Option<Cursor> {
    if c.switches >= MAX_SWITCHES then None
    else
      match env.pools(c.switches + 1)
      case None => None
      case Some(pool) =>
        if pool == [] then None
        else Some(Cursor(pool, Limit(env.retries(c.switches + 1), pool), 0, c.switches + 1))
  }

  /** A refused change of account counts as one, too. */
  function Spent(c: Cursor): Cursor {
    if c.switches < MAX_SWITCHES then c.(switches := c.switches + 1) else c
  }

  predicate IsLast(c: Cursor) {
    c.index + 1 >= c.limit
  }

  function Onwards(c: Cursor): Cursor {
    c.(index := c.index + 1)
  }

  function Failure(): Option<Record> {
    Some(Record(false, 0))
  }

  /** What follows a reply. */
  function After(env: Env, c: Cursor, prompt: nat, reply: Reply): Verdict {
    match reply
    case SendFailed(cancelled) =>
      if cancelled then Stop(ClientGone, None)
      else if IsLast(c) then Stop(AllFailed, Failure())
      else Again(Onwards(c))
    case ErrorStatus(code, saysBalance) =>
      var short := IsBalanceExhausted(code, saysBalance);
      if short && Switched(env, c).Some? then Again(Switched(env, c).value)
      else
        var kept := if short then Spent(c) else c;
        if IsRetryable(code) && !IsLast(c) then Again(Onwards(kept)) else Stop(Relayed(Shown(code)), Failure())
    case StreamShort(streamed, tokens) =>
      if !streamed && Switched(env, c).Some? then Again(Switched(env, c).value)
      else Stop(if streamed then Truncated else NoAccount, Some(Record(false, prompt + tokens)))
    case StreamBroken(tokens) => Stop(StreamBroke, Some(Record(false, prompt + tokens)))
    case StreamDone(tokens) => Stop(Streamed, Some(Record(true, prompt + tokens)))
    case Undecodable => if IsLast(c) then Stop(BadBody, Failure()) else Again(Onwards(c))
    case PayloadShort =>
      if Switched(env, c).Some? then Again(Switched(env, c).value) else Stop(NoAccount, Failure())
    case Delivered(tokens) => Stop(Answered, Some(Record(true, prompt + tokens)))
  }

  // ---------------------------------------------------------------------------------------------
  // The loop
  // ---------------------------------------------------------------------------------------------

  /** In-flight counters of the stored upstream APIs; a count never goes below zero. */
  function Adjusted(inflight: map<string, int>, id: string, delta: int): map<string, int> {
    if id !in inflight then inflight
    else
      var n := inflight[id] + delta;
      inflight[id := if n < 0 then 0 else n]
  }

  predicate Counters(inflight: map<string, int>) {
    forall id :: id in inflight ==> inflight[id] >= 0
  }

  /** A run of the loop: the cursor of every send, each leading to the next by its reply. */
  ghost predicate Chained(env: Env, candidates: seq<string>, prompt: nat, cursors: seq<Cursor>) {
    && cursors != [] && cursors[0] == Start(env, candidates)
    && (forall n :: 0 <= n < |cursors| ==> Ready(cursors[n]))
    && (forall n :: 0 <= n < |cursors| - 1 ==> Leads(env, prompt, cursors, n))
  }

  predicate Leads(env: Env, prompt: nat, cursors: seq<Cursor>, n: nat)
    requires n + 1 < |cursors|
  {
    After(env, cursors[n], prompt, env.replies(n)) == Again(cursors[n + 1])
  }

  /** The upstream API that a cursor points at. */
  function Current(c: Cursor): string {
    if Ready(c) then c.pool[c.index] else ""
  }

  function Providers(cursors: seq<Cursor>): seq<string> {
    seq(|cursors|, n requires 0 <= n < |cursors| => Current(cursors[n]))
  }

  /** What a change of account, or the failure to make one, leaves of a cursor. */
  ghost predicate Moves(env: Env, c: Cursor, ok: bool, next: Cursor) {
    if ok then Switched(env, c) == Some(next.(index := 0))
    else Switched(env, c).None? && Spent(c) == next
  }

  /** Another account for this request, within the limit on changes. */
  method SwitchAccount(env: Env, pool: seq<string>, limit: nat, switches: nat)
      returns (ok: bool, nextPool: seq<string>, nextLimit: nat, used: nat)
    requires switches <= MAX_SWITCHES
    ensures forall index :: Moves(env, Cursor(pool, limit, index, switches), ok,
            Cursor(nextPool, nextLimit, index, used))
    ensures switches <= used <= MAX_SWITCHES && (ok ==> used == switches + 1)
  {
    nextPool, nextLimit, used := pool, limit, switches;
    if switches >= MAX_SWITCHES {
      return false, nextPool, nextLimit, used;
    }
    used := switches + 1;
    var found := env.pools(used);
    if found.None? || |found.value| == 0 {
      return false, nextPool, nextLimit, used;
    }
    nextPool := found.value;
    nextLimit := Limit(env.retries(used), nextPool);
    return true, nextPool, nextLimit, used;
  }

  class Gateway {
    var inflight: map<string, int>
    var records: seq<Record>
    var sent: seq<string>

    /** The cursor of every send of the latest request. */
    ghost var trail: seq<Cursor>

    method AdjustInflight(id: string, delta: int)
      modifies this`inflight
      ensures inflight == Adjusted(old(inflight), id, delta)
    {
      if id in inflight {
        var n := inflight[id] + delta;
        inflight := inflight[id := if n < 0 then 0 else n];
      }
    }

    method RecordKeyUsage(ok: bool, tokens: nat)
      modifies this`records
      ensures records == old(records) + [Record(ok, tokens)]
    {
      records := records + [Record(ok, tokens)];
    }

    /** Deals with the reply to a send: goes on with the next upstream API, starts over with another
        account, or ends the request and accounts for it. */
    method Settle(env: Env, c: Cursor, prompt: nat, reply: Reply) returns (verdict: Verdict)
      requires Ready(c)
      modifies this`records
      ensures verdict == After(env, c, prompt, reply)
      ensures records == if verdict.Stop? && verdict.record.Some? then old(records) + [verdict.record.value]
              else old(records)
    {
      hide IsRetryable, IsBalanceExhausted;
      var pool, maxAttempts, index, switches := c.pool, c.limit, c.index, c.switches;
      var switched := false;
      match reply {
        case SendFailed(cancelled) =>
          if cancelled {
            return Stop(ClientGone, None);
          }
          if index + 1 >= maxAttempts {
            RecordKeyUsage(false, 0);
            return Stop(AllFailed, Failure());
          }
        case ErrorStatus(code, saysBalance) =>
          if IsBalanceExhausted(code, saysBalance) {
            switched, pool, maxAttempts, switches := SwitchAccount(env, pool, maxAttempts, switches);
          }
          if !switched && !(IsRetryable(code) && index < maxAttempts - 1) {
            RecordKeyUsage(false, 0);
            return Stop(Relayed(Shown(code)), Failure());
          }
        case StreamShort(streamed, tokens) =>
          switched, pool, maxAttempts, switches := SwitchAccount(env, pool, maxAttempts, switches);
          if !(switched && !streamed) {
            RecordKeyUsage(false, prompt + tokens);
            return Stop(if streamed then Truncated else NoAccount, Some(Record(false, prompt + tokens)));
          }
        case StreamBroken(tokens) =>
          RecordKeyUsage(false, prompt + tokens);
          return Stop(StreamBroke, Some(Record(false, prompt + tokens)));
        case StreamDone(tokens) =>
          RecordKeyUsage(true, prompt + tokens);
          return Stop(Streamed, Some(Record(true, prompt + tokens)));
        case Undecodable =>
          if index >= maxAttempts - 1 {
            RecordKeyUsage(false, 0);
            return Stop(BadBody, Failure());
          }
        case PayloadShort =>
          switched, pool, maxAttempts, switches := SwitchAccount(env, pool, maxAttempts, switches);
          if !switched {
            RecordKeyUsage(false, 0);
            return Stop(NoAccount, Failure());
          }
        case Delivered(tokens) =>
          RecordKeyUsage(true, prompt + tokens);
          return Stop(Answered, Some(Record(true, prompt + tokens)));
      }
      return Again(Cursor(pool, maxAttempts, if switched then 0 else index + 1, switches));
    }

    /** Tries upstream APIs until one settles the request.  In-flight counts end as they began, usage is
        recorded once unless the client went away, and the sends follow each other as `After` says. */
    method HandleInference(env: Env, candidates: seq<string>, prompt: nat) returns (exit: Exit)
      requires candidates != [] && Counters(inflight)
      modifies this
      ensures inflight == old(inflight)
      ensures EndsWith(env, candidates, prompt, trail, exit) && sent == old(sent) + Providers(trail)
      ensures var end := After(env, trail[|trail| - 1], prompt, env.replies(|trail| - 1));
              && end.Stop? && exit == end.exit
              && records == if end.record.Some? then old(records) + [end.record.value] else old(records)
    {
      hide Adjusted, Counters, After;
      var c, n := Start(env, candidates), 0;
      trail := [c];
      while true
        invariant Ready(c) && Chained(env, candidates, prompt, trail)
        invariant n == |trail| - 1 && trail[n] == c
        invariant sent == old(sent) + Providers(trail[..n])
        invariant inflight == old(inflight) && records == old(records)
        decreases MAX_SWITCHES - c.switches, c.limit - c.index
      {
        var provider := c.pool[c.index];
        BackAndForth(inflight, provider);
        AdjustInflight(provider, 1);
        sent := sent + [provider];
        var reply := env.replies(n);
        AdjustInflight(provider, -1);
        assert trail == trail[..n] + [trail[n]];
        assert sent == old(sent) + Providers(trail);
        var verdict := Settle(env, c, prompt, reply);
        if verdict.Stop? {
          return verdict.exit;
        }
        AgainMoves(env, c, prompt, reply);
        ghost var before := trail;
        ChainGrows(env, candidates, prompt, before, verdict.next);
        trail := trail + [verdict.next];
        assert trail[..n + 1] == before;
        c, n := verdict.next, n + 1;
      }
    }
  }

  lemma ChainGrows(env: Env, candidates: seq<string>, prompt: nat, cursors: seq<Cursor>, next: Cursor)
    requires Chained(env, candidates, prompt, cursors) && Ready(next)
    requires After(env, cursors[|cursors| - 1], prompt, env.replies(|cursors| - 1)) == Again(next)
    ensures Chained(env, candidates, prompt, cursors + [next])
  {
    hide After, Ready;
    var longer := cursors + [next];
    forall n | 0 <= n < |longer| - 1 ensures Leads(env, prompt, longer, n) {
      if n < |cursors| - 1 {
        assert Leads(env, prompt, cursors, n);
      }
    }
  }

  lemma BackAndForth(inflight: map<string, int>, id: string)
    requires Counters(inflight)
    ensures Adjusted(Adjusted(inflight, id, 1), id, -1) == inflight
  {
  }

  // ---------------------------------------------------------------------------------------------
  // What holds of every run
  // ---------------------------------------------------------------------------------------------

  /** k times n. */
  function Times(k: nat, n: nat): nat {
    if k == 0 then 0 else Times(k - 1, n) + n
  }

  lemma {:induction false} SendsSoFar(env: Env, candidates: seq<string>, prompt: nat, cursors: seq<Cursor>, most: nat)
    requires Chained(env, candidates, prompt, cursors)
    requires most >= 1 && forall k :: 0 <= k <= MAX_SWITCHES ==> env.retries(k) <= most
    ensures var c := cursors[|cursors| - 1];
            c.limit <= most && |cursors| <= Times(c.switches, most) + c.index + 1
  {
    var last := |cursors| - 1;
    hide After;
    if last > 0 {
      var init := cursors[..last];
      assert forall n :: 0 <= n < last - 1 ==> Leads(env, prompt, cursors, n) == Leads(env, prompt, init, n);
      SendsSoFar(env, candidates, prompt, init, most);
      assert Leads(env, prompt, cursors, last - 1);
      assert init[last - 1] == cursors[last - 1];
      AgainSteps(env, cursors[last - 1], prompt, env.replies(last - 1), most);
    } else {
      assert env.retries(0) <= most;
    }
  }

  /** A step within an account keeps the limit; a change of account begins at the first upstream API. */
  lemma AgainSteps(env: Env, c: Cursor, prompt: nat, reply: Reply, most: nat)
    requires Ready(c) && c.limit <= most && After(env, c, prompt, reply).Again?
    requires most >= 1 && forall k :: 0 <= k <= MAX_SWITCHES ==> env.retries(k) <= most
    ensures var next := After(env, c, prompt, reply).next;
            && next.limit <= most
            && Times(next.switches, most) + next.index >= Times(c.switches, most) + c.index + 1
  {
    assert env.retries(if c.switches < MAX_SWITCHES then c.switches + 1 else 0) <= most;
    hide IsRetryable, IsBalanceExhausted;
  }

  /** However the upstreams answer, a request makes at most four times as many sends as retries are
      configured, all of them to upstream APIs that were offered to it. */
  lemma SendsAreBounded(env: Env, candidates: seq<string>, prompt: nat, cursors: seq<Cursor>, most: nat)
    requires Chained(env, candidates, prompt, cursors)
    requires most >= 1 && forall k :: 0 <= k <= MAX_SWITCHES ==> env.retries(k) <= most
    ensures |cursors| <= 4 * most
    ensures forall n :: 0 <= n < |cursors| ==> Current(cursors[n]) in cursors[n].pool
  {
    SendsSoFar(env, candidates, prompt, cursors, most);
    var c := cursors[|cursors| - 1];
    assert Ready(c);
    assert Times(1, most) == most && Times(2, most) == most + most && Times(3, most) == most + most + most;
    hide After, Times;
  }

  /** A request that went on has not been answered, broken off or given up so far.  When it stops, its usage is
      recorded unless the client went away, and with success exactly when the last reply delivered a response. */
  lemma RecordedUnlessGone(env: Env, candidates: seq<string>, prompt: nat, cursors: seq<Cursor>)
    requires Chained(env, candidates, prompt, cursors)
    requires After(env, cursors[|cursors| - 1], prompt, env.replies(|cursors| - 1)).Stop?
    ensures forall n :: 0 <= n < |cursors| - 1 ==> !Delivers(env.replies(n)) && !Ends(env.replies(n))
    ensures var reply := env.replies(|cursors| - 1);
            var end := After(env, cursors[|cursors| - 1], prompt, reply);
            && (end.record.None? <==> end.exit == ClientGone)
            && (end.exit == ClientGone <==> reply == SendFailed(true))
            && (end.record.Some? ==>
                  && (end.record.value.ok <==> Delivers(reply))
                  && (end.record.value.ok <==> end.exit == Streamed || end.exit == Answered)
                  && end.record.value.tokens == if HasTokens(reply) then prompt + reply.tokens else 0)
  {
    forall n | 0 <= n < |cursors| - 1 ensures !Delivers(env.replies(n)) && !Ends(env.replies(n)) {
      assert Leads(env, prompt, cursors, n);
    }
  }

  predicate Delivers(reply: Reply) {
    reply.StreamDone? || reply.Delivered?
  }

  /** Nothing can follow: the client went away, or saw a part of the answer. */
  predicate Ends(reply: Reply) {
    reply == SendFailed(true) || reply.StreamBroken? || (reply.StreamShort? && reply.streamed)
  }

  predicate HasTokens(reply: Reply) {
    reply.StreamShort? || reply.StreamBroken? || reply.StreamDone? || reply.Delivered?
  }

  /** Between two sends either an account change was spent, or the upstream APIs in between were tried one after
      the other, none of them twice. */
  lemma {:induction false} RunAdvances(env: Env, candidates: seq<string>, prompt: nat, cursors: seq<Cursor>, i: nat,
      j: nat)
    requires Chained(env, candidates, prompt, cursors) && i <= j < |cursors|
    ensures var before, after := cursors[i], cursors[j];
            || after.switches > before.switches
            || (after == before.(index := before.index + (j - i)))
    decreases j
  {
    hide After;
    if i < j {
      RunAdvances(env, candidates, prompt, cursors, i, j - 1);
      assert Leads(env, prompt, cursors, j - 1);
      AgainMoves(env, cursors[j - 1], prompt, env.replies(j - 1));
    }
  }

  lemma AgainMoves(env: Env, c: Cursor, prompt: nat, reply: Reply)
    requires Ready(c) && After(env, c, prompt, reply).Again?
    ensures var next := After(env, c, prompt, reply).next;
            Ready(next) && (next.switches > c.switches || next == Onwards(c))
  {
    hide IsRetryable, IsBalanceExhausted;
  }

  /** Two runs in the same environment are the same run: the loop is deterministic. */
  lemma {:induction false} OneRun(env: Env, candidates: seq<string>, prompt: nat, a: seq<Cursor>, b: seq<Cursor>)
    requires Chained(env, candidates, prompt, a) && Chained(env, candidates, prompt, b)
    ensures forall n :: 0 <= n < |a| && n < |b| ==> a[n] == b[n]
  {
    hide After, Ready;
    var n := 1;
    while n < |a| && n < |b|
      invariant forall k :: 0 <= k < n && k < |a| && k < |b| ==> a[k] == b[k]
    {
      assert Leads(env, prompt, a, n - 1) && Leads(env, prompt, b, n - 1);
      n := n + 1;
    }
  }

  // ---------------------------------------------------------------------------------------------
  // When a run goes on and how it ends
  // ---------------------------------------------------------------------------------------------

  /** A run that stops after its last send. */
  ghost predicate EndsWith(env: Env, candidates: seq<string>, prompt: nat, cursors: seq<Cursor>, exit: Exit) {
    && Chained(env, candidates, prompt, cursors)
    && var end := After(env, cursors[|cursors| - 1], prompt, env.replies(|cursors| - 1));
      end.Stop? && end.exit == exit
  }

  /** A run begins at the first candidate, with as many tries as configured but no fewer than one, and no more
      than there are candidates. */
  lemma RunBegins(env: Env, candidates: seq<string>, prompt: nat, first: Cursor)
    requires candidates != []
    ensures Chained(env, candidates, prompt, [first]) <==>
              && first.pool == candidates && first.index == 0 && first.switches == 0
              && first.limit == (
                   if env.retries(0) < 1 then 1
                   else if env.retries(0) > |candidates| then |candidates|
                   else env.retries(0))
  {
    hide After;
  }

  /** A send is followed by another exactly in two cases.  An upstream that cannot pay, with fewer than three
      changes made and another account to offer, is followed by the first upstream API of that account; a send
      without a response, a body that cannot be read or a passing error status is followed by the next upstream
      API, as long as tries are left. */
  lemma NextSend(env: Env, candidates: seq<string>, prompt: nat, cursors: seq<Cursor>, next: Cursor)
    requires Chained(env, candidates, prompt, cursors)
    ensures var c, reply := cursors[|cursors| - 1], env.replies(|cursors| - 1);
            var shortStatus := reply.ErrorStatus? && reply.saysBalance && reply.code in {400, 401, 402, 403, 429};
            var cannotPay := shortStatus || reply.PayloadShort? || (reply.StreamShort? && !reply.streamed);
            var offered := c.switches < 3 && env.pools(c.switches + 1).Some? && env.pools(c.switches + 1).value != [];
            var passing :=
              || reply == SendFailed(false) || reply.Undecodable?
              || (reply.ErrorStatus? && reply.code in {408, 409, 425, 429, 500, 502, 503, 504, 522, 524});
            Chained(env, candidates, prompt, cursors + [next]) <==>
              if cannotPay && offered then
                && next.pool == env.pools(c.switches + 1).value && next.index == 0 && next.switches == c.switches + 1
                && next.limit == (
                     var retries := env.retries(c.switches + 1);
                     if retries < 1 then 1 else if retries > |next.pool| then |next.pool| else retries)
              else
                && passing && c.index + 1 < c.limit
                && next == c.(index := c.index + 1, switches := next.switches)
                && next.switches == if shortStatus && c.switches < 3 then c.switches + 1 else c.switches
  {
    var n := |cursors| - 1;
    var c, reply := cursors[n], env.replies(n);
    var longer := cursors + [next];
    assert Ready(c);
    FollowsIff(env, c, prompt, reply, next);
    assert longer[n] == c && longer[n + 1] == next && longer[0] == cursors[0];
    hide After;
    if After(env, c, prompt, reply) == Again(next) {
      AgainMoves(env, c, prompt, reply);
      ChainGrows(env, candidates, prompt, cursors, next);
    } else {
      assert !Leads(env, prompt, longer, n);
    }
  }

  lemma FollowsIff(env: Env, c: Cursor, prompt: nat, reply: Reply, next: Cursor)
    requires Ready(c)
    ensures var shortStatus := reply.ErrorStatus? && reply.saysBalance && reply.code in {400, 401, 402, 403, 429};
            var cannotPay := shortStatus || reply.PayloadShort? || (reply.StreamShort? && !reply.streamed);
            var offered := c.switches < 3 && env.pools(c.switches + 1).Some? && env.pools(c.switches + 1).value != [];
            var passing :=
              || reply == SendFailed(false) || reply.Undecodable?
              || (reply.ErrorStatus? && reply.code in {408, 409, 425, 429, 500, 502, 503, 504, 522, 524});
            After(env, c, prompt, reply) == Again(next) <==>
              if cannotPay && offered then
                && next.pool == env.pools(c.switches + 1).value && next.index == 0 && next.switches == c.switches + 1
                && next.limit == (
                     var retries := env.retries(c.switches + 1);
                     if retries < 1 then 1 else if retries > |next.pool| then |next.pool| else retries)
              else
                && passing && c.index + 1 < c.limit
                && next == c.(index := c.index + 1, switches := next.switches)
                && next.switches == if shortStatus && c.switches < 3 then c.switches + 1 else c.switches
  {
  }

  /** How a run ends, by its last reply.  An error status is relayed exactly when no account change answers a
      balance error and the status is not a passing one or no try is left; 401 and 403 are shown as 502. */
  lemma EndsIff(env: Env, candidates: seq<string>, prompt: nat, cursors: seq<Cursor>, status: int)
    requires Chained(env, candidates, prompt, cursors)
    ensures var c, reply := cursors[|cursors| - 1], env.replies(|cursors| - 1);
            var offered := c.switches < 3 && env.pools(c.switches + 1).Some? && env.pools(c.switches + 1).value != [];
            var lastTry := c.index + 1 == c.limit;
            && (EndsWith(env, candidates, prompt, cursors, ClientGone) <==> reply == SendFailed(true))
            && (EndsWith(env, candidates, prompt, cursors, AllFailed) <==> reply == SendFailed(false) && lastTry)
            && (EndsWith(env, candidates, prompt, cursors, BadBody) <==> reply.Undecodable? && lastTry)
            && (EndsWith(env, candidates, prompt, cursors, NoAccount) <==>
                  (reply.PayloadShort? || (reply.StreamShort? && !reply.streamed)) && !offered)
            && (EndsWith(env, candidates, prompt, cursors, Truncated) <==> reply.StreamShort? && reply.streamed)
            && (EndsWith(env, candidates, prompt, cursors, StreamBroke) <==> reply.StreamBroken?)
            && (EndsWith(env, candidates, prompt, cursors, Streamed) <==> reply.StreamDone?)
            && (EndsWith(env, candidates, prompt, cursors, Answered) <==> reply.Delivered?)
            && (EndsWith(env, candidates, prompt, cursors, Relayed(status)) <==>
                  && reply.ErrorStatus? && status == (if reply.code in {401, 403} then 502 else reply.code)
                  && !(reply.saysBalance && reply.code in {400, 401, 402, 403, 429} && offered)
                  && (reply.code !in {408, 409, 425, 429, 500, 502, 503, 504, 522, 524} || lastTry))
  {
    assert Ready(cursors[|cursors| - 1]);
  }
}
