# Laskah in Dafny

Laskah is a gateway in front of AI upstreams: it binds gateway keys to upstream accounts, tries upstream APIs in
turn, forwards and meters their answers, bills accounts, limits rates, and runs administrators' balance scripts.
These files model the parts of it that hold state or choose, and prove what they keep over every input, every run
and every interleaving. `dafny verify dfyconfig.toml` checks all of them.

Code that changes things step by step is a class or a method with loops here; its contract ties it to a function on
plain data, and the main results are lemmas about those functions.

| file | what it models |
|---|---|
| `Allocation.dfy` | the greedy, sticky account allocator on plain data: eligibility, pool, ranking, borrowing, fairness over runs |
| `Store.dfy` | the store with its indexes and the incremental load count; every operation refines its function on plain data |
| `Lifecycle.dfy` | creation and removal of accounts, groups, upstream APIs and keys, with the removal log |
| `Accounts.dfy` | billing, balance floor, suspension and balance refreshes |
| `Metering.dfy` | accounting of finished requests on keys and accounts |
| `Refresh.dfy` | the shared balance query of the request path as interleaved steps of callers and background runs |
| `Authentication.dfy`, `RetryLoop.dfy`, `Inflight.dfy` | one request: finding an account, trying upstream APIs, changing accounts, in-flight counters |
| `StreamPump.dfy` | forwarding and metering an event stream |
| `AnthropicStream.dfy` | the Anthropic stream rewriter and the converter back |
| `Utf8.dfy`, `Tokenizer.dfy` | the streaming token counter over bytes |
| `OutputCap.dfy`, `Response.dfy` | trimming texts and responses to the output limit |
| `RateLimiter.dfy` | the sliding-window limiter |
| `Balancer.dfy`, `Health.dfy` | ordering upstream APIs, and what reported calls do to them |
| `ScriptGrammar.dfy`, `ScriptParser.dfy`, `ScriptPrinter.dfy`, `ScriptImage.dfy` | the script language, its recursive-descent parser, a printer that the parser inverts, and the proof that it prints exactly what can be parsed |
| `ScriptPrecedence.dfy` | which operand belongs to which operator, for operands written in any way |
| `ScriptValues.dfy`, `ScriptEvaluator.dfy` | values of scripts, their texts and which of them have one; the evaluator with shared scopes, objects and arrays, closures and the step limit; a reference interpreter on plain values for expressions, statements and calls that change nothing but their own variables; and what an extractor tells of a response |
| `Lists.dfy`, `Sorting.dfy` | options, filters and the stable sort |

## Conventions

- Time is an integer that is passed in and does not run backwards; `now` is fixed within one assignment.
- Money is an exact real number; balances start on the micro-dollar grid, and rounding is half away from zero to six
  digits, as `round6` does.
- Generated ids and key digests are unique and account ids are not empty. What the indexes would do otherwise is
  stated by `Store.IndexIsScanIffDistinct` and `Store.OwnersAnswerScansIff`.
- Which models an upstream API declares or takes is a predicate, `declares` and `anyModel`; the wording that makes an
  upstream's error a balance error is the flag `saysBalance`.
- What the network, the clock, the random source and other requests answer is an environment, `Env`, `Host` or an
  indexed function; every claim holds for all of them.
- Script text and byte strings are sequences; a token list stands without its end-of-file token in `ScriptGrammar`,
  and with it in `ScriptParser`.

## What the code does not promise

Some natural claims are false of the code. Each is answered with the exact condition under which it holds.

- The comment at `internal/tokenizer/tokenizer.go:39-40` says that counting does not depend on how a text is cut. It
  does: a flush inside a white-space run may add or lose a token. `Tokenizer.ChunkIndependence` bounds the drift by
  the number of such flushes, `Tokenizer.TwoPieces` says exactly when two pieces agree with the whole, and
  `Tokenizer.DriftIsAttained` shows that the bound is reached in both directions.
- `RetryAfter` looks at the oldest hit of the window. If a limit was lowered meanwhile, waiting that long may not be
  enough: `RateLimiter.RetryAfterIsExact` is the condition, `RateLimiter.LoweredLimitMisleads` an input.
- Fair spreading (`internal/store/allocate.go:294-308`) holds over runs that mix named groups, but not over runs that
  mix models: `Allocation.BindingKeepsFairIff` says exactly which binding breaks it, `Allocation.FairMixedRun` which
  runs keep it, and `Allocation.MixedModelsAreUnfair` is an input.
- Round robin is uneven when the 64-bit cursor wraps and the number of upstream APIs does not divide what is left of
  it: `Balancer.RoundRobinIsFairIff`, with `Balancer.WrapIsUneven` as an input.
- A patch may bind a key to an account that does not exist (`internal/admin/keys.go:174-224`); a blank account id in
  a patch unbinds the key: `Lifecycle.PatchKeepsClosedIff`, with `Lifecycle.PatchMayDangle` as an input.
- A charge that lands on half a micro-dollar is rounded up on both sides, which creates one micro-dollar:
  `Accounts.ManualBalanceRun` counts them, `Accounts.HalfIsMadeWhole` is an input.
- An upstream's stop reasons other than `max_tokens` and `end_turn` do not survive conversion, and neither does its
  thinking: `AnthropicStream.StopReasonSurvives` and `AnthropicStream.UpstreamSurvives`, with
  `AnthropicStream.ToolUseIsLost` as an input.
- A request that borrows an account is charged to the account its key is bound to (`internal/gateway/chat.go:1206`):
  `Allocation.ServedIsChargedIff` says exactly when the account that serves is charged,
  `Allocation.BorrowedIsNotCharged` is an input. `Metering.KeysAddUp` is about the account that is charged.
- Not every script ends within its steps. Turning an array into text (`internal/script/eval.go:608-637`) and exporting
  a value for JSON (`internal/script/eval.go:772-793`) take no steps and do not look out for values that contain
  themselves, which `a[0] = a` makes; they go on until the stack is used up. `ScriptValues.EndsIff` and
  `ScriptEvaluator.Interp.ConversionsEndIff` say exactly which values have an end, `ScriptEvaluator.TextOfItself` and
  `ScriptEvaluator.JsonOfItself` are inputs, and `ScriptEvaluator.EvalConfig` says which runs cannot use up the stack.

## Model

| member | source | states |
|---|---|---|
| Allocation.FairRun | internal/store/allocate.go:173-209 | Greedy fairness over whole runs: any number of keys without an account, assigned one after the other over a fixed pool, keep (load_i - 1) * healthy_j <= load_j * healthy_i for every pair of loaded pool accounts; all of them are bound into the pool and no other key changes |
| Allocation.EqualsDifferByOne | internal/store/allocate.go:270-289 | In a fair pool, accounts with equally many healthy upstream APIs never differ by more than one key |
| Allocation.UnloadedIsFair | internal/store/allocate.go:239-251 | A pool that carries no key is fair, so runs from an unloaded pool stay fair |
| Allocation.BindingKeepsFairIff | internal/store/allocate.go:173-209 | One binding to an account keeps a fair pool fair if and only if the account is outside the pool or no pool account is less loaded per healthy upstream API by more than a key |
| Allocation.FairMixedRun | internal/store/allocate.go:173-209 | A run of fresh requests over several groups and models keeps a pool fair as long as each of them chooses from this very pool, for its model, or from accounts outside it; only the keys asked for change |
| Allocation.GroupsAreApart | internal/store/allocate.go:72-90 | Pools of two different named groups share no account, whatever the models and gates, so runs may mix named groups |
| Allocation.MixedModelsAreUnfair | internal/store/allocate.go:221-236 | Runs may not mix models: two keys that only one account can serve leave the pool of a model that both declare unfair |
| Allocation.ServedIsChargedIff | internal/store/allocate.go:173-209 | The account that serves a request is the one its key is bound to afterwards, and so the one that is charged, if and only if the key is not bound to an account that keeps its keys but is outside the pool of this request |
| Allocation.BorrowedIsNotCharged | internal/store/allocate.go:189-195 | A key whose account serves one model asks for another: the other account serves it and the binding stays |
| Allocation.FreshAssign | internal/store/allocate.go:173-209 | A key without an account is bound to a first-ranked account of the pool, or stays unbound when the pool is empty |
| Allocation.BindingIsLostIff | internal/store/allocate.go:173-209 | A bound key loses its account if and only if the account is missing, outside the key's group, in a disabled group, not usable or without a healthy upstream API; a model mismatch or a rejecting gate changes no key at all |
| Allocation.AssignedAccount | internal/store/allocate.go:221-289 | Whoever serves a request is stored, in scope, in an enabled group, usable, admitted by the gate and healthy for the model, declares the model whenever an eligible account does, and unless the binding is kept nobody in the pool ranks before it; nobody is chosen only if nobody is eligible. What ranking before means is said in fields by Allocation.AssignedGoesFirst |
| Allocation.AssignedGoesFirst | internal/store/allocate.go:253-289 | For the account a key is bound to and every account of the pool: its load times the healthy upstream APIs of the other is at most the load of the other times its own; at equal pressure it has no more keys; with as many keys it is without limit whenever the other is; both alike there, its balance is no lower; at equal balance it is no younger. Kept bindings are told from the counts of the bound account |
| Allocation.PickedGoesFirst | internal/store/allocate.go:239-289 | The head of a pool goes first in that sense, and of accounts that agree in all of it the one stored first |
| Allocation.EligibleIff | internal/store/allocate.go:72-90 | Who is eligible, in fields: stored, of the wanted group or of an enabled one, enabled, not suspended and above its floor, admitted by the gate, with a healthy upstream API for the model |
| Allocation.KeepsWhenHeld | internal/store/allocate.go:178-197 | When a key keeps its account, in fields and counts |
| Allocation.GroupOnIff | internal/store/account.go:550-559 | A group is on when there is none, when it is missing, or when it is enabled |
| Allocation.HealthyIsCounted | internal/store/allocate.go:121-139 | The number of healthy upstream APIs of an account is the number of places in the stored list that are its own, enabled, not paused and take the model |
| Allocation.LoadIsCounted | internal/store/account.go:680-691 | The load of an account is the number of stored keys bound to it |
| Allocation.PoolMembers | internal/store/allocate.go:221-236 | The pool is exactly the eligible accounts, restricted to those that declare the model as soon as one does |
| Allocation.DecisionOnBinding | internal/store/allocate.go:173-209 | Binding anew is decided exactly when the bound account is not healthy on its own terms |
| Allocation.StrangerToPool | internal/store/allocate.go:253-260 | Unless the key keeps its account, that account is not in the pool, so the load index is only read where it is right |
| Allocation.PressureCross | internal/store/allocate.go:294-308 | Comparing pressures as ratios is comparing cross products, for accounts with healthy upstream APIs |
| Sorting.SortHead | internal/store/allocate.go:239-251 | What a stable sort puts first is the first minimum of its order |
| Sorting.SortIsStable | internal/store/allocate.go:239-251 | A stable sort keeps elements of the same rank in order |
| Store.Data.AssignAccountGated | internal/store/allocate.go:173-209 | The in-place assignment does to keys what the function on plain data does, answers with the same account, of which Allocation.AssignedGoesFirst says in fields that it goes first, and keeps the load index equal to the linear count |
| Store.Data.Judge | internal/store/allocate.go:178-197 | Keep, borrow or bind anew, decided from the indexes as from scans |
| Store.Data.BorrowsFor | internal/store/allocate.go:189-195 | A request borrows exactly when the bound account is healthy for the empty model but unsuited to this request |
| Store.Data.BindAnew | internal/store/allocate.go:196-208 | Detaches the key, picks with the load it then has, and binds it; no other load entry changes |
| Store.Data.DetachKeyAccount | internal/store/allocate.go:310-318 | The key loses its account and the count of exactly that account drops by one |
| Store.Data.AttachKeyAccount | internal/store/allocate.go:203-207 | The key gains the account and the count of exactly that account rises by one |
| Store.Data.AccountPoolGated | internal/store/allocate.go:221-236 | The pool built by filtering in place is the pool of the plain data, in stored order |
| Store.Data.UsableAccountsGated | internal/store/allocate.go:72-90 | The usable accounts are the eligible ones of the plain data, in stored order |
| Store.Data.DeclaringAccounts | internal/store/allocate.go:221-236 | The accounts of a pool that declare the model |
| Store.Data.ProviderCounts | internal/store/allocate.go:121-139 | One pass over the account's own upstream APIs gives both counts that scans over all of them give |
| Store.Data.PickFromPool | internal/store/allocate.go:239-251 | Sorting a copy by pressure, load, limit, balance and age and taking its head gives the first minimum of the pool, which goes first in fields as Allocation.PickedGoesFirst says |
| Store.SortedPool | internal/store/allocate.go:239-289 | Sorting by ranks taken beforehand yields the best account of the pool |
| Store.Data.BuildIndexes | internal/store/allocate.go:12-41 | Built indexes answer every lookup like a scan from the end, and the load index counts every key |
| Store.Data.Reindex | internal/store/allocate.go:44-46 | Rebuilding the indexes makes all of them agree with the stored lists and changes nothing stored |
| Store.IndexBy | internal/store/allocate.go:21-36 | Overwriting entries in order leaves the last element of every id |
| Store.IndexOwners | internal/store/allocate.go:26-32 | Every owner maps to its upstream APIs in stored order |
| Store.CountLoads | internal/store/allocate.go:33-40 | The counter map holds the number of keys bound to every account |
| Store.IndexIsScanIffDistinct | internal/store/allocate.go:12-41 | An index (last wins) answers every lookup like a scan (first wins) if and only if no id occurs twice |
| Store.OwnersAnswerScansIff | internal/store/account.go:658-672 | The owner index answers like a scan for every id, the empty one included, if and only if every upstream API has an owner |
| Store.OwnCounts | internal/store/allocate.go:121-139 | Counting over an account's own upstream APIs is counting over all of them |
| Store.Data.FindGroupByID | internal/store/account.go:562-575 | The indexed lookup is the linear scan |
| Store.Data.FindAccountByID | internal/store/account.go:642-655 | The indexed lookup is the linear scan |
| Store.Data.FindProvider | internal/store/store.go:776-786 | The indexed lookup is the linear scan |
| Store.Data.FindKeyBySecret | internal/store/store.go:799-816 | The indexed lookup by digest is the linear scan |
| Store.Data.AccountProviders | internal/store/account.go:658-672 | The owner index gives what a scan gives for every account id |
| Store.Data.KeysUsingAccount | internal/store/account.go:680-691 | The incremental load counter is the linear count over the keys |
| Store.Data.GroupEnabled | internal/store/account.go:550-559 | Accounts without a group, and with a missing or enabled group, are judged as by a scan |
| Store.Data.RemoveKeys | internal/store/store.go:846-870 | Exactly the named keys go, the number is reported, and all indexes are right again |
| Store.Data.RemoveProviders | internal/store/store.go:819-843 | Exactly the named upstream APIs go, the number is reported, and all indexes are right again |
| Store.Data.RemoveAccounts | internal/store/account.go:694-753 | Accounts, their upstream APIs and the bindings of their keys go together, the log grows by their entries and is cut, exactly these entries are reported in stored order, and all indexes are right again |
| Store.Data.RemoveGroups | internal/store/account.go:600-639 | Groups take their accounts with them and free their keys, the number of groups that went is reported, and all indexes are right again |
| Store.Data.CreateAccount | internal/admin/accounts.go:105-145 | An account arrives with at most five upstream APIs, or not at all when no pasted key is usable; index coherence is kept |
| Store.Data.BuildProviders | internal/admin/accounts.go:107-134 | At most five upstream APIs are built, out of the usable pasted keys, in order |
| Store.Data.CreateKey | internal/admin/keys.go:49-53 | A new key is assigned before the indexes know it, and the store still ends coherent |
| Store.Data.CreateKeys | internal/admin/keys.go:119-126 | A batch of new keys is indexed and assigned one by one as the plain data says |
| Store.Data.PatchKey | internal/admin/keys.go:187-211 | A patch rewrites the two bindings of one key, says whether there is such a key, and leaves the store coherent |
| Store.Data.MeterRequest | internal/gateway/chat.go:1186-1245 | A finished request is counted and charged on the account its key is bound to, found through the indexes, and on nothing else |
| Store.Data.Perform | internal/store/store.go:588-610 | Every kind of step, done in place through the indexes, does what it does to plain data, and the store ends coherent |
| Store.Data.PerformAll | internal/store/store.go:588-610 | After any sequence of permitted creations, removals, assignments, patches and metered requests the in-place store is coherent and holds exactly what the run over plain data holds |
| Store.Data.IndexesAnswerScans | internal/store/allocate.go:12-41 | In a coherent store every index answers every id like a linear scan of its list, and the load counter is the linear count |
| Lifecycle.RunKeepsClosed | internal/store/account.go:600-753 | After any run of creations, removals, assignments, metered requests and sound patches every upstream API belongs to a live account, no account has more than five, every bound key points at a live account, the log holds the latest 200 removals, and live plus lost tokens grow by exactly what was metered |
| Lifecycle.StepKeepsClosed | internal/store/account.go:694-753 | The same for one step of any kind |
| Lifecycle.RemovalKeepsClosed | internal/store/account.go:694-753 | Removal leaves no key on a removed account and loses exactly the tokens of entries that fall out of the log |
| Lifecycle.AccountsGo | internal/store/account.go:694-753 | Removing accounts in fields: exactly the others stay, with their upstream APIs, and a key bound to one of them is bound no longer and otherwise the same; when none is stored nothing happens |
| Lifecycle.GroupsGo | internal/store/account.go:600-639 | Removing groups in fields: exactly the other groups stay, and exactly the accounts of other groups; keys of a removed group are in none afterwards, and keys bound to an account that went are bound to none |
| Lifecycle.CreatedIsClosed | internal/admin/keys.go:94-126 | Whatever account a key template names, the new key ends up unbound or with a live account, and nothing else changes |
| Lifecycle.PatchKeepsClosedIff | internal/admin/keys.go:174-224 | A patch keeps the store closed if and only if the account that results is live or empty, since nothing checks the id |
| Lifecycle.PatchMayDangle | internal/admin/keys.go:174-224 | A patch that names an account nobody has leaves a key bound to it |
| Lifecycle.StoredIsClosed | internal/admin/accounts.go:105-145 | A generated account with its upstream APIs keeps the store closed |
| Lifecycle.TruncatedLog | internal/store/account.go:747-750 | Cutting the log to 200 entries early or late is the same |
| Accounts.Usable | internal/store/account.go:878-892 | An account may take traffic exactly when it is enabled, not suspended and not exhausted |
| Accounts.UsableIff | internal/store/account.go:878-907 | The same in fields: a queried balance counts once it has been answered, a balance that the gateway keeps always, and an account with neither has no end |
| Accounts.FloorIs | internal/store/account.go:797-876 | The floor is the configured one, but no less than half a dollar, or than the price of one call or of four thousand tokens where only the gateway keeps the balance |
| Accounts.CostIsLinear | internal/store/account.go:797-830 | A million tokens cost their price and a call costs its own; parts of a usage cost what the whole does, and nothing costs nothing |
| Accounts.Round6IsNearest | internal/store/account.go:918-926 | Rounding gives the nearest whole number of micro-dollars, halves away from zero |
| Accounts.Account.Charge | internal/store/account.go:832-851 | A charge moves the cost between balance and used amount with micro-dollar rounding and reports what was due; accounts without a manual balance only add up what they cost, and no charge changes whether an account is enabled or suspended |
| Accounts.Account.Suspend | internal/store/account.go:940-950 | Suspends once; the first reason stands |
| Accounts.Account.Resume | internal/store/account.go:956-963 | Clears the suspension and its reason |
| Accounts.Account.Apply | internal/accounts/manager.go:178-275 | Writes the answer of a balance query back: balance, used amount and total are the answered ones when they are reported or the source is not a script, and stay otherwise; suspension is settled by the floor, and a failed query only leaves its mark |
| Accounts.Account.RefreshLocally | internal/accounts/manager.go:96-125 | A refresh of a manual balance judges the local numbers |
| Accounts.Account.Administer | internal/admin/accounts.go:261-316 | An administrator enables and resumes, or disables and suspends |
| Accounts.SweepExhausted | internal/accounts/manager.go:447-462 | Suspends exactly the exhausted accounts that suspend themselves and names those that were not suspended before, in order |
| Accounts.ManualBalanceRun | internal/store/account.go:811-926 | Over any run of charges, sweeps, refreshes and administration a manual balance never rises and never goes below zero; balance plus used amount never falls, and until the first clamp it grows by exactly one micro-dollar per charge that lands on half of one |
| Accounts.ManualStep | internal/store/account.go:832-851 | The same for one step |
| Accounts.HalfIsMadeWhole | internal/store/account.go:832-851 | One call at half a micro-dollar raises balance plus used amount by a whole one |
| Accounts.UsableCallIsCovered | internal/store/account.go:811-851 | A per-call price on the micro-dollar grid taken from a usable account never clamps and moves exactly the price |
| Accounts.PerCallConservation | internal/store/account.go:811-851 | Per-call billing of usable accounts conserves balance plus used amount exactly and takes the price of every call |
| Accounts.ExhaustedForGood | internal/store/account.go:859-907 | Once a manual balance is at its floor the account stays exhausted and unusable, whatever happens |
| Accounts.QuerySettles | internal/accounts/manager.go:178-275 | After an answered query the balance is the answered one, unless a script left it out; an account that suspends itself is suspended if and only if that balance is at or below the floor, and an account is usable if and only if that balance is above the floor and it was enabled or suspended before; a failed query moves neither money nor suspension |
| Accounts.RefreshedTakesOver | internal/accounts/manager.go:218-229 | A refresh takes over the answered balance and used amount, keeps what a script left out, and changes neither after a failed query or without one |
| Accounts.LeftOutStays | internal/accounts/manager.go:198-241 | Whatever an answer leaves out of total, plan, currency and unit stays; currency and unit are taken from failed queries too |
| Accounts.VerdictStands | internal/accounts/manager.go:178-275 | Between answers and without administration, billing, sweeps and failed queries never change the verdict: the account keeps the answered balance, and is suspended if and only if that is at or below the floor |
| Metering.Key.RecordUsage | internal/gateway/chat.go:1186-1245 | Key and bound account count the request, its outcome and its tokens, a success is charged to the account, and the key is booked what the account was charged |
| Metering.Counters.Count | internal/gateway/chat.go:1196-1206 | Requests, successes or failures and all token counts move together |
| Metering.Meter | internal/gateway/chat.go:1224-1232 | A success charges the account and bills its cost; a failure bills nothing |
| Metering.KeysAddUp | internal/gateway/chat.go:1186-1245 | Whatever requests are recorded on the keys of an account, every counter of the account, its tokens and its cost grow by exactly what the counters, tokens and costs of the keys add up to |
| Refresh.RunIsSound | internal/accounts/manager.go:287-347 | Every reachable state of the interleaved protocol is sound: entries, channels, verdicts and callers agree |
| Refresh.OneCallInProgress | internal/accounts/manager.go:287-316 | At most one request-path query per account is in progress, in every interleaving |
| Refresh.ClosedIsSettled | internal/accounts/manager.go:327-347 | A channel is closed at most once, and only after the verdict is fully written and the map entry is gone |
| Refresh.ClosedStays | internal/accounts/manager.go:327-347 | Nothing that happens later changes a closed call |
| Refresh.JoinersAgree | internal/accounts/manager.go:287-316 | All callers that hear from one call hear the same verdict, whenever they listen |
| Refresh.RefusalHasReason | internal/accounts/manager.go:287-347 | A caller is told no if and only if its id was empty, it gave up, the account was missing, or a refresh without error left the account suspended or exhausted |
| Refresh.ToldWhatIsRecorded | internal/accounts/manager.go:178-347 | What the waiters of a run are told: after a failed query that the account may be used, after an answered one and after a look at a manual balance whether the account, as it is recorded then, is neither suspended nor exhausted |
| Refresh.RunsFinish | internal/accounts/manager.go:327-347 | A started run always has a next step that brings it closer to closing its channel, and nothing else moves it; an unstarted run has a caller that can start it |
| RetryLoop.Gateway.HandleInference | internal/gateway/chat.go:510-779 | The loop ends although it resets its index; in-flight counters end as they began, usage is recorded at most once and exactly as the last reply says, the sends follow each other as RetryLoop.NextSend says, and the request ends as RetryLoop.EndsIff says |
| RetryLoop.NextSend | internal/gateway/chat.go:591-779 | A send is followed by another if and only if the upstream cannot pay, fewer than three changes of account were made and another account is offered, which is then tried from its first upstream API on, or else the reply was no response, an unreadable body or one of the ten passing statuses and a try is left, which goes to the next upstream API |
| RetryLoop.EndsIff | internal/gateway/chat.go:591-779 | How every run ends, each ending if and only if: an error status is relayed, 401 and 403 as 502, when no account change answers a balance error and the status is not a passing one or no try is left; all upstreams failed and bad bodies when no try is left; no account when an upstream could not pay and none is offered; truncated when that came after a part of the answer |
| RetryLoop.RunBegins | internal/gateway/chat.go:585-597 | A run begins at the first candidate, with as many tries as configured, at least one and no more than there are candidates |
| RetryLoop.SendsAreBounded | internal/gateway/chat.go:591-779 | At most 4 * max(1, MaxRetries) sends, all to upstream APIs that were offered to the request |
| RetryLoop.RecordedUnlessGone | internal/gateway/chat.go:591-779 | Over any run of the loop to its end: no earlier reply delivered a response or ended the request, usage is recorded unless the client went away, with success exactly when the last reply delivered, and with the tokens of that reply |
| RetryLoop.RunAdvances | internal/gateway/chat.go:591-779 | Any later turn of a run has used more changes of account, or stands in the same account exactly as many upstream APIs further; so no send repeats within an account |
| RetryLoop.AgainSteps | internal/gateway/chat.go:591-779 | A step within an account keeps its limit; a change of account begins at the first upstream API |
| RetryLoop.OneRun | internal/gateway/chat.go:591-779 | In one environment the loop makes one sequence of sends |
| RetryLoop.SwitchAccount | internal/gateway/chat.go:607-628 | At most three changes of account; a failed attempt is spent but changes nothing else |
| RetryLoop.Gateway.Settle | internal/gateway/chat.go:634-779 | Every kind of reply is settled, retried or turned into a change of account as the step function says, with one record when it ends the request; RetryLoop.NextSend and RetryLoop.EndsIff say what that is |
| RetryLoop.Gateway.AdjustInflight | internal/gateway/chat.go:1150-1159 | Counters of stored upstream APIs move and never go below zero |
| RetryLoop.BackAndForth | internal/gateway/chat.go:1150-1159 | Counting up and down again restores every counter, for upstream APIs that are no longer stored too |
| Inflight.RunIsExact | internal/gateway/chat.go:1150-1159 | However requests interleave and upstream APIs come and go, every counter is the number of sends under way |
| Inflight.CountersSettle | internal/gateway/chat.go:1150-1159 | Cutting at zero never takes effect, and when all requests are done all counters are zero |
| Inflight.HandledRequestsAreCounted | internal/gateway/chat.go:510-779 | For requests that each go through the retry loop, interleaved in any way: every counter is the number of loops that wait for that upstream API, and each loop waits for the one its own cursor names |
| Authentication.AdmittedIsSound | internal/gateway/chat.go:344-383 | Who is admitted holds an active key; its account is the one the allocator assigns, is usable, suits key, group and model, has room in its rate limit if there is a limiter, and was not refused by a refresh if its balance was stale; without any account the request goes through unbound |
| Authentication.PassedOverForReason | internal/gateway/chat.go:358-383 | An attempt leads to the next one only if the account assigned had a stale balance and its refresh refused it |
| Authentication.NotUsableIsRefused | internal/accounts/manager.go:287-347 | Whoever is told no by a refresh without having given up was told so because the account was missing, suspended or exhausted |
| Authentication.UsableIsNotRefused | internal/accounts/manager.go:287-347 | Whoever is told yes, by a timeout too, was not refused by its refresh |
| Authentication.CountedIff | internal/gateway/chat.go:296-310 | A hit is counted exactly when the account exists, has a positive rate limit and room in the last minute |
| Authentication.KeyErrorsAre | internal/store/model.go:417-428 | Which keys are refused and with which status: disabled and expired ones with 403, ones whose quota is used up with 429 |
| Authentication.RefreshIsDue | internal/store/account.go:1008-1031 | When a request has to wait for a balance query: the account asks for it, is enabled and can be queried, and no balance is recorded or the last is as old as the interval, a minute unless set and an hour at most |
| Authentication.RoomIsKept | internal/gateway/chat.go:281-310 | The room that the gate saw is still there when the hit is counted, however much later, unless another request took it or the limit changed |
| Authentication.Gateway.AuthenticateForModel | internal/gateway/chat.go:358-383 | At most three attempts; all before the last were passed over, the last one decides or nothing is available, and only the admitted account is counted |
| Authentication.Gateway.AssignSession | internal/gateway/chat.go:416-482 | One attempt: key, expiry, quota, allocation in place and staleness decide as the function on plain data says, which runs the allocator and changes the bindings of keys as it does |
| Authentication.Gateway.FindKey | internal/store/store.go:799-816 | The scan finds the first key with the digest |
| Authentication.Gateway.RecordAccountHit | internal/gateway/chat.go:296-310 | With a limiter, an account and a positive limit the limiter allows and records; otherwise nothing changes |
| StreamPump.Pump.PipeStream | internal/gateway/chat.go:1009-1147 | A balance error before any output means nothing was written; the reported count is the counter over exactly the emitted pieces; everything before the last line read is within the cap, and crossing it stops reading and ends the protocol once; a write that fails is the first one that does, and what was written before it is the beginning of the whole response |
| StreamPump.BilledIsCounted | internal/gateway/chat.go:1009-1147 | What is billed for a stream differs from counting its joined text by at most one token per white-space cut, and not at all without one |
| StreamPump.ResponseIsOneMessage | internal/gateway/chat.go:1009-1147 | A finished Anthropic response is one message start, tidy blocks holding all deltas in order, and one ending that reports the counted tokens |
| StreamPump.RawResponse | internal/gateway/chat.go:957-1147 | Without rewriting the caller gets the pieces as they are, then the ending over the limit if that was crossed, and otherwise the mark of the end if the protocol was converted |
| StreamPump.Pump.Emit | internal/gateway/chat.go:1043-1056 | A piece is counted before it is written, and a failed write is the client's |
| StreamPump.Pump.EmitAll | internal/gateway/chat.go:1084-1100 | All pieces of a line are counted and written in order, up to the first failed write |
| StreamPump.Pump.Cut | internal/gateway/chat.go:1105-1120 | Crossing the cap ends the stream in the caller's protocol with the whole response written |
| StreamPump.Pump.Close | internal/gateway/chat.go:1130-1146 | A finished stream ends in the caller's protocol with the whole response written |
| StreamPump.Pump.Write | internal/gateway/chat.go:1036-1040 | The first write sends the headers; a write fails or appends |
| StreamPump.Pump.CloseStream | internal/gateway/chat.go:1062-1075 | Ends the caller's protocol with the counted tokens, and with the forced stop reason if there is one |
| AnthropicStream.StreamGrammar | internal/gateway/anthropic.go:310-430 | Every rewritten stream is one message start, blocks numbered 0, 1, 2, ... each opened, filled only with its own kind of delta and closed before the next, one message delta with the stop reason, one message stop; the deltas are exactly the given ones |
| AnthropicStream.TextIsPreserved | internal/gateway/anthropic.go:310-362 | Concatenated text and thinking deltas are those of the input |
| AnthropicStream.UpstreamSurvives | internal/gateway/stream.go:27-90 | Through conversion and rewriting the upstream text survives, its thinking does not, and of its stop reasons only max_tokens is told apart |
| AnthropicStream.StopReasonSurvives | internal/gateway/stream.go:27-90 | An upstream's last stop reason, wherever in the stream it stands, reaches the client if and only if it is max_tokens or end_turn |
| AnthropicStream.LastEndDecides | internal/gateway/stream.go:27-90 | Of an upstream's stop reasons only the last one counts, and everything but max_tokens is taken for end_turn |
| AnthropicStream.UsageOfLastEvents | internal/gateway/stream.go:27-90 | The usage passed on has the last counts of the upstream and their sum; the model is the given one or else the first that the upstream names |
| AnthropicStream.StopReasonsAre | internal/gateway/anthropic.go:185-200 | Which finish reasons become max_tokens, tool_use and refusal; every other one becomes end_turn |
| AnthropicStream.ToolUseIsLost | internal/gateway/stream.go:27-90 | A stream that stops for tool_use reaches the client as end_turn |
| AnthropicStream.RoundTrip | internal/gateway/anthropic.go:310-430 | Reading a rewritten stream back with the converter gives the text of the chunks and whether the stream was cut |
| AnthropicStream.OneEvent | internal/gateway/stream.go:27-90 | What one upstream event adds to the converted chunks |
| AnthropicStream.Rewriter.Rewrite | internal/gateway/anthropic.go:310-362 | Rewrites one chunk as the transition function says |
| AnthropicStream.Rewriter.Open | internal/gateway/anthropic.go:365-383 | Opens the message once |
| AnthropicStream.Rewriter.SwitchBlock | internal/gateway/anthropic.go:386-408 | Closes the open block and starts one of the wanted kind, unless that kind is open |
| AnthropicStream.Rewriter.Finish | internal/gateway/anthropic.go:410-425 | Ends the message with the stop reason and the counted tokens |
| AnthropicStream.Rewriter.SetStopReason | internal/gateway/anthropic.go:428-430 | Replaces the stop reason and nothing else |
| AnthropicStream.Converter.Convert | internal/gateway/stream.go:27-90 | Converts one event as the transition function says |
| Tokenizer.ChunkIndependence | internal/tokenizer/tokenizer.go:37-107 | For any byte string and any partition, cuts inside runes and words included, the streaming count differs from the one-shot count by at most the number of flush points inside white-space runs, and not at all without one |
| Tokenizer.ChunkedCount | internal/tokenizer/tokenizer.go:37-107 | The streaming count of any partition in closed form |
| Tokenizer.TwoPieces | internal/tokenizer/tokenizer.go:37-107 | Two pieces count like one text if and only if the white-space runs on both sides of the flush have suitable lengths modulo four |
| Tokenizer.DriftIsAttained | internal/tokenizer/tokenizer.go:37-46 | The documented independence of chunking fails: for every n there are texts whose pieces count n too many and n too few, so the bound is sharp |
| Tokenizer.Counter.Add | internal/tokenizer/tokenizer.go:47-71 | Buffers, counts what can be counted and holds the rest back, as the feeding function says |
| Tokenizer.Counter.AddTokens | internal/tokenizer/tokenizer.go:74-78 | Adds a positive number of tokens and touches no buffered byte |
| Tokenizer.Counter.Total | internal/tokenizer/tokenizer.go:81-87 | Reads the count including what is held back, without changing the counter |
| Tokenizer.CountText | internal/tokenizer/tokenizer.go:31-35 | A fed counter reads what the runes of the text count |
| Tokenizer.Scan | internal/tokenizer/tokenizer.go:133-183 | One pass with run counters gives the sum of what every rune adds to its predecessors |
| Tokenizer.CountIsGradual | internal/tokenizer/tokenizer.go:133-183 | A longer prefix never counts less, and one more rune adds at most one token: the monotonicity the binary search rests on |
| Tokenizer.CountSplits | internal/tokenizer/tokenizer.go:133-183 | Counting two halves separately is off by the surplus of the white-space run they share, when no word is cut |
| Tokenizer.FindSplit | internal/tokenizer/tokenizer.go:47-71 | A tail that stops inside a rune or an ASCII word waits for the next piece |
| Tokenizer.SplitPointIsBoundary | internal/tokenizer/tokenizer.go:47-71 | Whatever bytes follow, no rune reaches over the split point |
| Tokenizer.HeldBackStart | internal/tokenizer/tokenizer.go:47-71 | What is held back starts neither with white space nor inside a word |
| Tokenizer.TrimIncompleteRune | internal/tokenizer/tokenizer.go:93-107 | Finds the end of the last complete rune |
| Utf8.DecodeSplits | internal/tokenizer/tokenizer.go:93-121 | Decoding splits at every rune boundary (section 3 of RFC 3629) |
| Utf8.FirstRuneIsLocal | internal/tokenizer/tokenizer.go:93-121 | Decoding the first rune reads no byte beyond its sequence |
| Utf8.EncodeRoundTrip | internal/gateway/inference.go:396-411 | Turning runes into bytes and back is the identity on scalar values |
| Tokenizer.FlushWord | internal/tokenizer/tokenizer.go:139-145 | A finished word adds a token for every four letters begun, and the run starts anew |
| Tokenizer.FlushSpaces | internal/tokenizer/tokenizer.go:146-154 | A finished run of two or more spaces adds a token for every four spaces begun after the first, and the run starts anew |
| OutputCap.TrimToTokens | internal/gateway/inference.go:396-411 | The binary search returns the longest rune prefix within the limit and whether it cut |
| OutputCap.TrimmedText | internal/gateway/inference.go:396-411 | What is kept is a rune prefix, no longer prefix fits, a cut text counts exactly the limit, and trimming again changes nothing |
| OutputCap.LongestWithinIsLongest | internal/gateway/inference.go:396-411 | The longest prefix within the limit, characterised from both sides |
| Response.Payload.EnforceOutputLimit | internal/gateway/inference.go:306-393 | Cuts every field over the hard cap in place and nothing else, and says whether it did |
| Response.CutIsWithin | internal/gateway/inference.go:306-393 | After a cut no field that the limit applies to is over the margin |
| Response.CutFields | internal/gateway/inference.go:306-393 | After a cut the text, the content and both reasoning fields of every choice, the output text and every text part of the output count at most limit + limit/4 + 8 tokens |
| Response.CutIsMarked | internal/gateway/inference.go:306-393 | A response that was cut and has a status says that it is incomplete because of the token limit; its number of choices and items and its content stay |
| Response.MarkedFromCutOn | internal/gateway/inference.go:316-351 | The choices from the first cut one on give length as their finish reason, and the ones before keep theirs |
| Response.EnforcesIff | internal/gateway/inference.go:294-315 | Without a limit, or up to limit + limit/4 + 8 tokens in all, a response stays as it is; beyond it, it is cut if and only if some field is longer than that by itself |
| Response.EnforceIsIdempotent | internal/gateway/inference.go:306-393 | Enforcing twice is enforcing once, and the second time cuts nothing |
| Response.Payload.TrimChoices | internal/gateway/inference.go:316-351 | Cuts the choices in place, and marks a choice as cut as soon as one was |
| Response.Payload.TrimOutput | internal/gateway/inference.go:360-385 | Cuts the output items in place |
| Response.CountCompletionPayload | internal/tokenizer/tokenizer.go:330-372 | One counter runs through all fields, so a word may go on from one field into the next |
| Response.ChoiceIsCounted | internal/tokenizer/tokenizer.go:347-367 | A choice with a message counts its content, then its reasoning, which is reasoning_content unless that is missing or empty and else reasoning, and then its tool calls; its text counts only without a message |
| Response.ItemIsCounted | internal/tokenizer/tokenizer.go:338-346 | An output item counts its content |
| Response.OutputTextIsCounted | internal/tokenizer/tokenizer.go:335-337 | The output text counts first, and a response without fields counts nothing |
| Response.ContentListIsCounted | internal/tokenizer/tokenizer.go:368-371 | A content list of the response itself counts last; anything else there does not |
| Response.ContentIsCounted | internal/tokenizer/tokenizer.go:221-247 | Strings, other JSON and parts are fed as they are, and an image counts 300 tokens |
| Response.CountContentInto | internal/tokenizer/tokenizer.go:221-247 | Strings, lists of parts and other values are fed in order |
| RateLimiter.RefinesLog | internal/balancer/limiter.go:39-106 | Under any interleaving of Allow, Peek and Prune in time order, the pruned in-place limiter answers exactly like one that logs every hit forever |
| RateLimiter.PeekAndPruneAreInvisible | internal/balancer/limiter.go:35-106 | Taking every Peek and Prune out of a run changes no later decision |
| RateLimiter.AtMostLimitPerMinute | internal/balancer/limiter.go:39-75 | No window of one minute, wherever it ends, holds more admitted calls than the limit |
| RateLimiter.AdmittedIff | internal/balancer/limiter.go:39-75 | After any run, a call is admitted if and only if there is no limit or the sixty seconds up to now hold fewer admitted calls than the limit; what remains is what is left of the limit, less the call if it is recorded |
| RateLimiter.RetryAfterIsExact | internal/balancer/limiter.go:59-66 | RetryAfter is the first delay after which the call is admitted if and only if the oldest hit of the window is as old as the limit-th last one |
| RateLimiter.RetryAfterWithFixedLimit | internal/balancer/limiter.go:59-66 | With one limit for a bucket, RetryAfter is always exact |
| RateLimiter.LoweredLimitMisleads | internal/balancer/limiter.go:59-66 | Two calls under a limit of two, then a call under a limit of one: it is refused, and refused again after RetryAfter |
| RateLimiter.OnlyRecordingMatters | internal/balancer/limiter.go:35-37 | Asking and cleaning up leave no trace in the log |
| RateLimiter.Compact | internal/balancer/limiter.go:50-57 | In-place compaction keeps exactly the recent hits, in order |
| RateLimiter.RateLimiter.Decide | internal/balancer/limiter.go:39-75 | Decides as the step function on values says, for unlimited, full and free buckets |
| RateLimiter.RateLimiter.Allow | internal/balancer/limiter.go:27-29 | Decides and records |
| RateLimiter.RateLimiter.Peek | internal/balancer/limiter.go:35-37 | Decides and records nothing |
| RateLimiter.RateLimiter.Prune | internal/balancer/limiter.go:85-106 | Drops old hits and empty buckets |
| Balancer.Balancer.Order | internal/balancer/balancer.go:125-151 | For every strategy and every random number the order is a permutation of the eligible upstream APIs with non-increasing priority, arranged within each priority as the strategy says: rotated by the cursor, sorted stably, or drawn in turn without replacement |
| Balancer.Balancer.OrderLevels | internal/balancer/balancer.go:144-150 | Groups are arranged from the highest priority down |
| Balancer.Balancer.GroupByPriority | internal/balancer/balancer.go:136-143 | Every upstream API goes to the group of its priority, in order |
| Balancer.Balancer.Candidates | internal/balancer/balancer.go:95-122 | Exactly the eligible upstream APIs, in stored order |
| Balancer.Balancer.SortGroup | internal/balancer/balancer.go:162-194 | Round robin rotates by the cursor and advances it with 64-bit wrap-around; the other strategies sort stably or draw |
| Balancer.SortedInFields | internal/balancer/balancer.go:162-194 | Sorting a group in fields: fewest requests under way first and then the heaviest, or the least average latency for its weight first with nothing measured counting as none, or the heaviest first; a rearrangement in which those that agree stay in order |
| Balancer.Balancer.WeightedShuffle | internal/balancer/balancer.go:207-233 | Draws from a shrinking pool in turn |
| Balancer.Draw | internal/balancer/balancer.go:212-230 | One draw picks the position whose running total reaches the target, and the last one otherwise |
| Balancer.DrawnIffInShare | internal/balancer/balancer.go:207-233 | With positive weights a position is drawn exactly for targets in a half-open interval as long as its weight |
| Balancer.DrawsPermute | internal/balancer/balancer.go:207-233 | Whatever the random numbers, everything is drawn exactly once |
| Balancer.RoundRobinIsEvenIff | internal/balancer/balancer.go:167-172 | Over k * n orders each of n upstream APIs comes first exactly k times if and only if the 64-bit cursor does not wrap on the way, or n divides the modulus or what is left of it |
| Balancer.RotationStartsAt | internal/balancer/balancer.go:167-172 | A rotation is complete and starts at the cursor |
| Balancer.Balancer.OrderRepeatedly | internal/balancer/balancer.go:125-172 | Orders that follow each other are rotations that start at consecutive values of the wrapping cursor |
| Balancer.FirstsAreCounted | internal/balancer/balancer.go:167-172 | Among such orders each upstream API comes first as often as the cursor falls on its place |
| Balancer.RoundRobinIsFairIff | internal/balancer/balancer.go:125-172 | Among such orders all upstream APIs of one priority come first equally often if and only if the 64-bit cursor does not wrap on the way, or their number divides the modulus or what is left of it |
| Balancer.WrapIsUneven | internal/balancer/balancer.go:167-172 | Three orders of three upstream APIs across the wrap put the first one first twice |
| Balancer.PreferDeclaredModel | internal/gateway/chat.go:891-908 | A stable partition: declaring upstream APIs first, both parts in order, nothing lost |
| Health.PausedIffFailing | internal/balancer/balancer.go:248-292 | After any run of reports an upstream API is paused exactly when the trailing failures reach the threshold, from the last failure on, for a time that grows with every further failure up to a cap |
| Health.PauseGrows | internal/balancer/balancer.go:271-292 | The pause at the threshold is the basic one, each further failure adds another one, and from the sixth on it stays |
| Health.AverageIsWithin | internal/balancer/balancer.go:248-268 | Although rounded at every step, the average latency stays between the smallest and the largest reported latency |
| Health.AverageIsNear | internal/balancer/balancer.go:248-268 | After n successes, n times the average latency differs from the sum of their latencies by at most n(n-1)/2, so rounding loses less than a unit of the sum with every earlier success; successes and failures are counted as they were reported |
| Health.Provider.ReportSuccess | internal/balancer/balancer.go:248-268 | A success counts with its tokens, clears the pause and the error on record, and moves the average |
| Health.SuccessesAreMetered | internal/balancer/balancer.go:248-292 | After any run of reports the tokens are those of the successes, split into prompt and completion, and the error on record is that of the last report |
| Health.Provider.ReportFailure | internal/balancer/balancer.go:271-292 | A failure counts and is put on record, lengthens the streak and pauses from the threshold on |
| ScriptPrecedence.ChainIsWhole | internal/script/parser.go:201-282 | Any chain of operands and operators is read as the tree whose root is the last of its loosest operators, with such trees on both sides, whatever tokens the operands are written with |
| ScriptPrecedence.ThreeOperands | internal/script/parser.go:201-282 | For all operands and operators of a op1 b op2 c: products bind tighter than sums, sums than comparisons, these than equality, that than "&&", and that than the or operator and "??"; on one level the left one comes first; "&&", the or operator and "??" make logical nodes |
| ScriptPrecedence.ConditionIsWhole | internal/script/parser.go:178-199 | A condition binds less tightly than every operator, and its branches are whole expressions, conditions and assignments among them |
| ScriptPrecedence.AssignmentIsWhole | internal/script/parser.go:154-176 | An assignment to a variable, a member or an element binds least and takes everything to its right |
| ScriptPrecedence.WholeIsScript | internal/script/parser.go:96-111 | A script is a whole expression, after which a semicolon may stand |
| ScriptPrecedence.UnaryIsOperand | internal/script/parser.go:284-298 | Unary operators bind tighter than operators between two operands |
| ScriptPrecedence.BaseIsOperand | internal/script/parser.go:300-363 | Members, elements and calls bind tighter than unary operators |
| ScriptPrecedence.MemberIsBase | internal/script/parser.go:305-315 | A name behind a dot makes a member of what stands before it |
| ScriptPrecedence.ParenthesisedIsOperand | internal/script/parser.go:446-459 | An expression in parentheses is an operand, however loosely it binds |
| ScriptPrecedence.PrintedIsOperand | internal/script/parser.go:96-770 | Every printable expression is an operand when it is printed with parentheses where it needs them |
| ScriptPrecedence.NumberIsBase | internal/script/parser.go:399-408 | Numbers may stand before members, elements and calls |
| ScriptPrecedence.VariableIsBase | internal/script/parser.go:422-444 | So may names that are neither words of the language nor refused |
| ScriptPrecedence.WordsAre | internal/script/parser.go:386-446 | The four literal words, the thirty-one refused words, and every other word as a variable |
| ScriptPrinter.ReadScript | internal/script/parser.go:96-111 | The parser inverts a precedence-aware printer for the whole language: every printable expression, with functions and statements inside, whose cost fits the node budget is read back from its printed form, with or without a semicolon |
| ScriptImage.PrintableIffParsed | internal/script/parser.go:96-770 | Within the node budgets a tree is printable if and only if some token list parses to it, so the printer misses nothing the parser makes |
| ScriptImage.Reprinted | internal/script/parser.go:96-770 | Whatever token list parses, the printed form of its tree parses to the same tree, within the node budgets |
| ScriptImage.ProgramIsGood | internal/script/parser.go:96-111 | Every parsed script is a well-formed tree: operators at their levels, assignments to targets only, variables that are no reserved words, fields and declarations in step |
| ScriptImage.StatementIsGood | internal/script/parser.go:638-735 | An else always belongs to the nearest if: a parsed statement that an else could go on is not followed by one |
| ScriptPrinter.ReadFunction | internal/script/parser.go:527-555 | Function literals are read back with their parameters and their statements |
| ScriptPrinter.ReadBody | internal/script/parser.go:617-636 | Statements up to the closing brace are read back in order |
| ScriptPrinter.ReadStatement | internal/script/parser.go:638-680 | Every printable statement is read back, in front of anything but an else that it would take for its own |
| ScriptPrinter.ReadIf | internal/script/parser.go:709-735 | Conditional statements are read back, chained and nested ones included, with every else where it belongs |
| ScriptPrinter.ReadForOf | internal/script/parser.go:741-770 | Loops are read back |
| ScriptPrinter.ReadDecls | internal/script/parser.go:682-707 | Declarations of several names are read back with and without values |
| ScriptPrinter.ReadReturn | internal/script/parser.go:638-680 | Returns are read back with and without a value |
| ScriptPrinter.ReadExprStmt | internal/script/parser.go:638-680 | An expression in parentheses is never taken for another statement |
| ScriptPrinter.ReadParams | internal/script/parser.go:527-555 | Parameter names are read back |
| ScriptPrinter.ReadBare | internal/script/parser.go:156-298 | An expression that is bare at a level is read back at that level, in front of anything that stops it, and costs what the cost function says |
| ScriptPrinter.ReadLevel | internal/script/parser.go:201-282 | An operand printed for a level is read back where that level is expected |
| ScriptPrinter.ReadLeft | internal/script/parser.go:240-266 | Left operands of a chain are read back with the chain still open |
| ScriptPrinter.ReadOperator | internal/script/parser.go:240-266 | An operator expression leaves the chain of its level with itself as left operand |
| ScriptPrinter.ReadTail | internal/script/parser.go:300-363 | Members, elements and calls are read back however many follow each other |
| ScriptPrinter.ReadAssign | internal/script/parser.go:156-199 | Assignments, conditions and arrow functions are read back |
| ScriptPrinter.ReadArrowBody | internal/script/parser.go:512-525 | A printed arrow body never looks like a block |
| ScriptPrinter.ReadList | internal/script/parser.go:365-384 | Arguments and elements are read back between commas |
| ScriptPrinter.ReadFields | internal/script/parser.go:557-594 | Object fields are read back after those read so far |
| ScriptPrinter.ReadSources | internal/script/parser.go:399-468 | The expressions of a template are scripts of their own |
| ScriptPrinter.ReadLiteral | internal/script/parser.go:399-468 | Literals, variables, arrays, objects, templates and functions are read back |
| ScriptPrinter.ReadWrapped | internal/script/parser.go:399-468 | Parentheses around an expression read back as the expression |
| ScriptParser.Parser.Program | internal/script/parser.go:96-111 | A script is one expression and an optional semicolon; anything behind it is an error; parses what the recursive description says, ends, and never reads past the end of file |
| ScriptParser.Parser.Expression | internal/script/parser.go:147-152 | An expression costs a node; parses what the recursive description says, ends, and never reads past the end of file |
| ScriptParser.Parser.AssignExpr | internal/script/parser.go:156-176 | Assignments associate to the right, and only to names, members and elements; parses what the recursive description says, ends, and never reads past the end of file |
| ScriptParser.Parser.Conditional | internal/script/parser.go:178-199 | Conditions nest to the right; parses what the recursive description says, ends, and never reads past the end of file |
| ScriptParser.Parser.LogicalOr | internal/script/parser.go:201-219 | Chains of or and of nullish operators; parses what the recursive description says, ends, and never reads past the end of file |
| ScriptParser.Parser.LogicalAnd | internal/script/parser.go:221-238 | Chains of and; parses what the recursive description says, ends, and never reads past the end of file |
| ScriptParser.Parser.BinaryLevel | internal/script/parser.go:268-282 | The four binary levels; ScriptPrecedence.ChainIsWhole says which operands belong to which operator; parses what the recursive description says, ends, and never reads past the end of file |
| ScriptParser.Parser.Chain | internal/script/parser.go:240-266 | The loop builds the left-associated tree of the recursive description; parses what the recursive description says, ends, and never reads past the end of file |
| ScriptParser.Parser.UnaryExpr | internal/script/parser.go:284-298 | Unary operators; parses what the recursive description says, ends, and never reads past the end of file |
| ScriptParser.Parser.Postfix | internal/script/parser.go:300-363 | The loop over members, elements and calls; parses what the recursive description says, ends, and never reads past the end of file |
| ScriptParser.Parser.TailStep | internal/script/parser.go:300-363 | One turn of that loop shrinks the input and keeps what the whole parses to |
| ScriptParser.Parser.MemberName | internal/script/parser.go:300-363 | Names behind a dot, keywords included; parses what the recursive description says, ends, and never reads past the end of file |
| ScriptParser.Parser.ElementOf | internal/script/parser.go:300-363 | Elements in brackets; parses what the recursive description says, ends, and never reads past the end of file |
| ScriptParser.Parser.Arguments | internal/script/parser.go:365-384 | Calls; parses what the recursive description says, ends, and never reads past the end of file |
| ScriptParser.Parser.List | internal/script/parser.go:365-384 | Lists with an optional last comma; parses what the recursive description says, ends, and never reads past the end of file |
| ScriptParser.Parser.Primary | internal/script/parser.go:399-468 | Literals, parentheses, objects, arrays and templates; parses what the recursive description says, ends, and never reads past the end of file |
| ScriptParser.Parser.NameOrArrow | internal/script/parser.go:399-468 | Literal words, functions, arrow functions of one parameter, banned words and variables; parses what the recursive description says, ends, and never reads past the end of file |
| ScriptParser.Parser.Parenthesised | internal/script/parser.go:399-468 | Arrow parameters are tried before a parenthesised expression; parses what the recursive description says, ends, and never reads past the end of file |
| ScriptParser.Parser.TryArrowParams | internal/script/parser.go:471-509 | The lookahead moves behind the arrow exactly when names and an arrow follow, and otherwise restores the position |
| ScriptParser.Parser.CollectNames | internal/script/parser.go:471-509 | Names separated by any commas, and nothing else |
| ScriptParser.Parser.ArrowBody | internal/script/parser.go:512-525 | A block or an expression; parses what the recursive description says, ends, and never reads past the end of file |
| ScriptParser.Parser.FunctionLiteral | internal/script/parser.go:527-555 | A function with an optional, ignored name; parses what the recursive description says, ends, and never reads past the end of file |
| ScriptParser.Parser.Params | internal/script/parser.go:527-555 | Parameter names; parses what the recursive description says, ends, and never reads past the end of file |
| ScriptParser.Parser.Fields | internal/script/parser.go:557-594 | Object fields: key, colon and value; parses what the recursive description says, ends, and never reads past the end of file |
| ScriptParser.Parser.TemplateExprs | internal/script/parser.go:399-468 | Every template expression is parsed as a script with a node count of its own; parses what the recursive description says, ends, and never reads past the end of file |
| ScriptParser.Parser.Body | internal/script/parser.go:617-636 | Statements up to the closing brace; parses what the recursive description says, ends, and never reads past the end of file |
| ScriptParser.Parser.Statement | internal/script/parser.go:638-680 | Statements by their first token; parses what the recursive description says, ends, and never reads past the end of file |
| ScriptParser.Parser.ReturnStatement | internal/script/parser.go:638-680 | Return with and without a value; parses what the recursive description says, ends, and never reads past the end of file |
| ScriptParser.Parser.Declaration | internal/script/parser.go:682-707 | Declarations of several names; parses what the recursive description says, ends, and never reads past the end of file |
| ScriptParser.Parser.IfStatement | internal/script/parser.go:709-735 | Conditional statements, chained; parses what the recursive description says, ends, and never reads past the end of file |
| ScriptParser.Parser.ForOfStatement | internal/script/parser.go:741-770 | Loops over a list; parses what the recursive description says, ends, and never reads past the end of file |
| ScriptParser.Parser.LoopVariable | internal/script/parser.go:741-770 | The head of a loop; parses what the recursive description says, ends, and never reads past the end of file |
| ScriptParser.Parser.Next | internal/script/parser.go:113-114 | Moving on never leaves the token list |
| ScriptParser.Parser.SkipPunct | internal/script/parser.go:132-138 | Skips a token exactly when it is there |
| ScriptParser.Parser.Count | internal/script/parser.go:116-122 | The node budget |
| ScriptEvaluator.EvalConfig | internal/script/script.go:109-120 | Evaluating a script takes at most 200001 steps and changes nothing that existed before: all scopes, objects and arrays it leaves are new and lead nowhere else. The stack is used up only in a run that put an object or an array into an older one or made more of them than the stack is deep, and then there is no result; a script that is an object literal comes to an object with exactly its keys, its extractor is the function that is written there, and one that is written in literals only fails at the step limit |
| ScriptEvaluator.Extract | internal/script/script.go:271-291 | Calling the extractor takes at most the steps of two runs, changes nothing that existed before, and answers with a new object or not at all; with a used-up stack never. For a script written in literals whose extractor declares, decides and returns an object literal made of literals, parts of the response named by its parameter, unary operators, comparisons and arithmetic, the answer has exactly the fields that the response gives them, and is missing only at the step limit |
| ScriptValues.EndsIff | internal/script/eval.go:608-637 | Some stack is deep enough for turning a value into text, or for exporting it, if and only if no array, or no object and no array, that the value leads to contains itself; and then as many levels as there are containers are enough |
| ScriptValues.TextIffBounded | internal/script/eval.go:608-637 | A value has a text on a stack of some depth if and only if the way down through its arrays ends within that depth |
| ScriptEvaluator.Interp.ConversionsEndIff | internal/script/eval.go:608-793 | The same for all that a run has made, for texts and for JSON |
| ScriptEvaluator.Interp.AgeBounds | internal/script/eval.go:608-793 | In a run that has put no object and no array into an older one, the way down from a value ends after at most as many levels as the run has made objects and arrays |
| ScriptEvaluator.TextOfItself | internal/script/eval.go:364-440 | An array that was put into its own first place, and then added to a text, uses up every stack, however deep |
| ScriptEvaluator.JsonOfItself | internal/script/builtins.go:150-160 | Writing such an array as JSON does so too |
| ScriptEvaluator.Interp.ToText | internal/script/eval.go:608-637 | A conversion gives exactly the text of the value, elements joined by commas and nullish ones empty, or uses up the stack when the way down is longer than the stack is deep |
| ScriptValues.TextsAre | internal/script/eval.go:608-637 | The texts of undefined, null, truth values, texts, numbers and objects, and of short arrays, whose elements are joined by commas with nullish ones empty |
| ScriptEvaluator.Interp.Export | internal/script/eval.go:772-793 | An exported document says what the value says at every depth, without undefined fields, with keys in order and functions as null, or the stack is used up, exactly when the way down is longer than it |
| ScriptEvaluator.Interp.Eval | internal/script/eval.go:90-161 | Every expression takes a step, and no run takes more than one beyond the limit; evaluation stays inside what the run made, adds no name to an existing scope, takes no field from an object and changes no array's length, although closures may call each other through their scopes. It comes to a value, to an error, or to a used-up stack, the last only in a run that put an object or an array into an older one or made more of them than the stack is deep. An expression whose value the reference evaluator `Known` gives (literals, templates, functions with the scope they were made in, variables, members, conditions, operators, calls of built-in functions, and calls of script functions, nested as deep as one likes, whose statements declare, assign to variables of their own, decide, loop and return) comes to exactly that value without changing anything, unless the step limit is reached |
| ScriptEvaluator.Interp.EvalLogical | internal/script/eval.go:199-219 | Short circuits: the right side counts only when the left one does not decide |
| ScriptEvaluator.Interp.LogicalOperators | internal/script/eval.go:199-219 | The left side is the result when it is false, true, or neither null nor undefined, and otherwise the right side is |
| ScriptEvaluator.Interp.EvalBinary | internal/script/eval.go:221-259 | Operators on known values give what the reference evaluator says: equality, order of texts by bytes and of numbers, joined texts within the length limit, and arithmetic as the language computes it |
| ScriptEvaluator.Interp.OperatorsOnTexts | internal/script/eval.go:221-259 | Sums, comparisons and equality of two texts: joining up to 1048576 bytes, byte order, and being the same |
| ScriptEvaluator.Interp.OperatorsOnNumbers | internal/script/eval.go:221-259 | Comparisons and equality of two finite numbers, and arithmetic as the language computes it |
| ScriptEvaluator.Interp.OperatorsOnKinds | internal/script/eval.go:653-707 | Values of two kinds: never strictly equal, loosely as numbers, null and undefined only with each other; sums with texts join, others add numbers |
| ScriptEvaluator.Interp.EvalUnary | internal/script/eval.go:181-197 | Negation, signs and types of known values, texts read as numbers by the language |
| ScriptEvaluator.Interp.UnaryOperators | internal/script/eval.go:181-197 | What unary operators make of every kind of plain value |
| ScriptValues.FalsyAre | internal/script/eval.go:539-553 | Undefined, null, false, zero, NaN and the empty text count as false and nothing else does |
| ScriptValues.FirstDifferenceDecides | internal/script/eval.go:709-722 | Texts are compared by their first difference; a beginning is less than the whole |
| ScriptEvaluator.Interp.EvalArray | internal/script/eval.go:125-134 | An array literal is a new array as long as the literal, of the values of its elements |
| ScriptEvaluator.Interp.EvalObject | internal/script/eval.go:115-124 | An object literal is a new object with exactly the keys of the literal, each with its last value; functions written in it are its fields, and when all values are known it has exactly these |
| ScriptEvaluator.Interp.Invoke | internal/script/eval.go:333-362 | A call takes a step, keeps what evaluation keeps and is put on record with its outcome. A built-in function that makes nothing answers exactly what the reference answer says; a script function comes to what its expression comes to behind its parameters, to what its first return gives, or to undefined, and to a new object with the fields of the literal it returns, whenever the reference interpreter knows its body |
| ScriptEvaluator.Interp.RunClosure | internal/script/eval.go:340-361 | A closure runs in a new scope with its parameters, in front of the scope it was made in, and its value is that of its expression or of its first return |
| ScriptEvaluator.ParameterIsBound | internal/script/eval.go:340-348 | A parameter is bound to the argument in its place, or undefined when there is none, unless a later one has its name |
| ScriptEvaluator.Interp.RunBody | internal/script/eval.go:350-361 | The first return gives the value of a call, and the end of the statements gives undefined |
| ScriptEvaluator.Interp.Answer | internal/script/script.go:271-291 | The extractor is called with a value that mirrors the response; what it is told to return is exactly what it answers |
| ScriptEvaluator.Interp.ToldIsMade | internal/script/eval.go:333-362 | What a function tells of a document, read from the document itself, is the object that calling it on a mirror of the document makes |
| ScriptEvaluator.Interp.EvalCall | internal/script/eval.go:294-330 | The same for call expressions, with optional calls and array methods: a call of a known built-in or script function with known arguments comes to its answer |
| ScriptEvaluator.Interp.ImmediateCalls | internal/script/eval.go:333-362 | In the reference evaluator, an arrow function called where it is written gives its expression with the parameters bound to the arguments, a function that returns a number gives that number, and one without statements undefined |
| ScriptEvaluator.Interp.OptionalAccess | internal/script/eval.go:261-330 | In the reference evaluator, optional members, elements and calls of null and undefined come to undefined, whatever stands behind, and plain ones have no value |
| ScriptEvaluator.Interp.EvalMember | internal/script/eval.go:261-285 | The value of a member is the property of the base, nullish bases are refused or, behind an optional access, come to undefined without a look at the key; members also hand on what they are a member of |
| ScriptEvaluator.Interp.EvalAssign | internal/script/eval.go:364-414 | After an assignment to a name the variable of the innermost scope that has the name holds the value of the assignment; a known one changes nothing else, and what it assigns is the value or, compound, what the operator makes of what the target held and the value. A known member or element holds the value afterwards |
| ScriptEvaluator.Interp.Combine | internal/script/eval.go:369-379 | A plain assignment takes the value, a compound one what its operator makes of what a known target holds and the value, in that order |
| ScriptEvaluator.Interp.AssignName | internal/script/eval.go:62-70 | Assigning changes the variable of the innermost scope that has the name, and fails without changing anything when none has it |
| ScriptEvaluator.Interp.Lookup | internal/script/eval.go:53-60 | The innermost scope that has the name decides |
| ScriptEvaluator.Interp.SetProperty | internal/script/eval.go:399-413 | Sets a field, or an element that exists, and refuses everything else unchanged |
| ScriptEvaluator.Interp.Exec | internal/script/eval.go:451-500 | A statement adds to the current scope exactly the names it declares, and to no other scope any; statements that the reference interpreter knows end as it says and leave the variables it says in the scopes they run in, or hit the step limit |
| ScriptEvaluator.Interp.DeclareOne | internal/script/eval.go:461-473 | A declaration gives the variable the known value of its initializer, or undefined, in the current scope and changes nothing else |
| ScriptEvaluator.Interp.ExecDeclaration | internal/script/eval.go:461-473 | Declarations take effect in order, each initializer seeing the variables before it |
| ScriptEvaluator.Interp.ExecInside | internal/script/eval.go:456-500 | Expressions, assignments to local variables, conditions with both branches, blocks, loops and returns end as the reference interpreter says; nothing is declared outside |
| ScriptEvaluator.Interp.ExecIf | internal/script/eval.go:484-495 | A condition runs the branch that it chooses in a scope of its own, or nothing |
| ScriptEvaluator.Interp.ExecExpression | internal/script/eval.go:458-460 | A known expression changes nothing; a known assignment to a local variable changes that variable |
| ScriptEvaluator.Interp.ExecBlock | internal/script/eval.go:442-449 | A block adds what its statements declare; an error or a return ends it early, and known statements end as the first return among them says, each run with the variables the ones before left |
| ScriptEvaluator.Interp.ExecForOf | internal/script/eval.go:502-522 | Loops end, each turn costs a step and has a scope of its own; a loop over a known array or text whose turns are known ends as the reference interpreter says |
| ScriptEvaluator.Interp.ForList | internal/script/eval.go:502-522 | Elements are read as they are when their turn comes; the number of turns is fixed because arrays keep their length; known turns run with each element in order, each with the variables the ones before left, up to the first return |
| ScriptEvaluator.Interp.LoopAddsUp | internal/script/eval.go:502-522 | In the reference interpreter a loop that adds its element to a variable leaves there the elements added up from the first to the last, and nothing else changed |
| ScriptEvaluator.Interp.ForText | internal/script/eval.go:502-537 | The same for the characters of a text |
| ScriptEvaluator.Interp.ExecTurn | internal/script/eval.go:511-520 | A turn counts a step and runs the body in a scope that holds the element |
| ScriptEvaluator.Interp.CallArray | internal/script/array.go:13-140 | Array methods visit elements in order, each with its place, by calls on record, and their results are made of the answers: all of them, the elements with a true answer, the first such element, whether there is one or all are true, or what is handed on from call to call; a search stops at the first answer that settles it. Sorting rearranges, joining puts the elements of array arguments behind those of the array up to the size limit, and pushing is refused |
| ScriptEvaluator.Interp.Concat | internal/script/array.go:120-133 | The new array is the old one and then the arguments, arrays by their elements, or the size limit is reported |
| ScriptEvaluator.Interp.Quantify | internal/script/array.go:51-65 | True or false as the first answer that settles the question says, or as the lack of one does; no element behind it is visited |
| ScriptEvaluator.Interp.MapOver | internal/script/array.go:15-25 | The new array holds the answers of the callback, called once for every element in order, with the element and its place |
| ScriptEvaluator.Interp.FilterOver | internal/script/array.go:26-38 | The new array holds the elements for which the callback answered something true, in order |
| ScriptEvaluator.Interp.FindIn | internal/script/array.go:39-50 | The first element for which the callback answers something true, after which nothing is visited, or undefined |
| ScriptEvaluator.Interp.Reduce | internal/script/array.go:74-96 | Every call is handed the answer of the one before, the first one the initial value or the first element, and the last answer is the result |
| ScriptEvaluator.Interp.Sort | internal/script/array.go:97-119 | Without a comparator the new array holds the elements in the stable order of their texts; with one it is a rearrangement, whatever the comparator answers or does |
| ScriptEvaluator.Interp.Slice | internal/script/builtins.go:307-333 | The part of an array between two places, counted from the end when negative and cut to the array |
| ScriptValues.PlacesAre | internal/script/builtins.go:307-333 | Where slices begin and end: missing places are the ends, places before the beginning count from the end and stop at the beginning, and places behind the end are the end |
| ScriptEvaluator.Interp.CallList | internal/script/builtins.go:243-304 | Joining, slicing and searching arrays: joined texts, exact parts, and the first element that strictly equals what is sought; methods that call back are refused here |
| ScriptEvaluator.Interp.CallText | internal/script/builtins.go:335-402 | Methods of texts answer what the reference answer says; their arguments are turned into text first, and splitting makes a new array of the pieces |
| ScriptEvaluator.Interp.CallGlobal | internal/script/builtins.go:17-221 | Conversions, tests and mathematics answer what the reference answer says; parsed JSON becomes values that mirror the document, and written JSON is that of a document that says what the value says |
| ScriptEvaluator.Interp.Build | internal/script/eval.go:741-769 | A decoded document becomes new objects and arrays that say what the document says, at every depth; repeated keys keep their last value |
| ScriptEvaluator.Interp.LooseEqual | internal/script/eval.go:653-707 | Nullish values equal exactly nullish values, and strictly only their own kind; strictly equal values are of one type; texts, truth values and numbers compare by what they are, and texts and truth values as numbers in loose comparisons; objects and arrays equal only themselves, and empty ones nothing |
| ScriptEvaluator.Interp.Arithmetic | internal/script/eval.go:417-440 | A sum with a text joins the texts of both up to the length limit; everything else is computed from the numbers that the values stand for, and other operators are refused |
| ScriptEvaluator.Interp.Tick | internal/script/eval.go:82-88 | Counts a step and reports the limit |
| ScriptEvaluator.Interp.GetProperty | internal/script/builtins.go:224-304 | Fields of objects, elements and lengths of arrays and texts, and built-in functions bound to what they belong to; everything else is undefined, and reading changes nothing |
| ScriptEvaluator.Interp.CallBuiltin | internal/script/builtins.go:17-221 | Built-in functions answer with plain values or new arrays and objects and change nothing that exists; those that make nothing answer exactly what the reference answer says |
| ScriptEvaluator.Interp.GlobalValue | internal/script/builtins.go:17-55 | Exactly the built-in names are known; every use of a built-in object makes a new one with all its functions |
| ScriptEvaluator.GlobalNames | internal/script/builtins.go:17-55 | The five built-in objects and the seven other built-in names |
| ScriptEvaluator.Interp.EvalTemplate | internal/script/eval.go:163-179 | A template with known expressions is its chunks and their texts in turn; no template exceeds the length limit in bytes |

## Left out

- Balancer.RoundRobinIsEvenIff: covers at most 2^64 orders, that is one wrap of the cursor, and multiples of the number of upstream APIs.
- ScriptPrinter.ReadScript: says that parsing succeeds when the cost of the printed form fits the node budget, not when it fails.
- ScriptImage.PrintableIffParsed: is about trees whose printed form and whose templates fit the node budgets; the printed form may cost more nodes than the script it came from, since expressions that are statements get parentheses.
- Store.Data.PerformAll: covers the steps named; settings, upstream health and hand-made changes of an account's fields go through the same two methods of the program but are not steps here.
- ScriptEvaluator.Interp.Eval: the value is stated for expressions that `Known` covers; functions made inside a call, calls of functions that change anything but their own variables or use what they make, callbacks of array methods, assignments inside larger expressions and comparisons of two functions are covered by cost and framing only, and so is a return of anything made but an object literal. How numbers read as texts, arithmetic, mathematics, searching and replacing in texts and the text of JSON are functions of the language (`Host`), about which nothing is assumed. One number stands for the depth of the stack wherever a conversion starts, and evaluation itself uses none of it.
- ScriptEvaluator.EvalConfig: says which keys the result has and which function its extractor is, not what the other values are. Conversions of the result outside the run (`internal/script/script.go:123-185`) are not modelled; what `ScriptValues.EndsIff` says holds for them too.
- ScriptEvaluator.Extract: states the fields for extractors that `ToldBy` covers, which declare variables, decide and return an object literal of literals, parts of the response, unary operators, comparisons and arithmetic; what other extractors answer is stated call by call by `Interp.Invoke`, and otherwise by cost and framing.
- ScriptEvaluator.Interp.Invoke: states the outcome when the reference interpreter knows the body.
- ScriptEvaluator.Interp.EvalCall: states the outcome when callee, arguments and body are known; a call that makes an object is covered by `Interp.Invoke` only.
- ScriptEvaluator.Interp.ExecForOf: states what the turns do when the reference interpreter knows them.
- ScriptEvaluator.Interp.ForList: states what the turns do when the reference interpreter knows them.
- ScriptEvaluator.Interp.ExecInside: states the ending of statements that the reference interpreter knows.
- ScriptEvaluator.Interp.DeclareOne: states the value for known initializers and missing ones.
- ScriptEvaluator.Interp.EvalArray: states the elements when all of them are known.
- ScriptEvaluator.Interp.EvalObject: states the values when all of them are known; fails on a literal with fewer values than keys, which the parser never builds.
- ScriptEvaluator.Interp.EvalLogical: states the value when the deciding sides are known.
- ScriptEvaluator.Interp.LooseEqual: whether two functions are the same one is left open.
- ScriptEvaluator.Interp.Sort: with a comparator, which elements are compared and exchanged is left open; only that the result is a rearrangement, and that every comparison costs a step, is stated.
- Accounts.Account.Apply: check and update times and the wording of an error or a suspension are not modelled.
- Accounts.ManualBalanceRun: works on exact reals; the rounding errors of 64-bit floats are not modelled.
- Health.Provider.ReportSuccess: the time of last use is not modelled; the same holds for reports of failures.
- Store.Data.AssignAccountGated: is about stored keys; a missing key, which the program answers with no account, is not modelled, and neither are the update times it writes.
- Refresh.OneCallInProgress: is about refreshes on the request path; `Refresh`, `RefreshAll` and `RefreshIDs` query without looking at the pending calls.
- Authentication.Gateway.AuthenticateForModel: a blank secret is a missing digest, one attempt reads the clock once for its gate, its assignment and its staleness, and the stored data between attempts are what other requests made of them; a peek that compacts a bucket does not show. The session names the account only.
- RetryLoop.Gateway.HandleInference: reports to the balancer, response headers and the list of attempts in error bodies are not modelled; one send is one step.
- RetryLoop.SendsAreBounded: the number of retries is a setting that may differ between changes of account; the bound is four times its maximum.
- StreamPump.Pump.PipeStream: lines arrive decoded into pieces; buffering, flushing and the upstream's own usage figures are not modelled.
- AnthropicStream.StreamGrammar: covers normal and over-limit endings; `finishTruncatedMessages` (`internal/gateway/anthropic.go:442-457`), which always names block 0, is not part of it.
- Response.CountContentInto: a single part outside a list is a list of one part, and values that are neither text nor parts are their JSON text.
- RateLimiter.Compact: works on a copy of the bucket, where the program reuses the slice's own memory.
- Metering.Key.RecordUsage: suspension at the floor after billing is one step with it; times of last use are not modelled.
- The lexer (`internal/script/lexer.go`) is not modelled; a template expression that cannot be split into tokens is the token source `Unreadable`.
- Script settings, placeholders and results (`internal/script/script.go`) beyond evaluation and extraction.
- HTTP, JSON, event-stream framing, routing, embedded pages, encryption, sessions, password hashing and saving to disk.
- The wording of balance errors and wildcard patterns of model names, which are predicates here.
- Input validation, group summaries, account totals and model listings, which would only add easy members.
- An update of the store whose function fails does not rebuild the indexes; the functions modelled here fail before they change anything.
