# A model of yakusoku's `Promise`

yakusoku is a small JavaScript promise library. This project models its
whole core: the `Promise` constructor and the `run` routine that runs the
executor, the settle routines `fulfill` and `reject`, `then` together with
its two adapters, `enqueueOrExecuteHandler`, `catch`/`rescue`, and the
static operations `Promise.resolve`, `Promise.reject`, `Promise.all` and
`Promise.race`. The model is written in Dafny, and the properties are
proved about that model.

The program's heap is modelled as a `World` (in `promises.dfy`), which
holds five things:

- the promise table, where a promise is named by its index and has a
  status, a value and a handler list;
- the FIFO queue of zero-delay timers that `then` sets;
- the synchronous call stack of the settle cascade;
- the variables of every `all` executor;
- the variables of every `race` executor.

The call stack is kept as a list of frames:

- `Settle`: one call of `fulfill` or `reject`;
- `Drain`: the `forEach` over a handler list, with the entries still to
  visit;
- `Fire`: one adapter call;
- `Recheck`: the second `if` of `enqueueOrExecuteHandler`.

Keeping the stack explicit lets one settle call start handlers, which
settle further promises, and so on re-entrantly. Each part of that cascade
is its own move. `Step` makes one move of the JavaScript thread: it runs
the top frame if the stack is non-empty, otherwise it runs the oldest
timer. `Run` makes a number of moves.

Modules:

- `types.dfy` (`Types`): values, statuses, callbacks, handlers, records,
  frames and timers.
- `aggregators.dfy` (`Aggregators`): the closures `all` and `race` create,
  as pure transitions over their shared variables (`settled`, `count`,
  `values`). Here lie the proofs that `all` fills its slots by position
  and that both combinators settle at most once.
- `promises.dfy` (`Promises`): the world, the public operations and the
  move function.
- `invariants.dfy` (`Invariants`): facts that hold in every reachable
  world. Between turns a settled promise has no handlers left. A settled
  promise never becomes pending again. Timers run in FIFO order.
- `walks.dfy` (`Walks`): the `forEach` of `fulfill` and `reject` followed
  across the whole re-entrant cascade it starts. Every handler queued when
  the settle call began is called once, in registration order, and the
  list is empty when the walk is over.
- `adapters.dfy` (`Adapters`): each branch of the two adapters `then`
  installs, run in any world from the timer that registers them on a
  settled parent until the call stack is empty again.
- `scenarios.dfy` (`Scenarios`): whole programs traced move by move to an
  idle world. They cover recovery through `catch`, an executor that
  throws, forwarding when a callback is missing, the one-level unwrapping
  of a promise result, `all` over two values, and `race` won by a
  rejection.

Where this library departs from the usual promise design, the model
follows the library's code:

- `fulfill` and `reject` have no guard against settling twice, so the
  last settle call wins. For example, an executor that resolves and then
  throws leaves the promise rejected.
- The executor's `resolve` does not adopt a promise value. It stores the
  promise object as the value.
- The fulfilment adapter of `then` unwraps a promise result one level
  only. It calls that promise's `then` with the same callbacks and
  resolves its own target with the promise this returns.
- `Promise.all([])` and `Promise.race([])` fulfil at once with
  `undefined`.

User callbacks are opaque: `Env` maps a callback number and an argument to
an outcome, which is either a returned value or a thrown value. An
executor is a script of `resolve(v)`, `reject(v)` and `throw v` steps.
A capability that the program keeps and calls later, from an outside
timer, is modelled by `Deliver`. It applies only between turns, when the
call stack is empty.

## Model

| member | source | states |
|---|---|---|
| Types.StatusOf | src/promise.js:163-182 | `fulfill` writes FULFILLED and `reject` writes REJECTED; neither writes PENDING |
| Promises.Executed | src/promise.js:184-195 | the executor steps that run form a prefix of the script; it stops exactly at the first throw and includes it |
| Promises.RunExecutor | src/promise.js:184-195 | after `run`, the record has the status and value of the last settle call or throw that ran; if none ran, the record is unchanged; the handler list stays empty |
| Promises.NewPromise | src/promise.js:7-13 | the constructor appends one record, the fresh pending record with the executor applied, under a new id; the timers and the call stack are untouched |
| Promises.PromiseResolve | src/promise.js:17-21 | `Promise.resolve(v)` is a new promise fulfilled with `v` itself, even when `v` is a promise |
| Promises.PromiseReject | src/promise.js:23-27 | `Promise.reject(e)` is a new promise rejected with `e` |
| Promises.Then | src/promise.js:110-139 | `then` returns a new pending promise; its only other effect is one timer that will register the adapter pair (target, onFulfilled, onRejected) on the parent |
| Promises.Catch | src/promise.js:157-161 | `catch(f)` is `then` with no fulfilment callback and `f` as the rejection callback |
| Promises.EnqueueOrExecute | src/promise.js:141-155 | a pending parent gets the handler appended and nothing else changes; a fulfilled parent calls the fulfilment adapter with its value and checks the status again afterwards; a rejected parent calls the rejection adapter with its value |
| Promises.CallAll | src/promise.js:47-64 | calling an `all` closure updates only that aggregator's variables and makes exactly the settle call the aggregator decides on |
| Promises.CallRace | src/promise.js:91-103 | calling a `race` closure updates only that aggregator's flag and makes exactly the settle call it decides on |
| Promises.InvokeFrames | src/promise.js:121-132 | calling a user callback or a combinator closure adds frames on top of the caller's stack; the promise table and the timers are unchanged |
| Promises.AdapterFrames | src/promise.js:114-136 | an adapter call keeps the caller's stack below its own frames; it only appends fresh pending promises (through the `then` of the one-level unwrap); it sets at most one timer |
| Promises.MicroFrames | src/promise.js:163-182 | a move of the call stack keeps every frame below the top one; it adds promises only as fresh records; it extends the timer queue by at most one |
| Promises.RunTask | src/promise.js:113-114 | a timer runs oldest first and is removed from the queue |
| Promises.WrapFacts | src/promise.js:29-37 | input i is represented by itself when it is a promise, and otherwise by a new promise fulfilled with it; existing promises, timers and the stack are unchanged |
| Promises.SubscribeFacts | src/promise.js:65-71 | the loop makes one fresh then-promise and one timer per input, in input order; timer j registers closure pair j on input j |
| Promises.AllFacts | src/promise.js:29-73 | `all([])` is fulfilled with `undefined` at once; otherwise `all` returns a pending promise with a fresh aggregator of `\|vals\|` slots, and timer i attaches slot i's closures to the promise standing for input i |
| Promises.RaceFacts | src/promise.js:75-108 | `race([])` is fulfilled with `undefined` at once; otherwise `race` returns a pending promise with a fresh `settled` flag, and every input gets the same shared pair of closures |
| Aggregators.FreshAll | src/promise.js:44-46 | an `all` executor starts unsettled, with a count of zero and one slot per input |
| Aggregators.AllOnFulfilled | src/promise.js:47-57 | once settled, the closure does nothing; otherwise it resolves exactly when the count reaches the input length, and it resolves with the array of slots |
| Aggregators.AllOnRejected | src/promise.js:58-64 | the first rejection rejects with its reason and sets `settled`; any later call does nothing |
| Aggregators.AllSettledIsInert | src/promise.js:48-50 | after `settled` is set, every further sequence of closure calls leaves the state unchanged and settles nothing |
| Aggregators.AllFillsSlots | src/promise.js:51-53 | before the last input fulfils, the combined promise is unsettled, the count equals the number of arrivals, and each arrival sits in its own slot |
| Aggregators.AllFulfilsPositionally | src/promise.js:47-57 | `all` fulfils exactly when the last of its inputs fulfils, with an array whose slot i holds input i's value, whatever the arrival order |
| Aggregators.AllRejectsOnFirstFailure | src/promise.js:47-64 | the first rejection before the count completes rejects with its reason; every call before and after it has no effect |
| Aggregators.AllSettlesAtMostOnce | src/promise.js:44-64 | under any sequence of closure calls, the combined promise is settled at most once, and it stays settled afterwards |
| Aggregators.RaceOn | src/promise.js:91-103 | the first closure call settles with its own side and value; later calls do nothing |
| Aggregators.RaceFirstWins | src/promise.js:90-103 | under any non-empty sequence of arrivals, only the first arrival settles the combined promise |
| Invariants.DrainMoves | src/promise.js:167-170 | a visit of the `forEach` that has a handler left calls that handler's adapter for the settled side with the promise's current value, and the walk continues with the remaining handlers after it returns; the visit past the last handler empties the list, keeps status and value, and returns to the caller |
| Invariants.RecheckMoves | src/promise.js:148-153 | the second `if` of `enqueueOrExecuteHandler`, reached after the fulfilment adapter returns, calls the rejection adapter with the current value exactly when the parent is rejected by then; otherwise it does nothing |
| Invariants.SettleMoves | src/promise.js:163-168 | a settle call walks the handler list it finds at that moment |
| Invariants.GrowKeepsHandlersInert | src/promise.js:7-13 | adding records with no handlers keeps the handler invariant |
| Invariants.StepKeepsHandlersInert | src/promise.js:163-182 | every move keeps the invariant that a settled promise with handlers is still having its list walked |
| Invariants.DeliverKeepsHandlersInert | src/promise.js:187-191 | an outside settle call between turns keeps the handler invariant |
| Invariants.ApplyKeepsHandlersInert | src/promise.js:7-139 | every public operation and every move keeps the handler invariant |
| Invariants.ReplayHandlersInert | src/promise.js:7-195 | every world reachable from the empty world satisfies the handler invariant |
| Invariants.SettledHandlersEmptyWhenIdle | src/promise.js:163-182 | between turns, in every reachable world, a settled promise holds no handlers, because the list was cleared at the end of its walk (`Walks.SettleCallsEveryHandler` states that each entry was called) |
| Invariants.StepNeverUnsettles | src/promise.js:163-182 | a settled promise never becomes pending again |
| Invariants.StepQueueIsFifo | src/promise.js:113-137 | timers run in the order they were set; a move either runs the oldest timer or appends at most one new one |
| Walks.WalkWaits | src/promise.js:167-169 | while a handler's own work runs above the walk, the walk keeps its place: the same list, the same next handler, the caller's frames untouched |
| Walks.WalkVisits | src/promise.js:167-170 | a visit calls the next handler, and only that one, with the promise's current value, then continues with the handler after it; the visit past the end empties the list and returns to the caller |
| Walks.StepMovesWalk | src/promise.js:167-170 | every move of the thread either leaves a walk in place, advances it by exactly one handler, or ends it with the list emptied |
| Walks.WalkRuns | src/promise.js:167-170 | over any number of moves, the handlers a walk has called form a prefix of its remaining list, in order, each once; once the walk is over it has called all of them and the list is empty |
| Walks.SettleCallsEveryHandler | src/promise.js:163-182 | `fulfill`/`reject` writes status and value, then calls the handlers queued at that moment one by one, in registration order and each exactly once, whatever the handlers set off in between; a run that reaches the end of the walk has called every one of them, is back at the caller's frames and has left the list empty |
| Adapters.WalkEndThenRecheck | src/promise.js:148-153 | after the fulfilment adapter settled a target with no handlers, the walk over that target ends and the second `if` finds the parent not rejected and does nothing |
| Adapters.RejectionCallbackSettlesTarget | src/promise.js:126-135 | on a rejected parent, the rejection callback is called with the reason; the then-promise is fulfilled with what it returns or rejected with what it throws; nothing else changes but the consumed timer |
| Adapters.MissingRejectionCallbackForwards | src/promise.js:126-130 | on a rejected parent with no rejection callback, the then-promise is rejected with the parent's reason; nothing else changes but the consumed timer |
| Adapters.FulfilmentCallbackSettlesTarget | src/promise.js:114-125 | on a parent fulfilled with a plain value, the fulfilment callback is called with it; the then-promise is fulfilled with what it returns or rejected with what it throws; the second test then does nothing |
| Adapters.MissingFulfilmentCallbackForwards | src/promise.js:114-119 | on a parent fulfilled with a plain value and no fulfilment callback, the then-promise is fulfilled with that value |
| Adapters.PromiseValueUnwrappedOnce | src/promise.js:114-117 | on a parent fulfilled with a promise `q`, no callback is called yet: `q.then` with the same callbacks makes one fresh promise and one timer, and the then-promise is fulfilled with that fresh promise |
| Scenarios.SecondArrivalResolvesAll | src/promise.js:47-57 | the arrival of a plain value that completes an `all` over two inputs first fulfils the combined promise with both values in input order, then fulfils the closure's own then-promise with `undefined` |
| Scenarios.ExecutedStopsAtThrow | src/promise.js:186-194 | a throw in the executor ends it; the steps after the throw never run |
| Scenarios.ExecutorThrowRejects | src/promise.js:192-194 | an executor that throws leaves the promise rejected with the thrown value, whatever it resolved or rejected before |
| Scenarios.ResolveThenThrowIsRejected | src/promise.js:184-195 | with no guard, resolving and then throwing ends rejected |
| Scenarios.SettleCallsFirstHandler | src/promise.js:163-169 | a settle call writes status and value, then calls the first queued handler with that value before the others |
| Scenarios.DrainEndEmptiesList | src/promise.js:170 | after the walk, the handler list is cleared; status and value stay |
| Scenarios.LaterRejectOverwrites | src/promise.js:173-182 | a later `reject` of a fulfilled promise overwrites its status and value |
| Scenarios.PendingRegistrationFiresOnSettle | src/promise.js:141-170 | registering on any pending promise appends the handler to the end of its list, changes no other promise and consumes the timer; the later settle call writes its side and value and calls the handlers registered before it and then this one, in order, each once |
| Scenarios.SettledRegistrationFiresAtOnce | src/promise.js:147-154 | a handler registered on a settled promise is called at once with the promise's outcome |
| Scenarios.RecoveryLaw | src/promise.js:126-135 | in `Promise.reject(e).catch(f).then(g)`, a returning `f` fulfils the catch promise, and `g` then settles the last promise; after nine moves the world is idle |
| Scenarios.ExecutorThrowReachesCatch | src/promise.js:127-130 | an executor's throw rejects the promise; a `then` with no rejection callback forwards the rejection, and the `catch` callback receives the thrown value |
| Scenarios.MissingCallbackForwards | src/promise.js:118-119 | `then` with no fulfilment callback fulfils its promise with the parent's value unchanged |
| Scenarios.PromiseResultUnwrapsOneLevel | src/promise.js:116-117 | a callback that returns a promise `c` fulfils `then`'s promise with `c` itself (no adoption); the next adapter unwraps one level by calling `c.then(g)` and is fulfilled with that new promise, which `g`'s outcome settles once `c` is fulfilled |
| Scenarios.AllOfTwoPlainValues | src/promise.js:29-73 | `Promise.all([x, y])` over plain values is fulfilled with `[x, y]` once both slots have arrived |
| Scenarios.RaceFirstRejectionWins | src/promise.js:75-108 | in `Promise.race([rejected, x])`, the earlier rejection settles the combined promise; the later fulfilment leaves it unchanged |

## Left out

- Wall-clock time: the timers of `setTimeout(…, 0)` are a FIFO queue. A
  caller's own timers appear only as `Deliver` calls between turns.
- `Promise.length`, the `Promise.Status` export and `module.exports`
  (src/promise.js:15, 197-198): these are declarations with no behaviour.
- Side effects of user callbacks: a callback is a pure function from its
  argument to a returned or thrown value. It cannot create promises or
  call capabilities synchronously.
- Executor capabilities called later, after the constructor returned:
  these are modelled by `Deliver`, not inside the executor script.
- Promise ids outside the table and aggregator numbers outside their
  lists: no program can produce them, and the model treats them as
  no-ops.
- `Aggregators.AllOnFulfilled`: a write to a slot index outside the array
  is dropped rather than growing the array. The only closures ever
  created use indices below the input length.
- Promises.EnqueueOrExecute: the second `if` is kept as a separate
  `Recheck` frame, and `Invariants.RecheckMoves` states when it fires. It
  can only fire if the fulfilment adapter's cascade rejects the parent
  synchronously. No lemma proves that this never happens in a reachable
  world. `Adapters.FulfilmentCallbackSettlesTarget` shows it does nothing
  when the then-promise is not the parent.
- Walks.SettleCallsEveryHandler: termination of the synchronous cascade
  is not proved. The complete-walk part is stated for runs that end the
  walk within `n` moves. Each handler receives the promise's value at the
  moment of its visit, because the source reads `self.value` in the loop.
- Adapters.FulfilmentCallbackSettlesTarget: requires the then-promise to
  differ from its parent. This always holds in the library, because
  `then` creates a new promise.
- The combinator-closure branches of the adapters (`all` and `race`
  callbacks) have no all-worlds run lemma. They are covered by
  `Promises.CallAll`, `Promises.CallRace` and the scenarios.
- The scenario lemmas describe concrete programs: the callbacks are
  arbitrary, but the shape of each program is fixed.
- Value equality is structural. JavaScript's object identity is not
  modelled, apart from promises, which are compared by id.
