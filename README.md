# eth-ws connection core in Dafny

This project models `WsEth`, the WebSocket JSON-RPC connection of the eth-ws
library (`index.js`). The model covers four things:

- the request id counter `rpc_id`;
- the pending-request table `requestQueue`;
- the transaction tracking table `statusEmitters`, together with the status emitter objects;
- the subscription table `subscriptions`.

The operations are `call`, `subscribe`, the inbound dispatcher
`handleMessage` and the per-block confirmation tracker `handleNewBlock`. The
model proves what each of them does to that state.

Layout:

- `values.dfy` (`JsValues`): the JavaScript values the connection handles. It defines
  truthiness, `String(x)` and `Map.get` key matching.
- `params.dfy` (`Params`): how the `params` array of an envelope is built.
- `txhash.dfy` (`TxHash`): the hash pattern `^0x([A-Fa-f0-9]{64})$`. A matcher is
  proved equal to a declarative statement of the pattern's language. The test
  is applied to `String(result)`, as `RegExp.prototype.test` does.
- `events.dfy` (`Events`): the records of what the connection produces. These are
  the envelopes sent, the promise outcomes, and the emitted events as a trace.
- `dispatch.dfy` (`Dispatch`): how `handleMessage` classifies a frame.
- `tracker.dfy` (`Tracker`): the status emitter record and the receipt poll's
  `.then`/`.catch` handlers, as pure functions.
- `machine.dfy` (`Machine`): the whole connection as a state machine, one step
  function per socket event or application call. It also holds the invariants
  and the lemmas about the steps.
- `connection.dfy` (`Connection`): the class `WsEth`. Its fields are the tables and
  its methods update them in place. Every method is proved to move the
  connection from a state `s` to the state the machine's step function gives
  for `s`. `handleNewBlock` is a `while` loop whose invariant ties it to the
  machine's `Polls`.

The connection keeps three invariants:

- `Valid`: ids, envelopes, emitters and pending entries are numbered consistently.
- `HashesChecked`: only results that passed the hash check are tracked as hashes.
- `ReceiptsOnce`: every `receipt` event is for an emitter that has left the
  table, and after it that emitter emits nothing more, neither a second
  `receipt` nor a `txHash`.

The third one holds only once the receipt poll's handlers are guarded (see
"## Findings"). The model uses the guarded handlers. `SettleAsWritten` keeps
the handlers as the source writes them.

A call's promise is modelled by three things:

- its settlement, recorded in `results` (the first settlement wins);
- the continuation its `resolve`/`reject` feed: the application, the
  `.then`/`.catch` of `subscribe`, or the handlers of one receipt poll;
- the handlers, which run in the same step as the settlement.

The socket's send callback is the step `SendCompleted`. The outcome of a
receipt poll reaches the connection like any other response, through
`HandleMessage`. Block numbers are integers.

Three behaviours of the code worth knowing:

- **Unknown or repeated response ids.** A response whose id is not pending is
  not dropped silently. Line 83 dereferences the missing entry and throws. The
  status-emitter part at lines 72-81 has already run by then.
  `UnknownResponseThrows` and `DuplicateResponseThrows` state this.
- **Pushes to an unknown subscription.** These are not dropped either. Line 69
  emits them under the channel `undefined`.
- **Which calls get a status emitter.** Every call creates one, not only calls
  expected to return a transaction hash. So every response runs the hash check.
  A tracked call whose result is not a hash emits "Tx Hash was not received!"
  and leaves the table.

## Model

| member | source | states |
|---|---|---|
| Params.ParamsLayout | index.js:24-29 | the params list holds the positional arguments of `params` in order (all elements of an array, a truthy non-array as one element, nothing for a falsy one), followed by `defaultBlock` exactly when it is truthy |
| Params.FalsyDefaultBlockOmitted | index.js:29 | a falsy `defaultBlock`, such as the default 0, is omitted rather than sent |
| Params.ArrayIsSpread | index.js:28 | an array `params` is spread element by element, not pushed as one nested element |
| TxHash.MatchPatternCorrect | index.js:75 | the matcher accepts a string iff it is `0x` followed by exactly 64 hexadecimal digits of either case and nothing else |
| TxHash.MatchesTxHashByKind | index.js:75 | a string result passes iff it is such a hash; undefined, null, booleans, numbers and plain objects never pass |
| TxHash.MatchedIsTruthy | index.js:91 | a value that passed the hash check is truthy, so the `!emitter.txHash` skip cannot fire on a recorded hash |
| TxHash.Examples | index.js:75 | a 66-character mixed-case hash passes; an upper-case `0X` prefix, a short hash and a non-hash fail |
| Dispatch.HasInfixAt | index.js:67 | the `indexOf(...) !== -1` search succeeds iff the marker occurs at some position |
| Dispatch.PushMethodExamples | index.js:67 | `eth_subscription` is a push; `eth_subscribe` and a missing method are not |
| Tracker.PollSetsStartBlock | index.js:93 | a completed poll changes only `startBlock`: it becomes the block number when unset or 0, otherwise it keeps its value |
| Tracker.PollVerdict | index.js:92-102 | a completed poll removes the emitter iff a receipt came or `blocksSince` reached 50; removal comes with exactly one `receipt` event (the receipt with `blocksSince`, or the timeout error); staying emits nothing |
| Tracker.PollFailureVerdict | index.js:103-107 | a failed poll with an error object emits one `receipt` event whose message carries the `eth_getTransactionReceipt error: ` prefix, and removes the emitter |
| Tracker.QuietPollsWait | index.js:93-95 | from a fresh start, up to 50 polls without a receipt (`blocksSince` 0 to 49) emit nothing and keep the emitter |
| Tracker.QuietPollsTimeout | index.js:95-97 | the 51st poll without a receipt (`blocksSince` 50) emits the timeout error and removes the emitter; later blocks change nothing, which `QuietPolls` builds in and which `Machine.RemovedStaysRemovedOnBlock` and `Machine.NewBlockPollsExactly` prove for the connection |
| Tracker.TimeoutScenario | index.js:95-97 | tracking from block 100: blocks 100 to 149 bring no timeout, block 150 times out |
| Tracker.ReceiptScenario | index.js:98-101 | tracking from block 100: a receipt arriving with block 105 is emitted with `blocksSince` 5 and ends tracking |
| Machine.InitialValid | index.js:6-15 | the freshly constructed connection satisfies all three invariants |
| Machine.CallFacts | index.js:20-45 | a call takes id `rpc_id + 1`, which no table has used, and sends one envelope under it with the built params; it registers the id in `requestQueue` with its continuation and in `statusEmitters` with a fresh emitter; no other entry changes and the invariant is kept |
| Machine.IdsStrictlyIncrease | index.js:26 | envelope ids are strictly increasing, so they are never reused |
| Machine.SettleAsWrittenFacts | index.js:83 | the handlers as written record the outcome unless the promise already settled; they leave ids, envelopes, pending entries and tracked hashes unchanged; only the polled emitter can leave `statusEmitters`, and nothing is added |
| Machine.SettleFacts | index.js:83 | settling records the outcome unless the promise already settled; it leaves ids, envelopes, pending entries and tracked hashes unchanged; only the polled emitter can leave `statusEmitters`, and nothing is added |
| Machine.SettleSubscription | index.js:53-60 | a fulfilled `eth_subscribe` maps the server id to the channel name and calls back `cb(false, id)`; a rejected one emits `subError` and calls back `cb(err)`, leaving the table unchanged |
| Machine.SubscriptionRoutesPushes | index.js:53-69 | end to end: after a fulfilled `eth_subscribe` for channel N answered with server id X, the table maps X to N; a later push for a primitive X emits its result under N; a push whose subscription is an array or object goes to the channel undefined |
| Machine.HashCheckValid | index.js:72-81 | the hash check keeps the invariant and touches neither pending requests nor settlements |
| Machine.HashCheckTracked | index.js:72-81 | for a tracked id: a `txHash` event first; the result becomes the tracked hash iff it matches; otherwise a "Tx Hash was not received!" receipt error is emitted and the id leaves the table |
| Machine.MalformedFramesThrow | index.js:64-72 | a prefixed frame throws, with the state unchanged, when JSON.parse rejects it, when its method is truthy but neither a string nor an array, or when it is a push (a string or array method containing `_subscription`) whose params are null or undefined; a response whose id is not a number, such as the string "1", matches no request and throws without changing anything |
| Machine.NonProtocolFrameIgnored | index.js:64 | a frame without the `{"jsonrpc` prefix changes nothing and throws nothing |
| Machine.PushOnlyEmits | index.js:67-70 | a push emits its `result` unmodified under the channel mapped from its subscription (undefined when unmapped) and changes nothing else |
| Machine.SettleAfterCheck | index.js:81-85 | the settlement after the hash check keeps the check's events as a prefix, keeps the id's membership in the table and keeps its hash |
| Machine.ResponseHashCheck | index.js:72-81 | the hash check's events and verdict survive the settlement that follows, whether or not the id is still pending |
| Machine.ResponseResolves | index.js:82-85 | a response for a pending id rejects with `error` when it is truthy and otherwise resolves with `result`, unless the promise already settled; exactly that id leaves `requestQueue` |
| Machine.UnknownResponseThrows | index.js:82-83 | a response whose id is not pending throws, leaving pending requests, settlements and subscriptions unchanged |
| Machine.DuplicateResponseThrows | index.js:82-85 | a second response for the same id throws instead of being dropped |
| Machine.ReceiveValid | index.js:63-86 | every outcome of `handleMessage` keeps the invariant |
| Machine.SettledValid | index.js:83-85 | removing a pending id and settling it keeps the invariant |
| Machine.SendDoneFacts | index.js:30-32 | a send error rejects a promise that has not settled yet, but leaves its `requestQueue` entry; a successful send changes nothing |
| Machine.ListenersValid | index.js:38-43 | attaching or detaching a `receipt` listener keeps the invariant |
| Machine.EmptyTableNoPolls | index.js:88 | with an empty tracking table a block changes nothing, so the `size` guard only saves the loop |
| Machine.PollTargets | index.js:89-91 | every id the loop polls is a tracked emitter with a truthy hash and a receipt listener |
| Machine.PollTargetsExact | index.js:89-91 | the polled ids are exactly the tracked emitters that have a truthy hash and a receipt listener, each once, in increasing order |
| Machine.PollsShape | index.js:89-92 | the loop takes one new id per polled emitter and leaves existing emitters and their tracking as they were; the new emitters are fresh and tracked |
| Machine.PollsStep | index.js:89-92 | one turn of the loop polls emitter m iff it was pollable when the block arrived, with its tracked hash |
| Machine.PollsRequests | index.js:92 | the loop registers one receipt poll per target under the next ids, in order, and leaves existing pending entries unchanged |
| Machine.PollsSent | index.js:92 | the loop sends one `eth_getTransactionReceipt` envelope per target, in order, carrying the emitter's tracked hash and no default block |
| Machine.PollsValid | index.js:89-108 | the loop keeps the invariant |
| Machine.NewBlockPollsExactly | index.js:88-92 | a new block issues a receipt poll for an emitter iff it is tracked, has a truthy hash and has a receipt listener; removed, unlistened and hashless emitters get no request; no existing emitter changes |
| Machine.NewBlockPollsPollable | index.js:89-92 | a pollable emitter gets a new receipt request for this block |
| Machine.NewBlockPollsOnlyPollable | index.js:89-92 | an emitter given a new receipt request for this block was pollable when the block arrived |
| Machine.AddedEntriesSkipped | index.js:89 | visiting the emitters the loop itself added would change nothing, so visiting only the ids present when the block arrived is the same |
| Machine.NewBlockValid | index.js:87-110 | a new block keeps the invariant |
| Machine.RemovedStaysRemovedOnMessage | index.js:79 | an emitter out of the table is not put back by any message |
| Machine.RemovedStaysRemovedOnBlock | index.js:97 | an emitter out of the table is not put back by a new block |
| Machine.RemovedStaysRemovedOnCall | index.js:45 | a call adds only its own new id to the table |
| Machine.CallKeepsHashes | index.js:35 | a call keeps the hash invariant: its new emitter has no hash |
| Machine.ReceiveKeepsHashes | index.js:75-76 | only a result that passed the check is recorded as a tracked hash, and settling never changes a hash |
| Machine.SendDoneKeepsHashes | index.js:31 | a send error keeps the hash invariant |
| Machine.ListenersKeepHashes | index.js:38 | listener changes keep the hash invariant |
| Machine.NewBlockKeepsHashes | index.js:92 | a new block keeps the hash invariant |
| Tracker.HandlersReceiptIffRemoved | index.js:92-107 | either poll handler emits a `receipt` event exactly when it removes the emitter, and then only that one event |
| Machine.CallKeepsReceiptsOnce | index.js:45 | a call keeps the tracking-ends-once invariant: it emits nothing and tracks only its own new emitter |
| Machine.HashCheckKeepsReceiptsOnce | index.js:78-79 | the hash check emits `txHash` only for a tracked emitter, and its receipt error only last and together with the emitter's removal, keeping the invariant |
| Machine.SettleKeepsReceiptsOnce | index.js:92-107 | with the guard, a poll's handlers emit a `receipt` event only for a still-tracked emitter and remove it when they do, keeping the invariant |
| Machine.ReceiveKeepsReceiptsOnce | index.js:63-86 | with the guard, every outcome of `handleMessage` keeps the invariant |
| Machine.SendDoneKeepsReceiptsOnce | index.js:31 | with the guard, a send error keeps the invariant |
| Machine.ListenersKeepReceiptsOnce | index.js:38 | listener changes keep the invariant |
| Machine.NewBlockKeepsReceiptsOnce | index.js:88-92 | a new block adds no event and tracks only new emitters, keeping the invariant |
| Machine.SettleGuard | index.js:92-107 | with the guard, a poll answer for an emitter that has left the table only settles the promise; as written, the handlers still run on it: a receipt object appends a `receipt` event with its `blocksSince`, and a failed poll's error object appends a `receipt` event for that emitter |
| Machine.TrackingOneReachable | index.js:20-85 | the starting state of the overlapping-polls scenario is reached from the constructed, open connection by one call, its hash response and one `receipt` listener |
| Machine.TwoPollsInFlight | index.js:87-92 | blocks 100 and 101 arriving before the first poll is answered leave two receipt polls for the same emitter pending |
| Machine.OverlappingPollsAsWritten | index.js:92-101 | as written, the two answers make the emitter emit `receipt` twice, the second time after it has left the table |
| Machine.OverlappingPollsGuarded | index.js:92-101 | with the guard, the same answers emit `receipt` once, and both promises settle |
| Machine.PollableExactly | index.js:90-91 | in a reachable state an emitter is polled iff it is tracked, has a hash and has a receipt listener; the truthiness test never excludes a recorded hash |
| Connection.WsEth.constructor | index.js:6-15 | all tables are empty, the counter is 0, and all three invariants hold |
| Connection.WsEth.Opened | index.js:17 | the socket's opening sets only the open flag |
| Connection.WsEth.Request | index.js:20-45 | the body of `call`, in place: the new state is `CallStep` of the old one, the returned id is the new `rpc_id`, and the invariants hold |
| Connection.WsEth.Call | index.js:16-47 | an application call on an open connection performs `CallStep` and returns the new id |
| Connection.WsEth.Subscribe | index.js:48-62 | `subscribe(name)` on an open connection issues `eth_subscribe` with `name` and no default block, and feeds the outcome to the subscription handlers |
| Connection.WsEth.SettleRequest | index.js:83 | resolve/reject and the chained handlers, a receipt poll's guarded by the emitter still being tracked, update the tables as `Settle` says |
| Connection.WsEth.CheckHash | index.js:72-81 | the status-emitter part of a response updates the tables as `HashCheck` says |
| Connection.WsEth.HandleMessage | index.js:63-86 | the new state and the exception thrown are exactly what `Receive` gives, and all three invariants hold, the third with the guard |
| Connection.WsEth.SendCompleted | index.js:30-32 | the send callback updates the tables as `SendDone` says |
| Connection.WsEth.AddReceiptListener | index.js:38 | attaching a `receipt` listener adds one to that emitter's listener count and changes nothing else |
| Connection.WsEth.RemoveReceiptListener | index.js:40 | detaching an attached listener takes one from the count (listeners are counted, not identified, so `off` of a function never attached is not modelled) |
| Connection.WsEth.HandleNewBlock | index.js:87-110 | the forEach loop polls, in increasing id order, every emitter that passes the skip rules when the block arrived; the new state is `NewBlock` of the old one and all three invariants hold |

## Left out

- Connection.WsEth.Call: requires an open connection. Calls made before `open` are deferred through `once('open')` (index.js:17-19), and that deferral is not modelled.
- Connection.WsEth.Subscribe: requires an open connection. The deferred form (index.js:49-51) is not modelled; it re-subscribes without the caller's `cb`.
- Connection.WsEth.HandleNewBlock: requires an open connection, because its polls go through `call`.
- The WebSocket transport: `send` is recorded as the `sent` trace. The send callback's outcome is an input of `SendCompleted`.
- JSON.parse and JSON.stringify: `HandleMessage` takes the decoded message, or its absence when parsing throws, next to the raw text. Only the prefix check reads the raw text. Envelopes are kept unserialised.
- `parseInt(block.number)`: block numbers are given as integers. The `newHeads` wiring (index.js:13) is left to whoever calls `HandleNewBlock`.
- Promise scheduling: a promise's handlers run in the same step as its settlement. Microtask interleaving with other socket events is not modelled.
- The grafting of EventEmitter methods onto the promise (index.js:35-44): only the `receipt` listener count is kept, since it is the only value the connection reads. `once` listeners are not modelled.
- `emit` semantics: events go to a trace. Listeners, and the special `error` event of EventEmitter, are not modelled.
- `setCommon` and `signTransaction` (index.js:111-126) delegate to the `@ethereumjs/common` and `@ethereumjs/tx` packages, which are not part of this model.
- Numbers are integers. Fractional numbers, NaN and number formatting beyond integers are not modelled. The wording of a runtime TypeError is not modelled either.
- Machine.PushOnlyEmits: a push on the channel `"newHeads"` also runs `handleNewBlock` in the same call. This happens because index.js:13 listens for `newHeads` on the connection, and index.js:69 emits on it. The model records only the emission. The new block's polls are left to a following `HandleNewBlock(n)` step, with n the header's block number.
- Connection.WsEth.HandleMessage: the same limit applies. A `"newHeads"` push does not poll within the call.
- Connection.WsEth.SettleRequest and Machine.Settle: these follow the corrected handlers described under "## Findings", not the handlers as written. The unguarded version is `Machine.SettleAsWritten`.

## Findings

| source | as written | input that shows it | evidently intended | confidence | as-written member | corrected member |
|---|---|---|---|---|---|---|
| index.js:92-107 | the `.then`/`.catch` handlers of a receipt poll act on the emitter they captured, even after an earlier poll's handler deleted it from `statusEmitters` | emitter 1 tracked with one `receipt` listener; blocks 100 and 101 arrive before either poll is answered; both polls return a receipt object: `receipt` is emitted twice, with `blocksSince` 0 and then 1 | tracking ends once: after its terminal `receipt` event an emitter emits nothing more, as when the handlers first check `statusEmitters.has(id)` | medium, not executed | Machine.OverlappingPollsAsWritten | Machine.SettleKeepsReceiptsOnce |
