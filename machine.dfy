/** The connection of index.js as a sequential state machine: one function
    per socket event or application call, each giving the next state. The
    class in connection.dfy is proved to follow these functions; the lemmas
    here state what the steps promise. */
module Machine {
  import opened JsValues
  import opened Events
  import opened Params
  import opened TxHash
  import opened Dispatch
  import opened Tracker

  /** What the `resolve`/`reject` pair of a pending request feeds: the
      application's own await, the `.then`/`.catch` of `subscribe`, or the
      `.then`/`.catch` of one receipt poll of `handleNewBlock`. */
  datatype Caller =
    | Application
    | SubscribeFor(name: Value)
    | ReceiptPollFor(emitter: int, block: int)

  /** The connection's fields, the objects its closures keep alive, and
      what it has produced so far.
      - `statusEmitters`: the ids the JavaScript Map `statusEmitters` holds;
      - `emitters`: every status emitter ever created, under the id of the
        call that created it (a removed emitter lives on in the handlers of
        polls still in flight);
      - `results`: how each call's promise settled (the first settlement
        wins, as for any promise);
      - `sent`: the request envelopes handed to the socket, in order;
      - `events`: everything emitted, in order. */
  datatype State = State(
    open: bool,
    rpcId: nat,
    requestQueue: map<int, Caller>,
    statusEmitters: set<int>,
    emitters: map<int, Emitter>,
    subscriptions: map<Value, Value>,
    results: map<int, Outcome>,
    sent: seq<Envelope>,
    events: seq<Event>)

  /** The state the constructor leaves (index.js:6-15). */
  const Initial := State(false, 0, map[], {}, map[], map[], map[], [], [])

  const ReceiptMethod := "eth_getTransactionReceipt"
  const SubscribeMethod := "eth_subscribe"

  /** The numbering part of the invariant: each call sent exactly one
      envelope and created exactly one status emitter, under its own id,
      and every pending request belongs to a call that was made. */
  ghost predicate Numbered(s: State) {
    && |s.sent| == s.rpcId
    && (forall k :: k in s.emitters <==> 1 <= k <= s.rpcId)
    && s.statusEmitters <= s.emitters.Keys
    && (forall k :: k in s.requestQueue ==> 1 <= k <= s.rpcId)
  }

  /** The invariant every reachable state keeps. */
  ghost predicate Valid(s: State) {
    && Numbered(s)
    // ids are handed out 1, 2, 3, ...
    && (forall i :: 0 <= i < |s.sent| ==> s.sent[i].id == i + 1)
    // settlements belong to calls that were made
    && (forall k :: k in s.results ==> 1 <= k <= s.rpcId)
    // a call whose promise has not settled is still pending
    && (forall k :: 1 <= k <= s.rpcId && k !in s.results ==> k in s.requestQueue)
    // a receipt poll belongs to an emitter created before it
    && (forall k :: k in s.requestQueue && s.requestQueue[k].ReceiptPollFor? ==>
                     1 <= s.requestQueue[k].emitter < k)
  }

  /** The second invariant: only values that passed the hash check are
      ever tracked as hashes. Kept apart from Valid because each use of it
      brings the pattern matcher into the proof. */
  ghost predicate HashesChecked(s: State) {
    forall k :: k in s.emitters && s.emitters[k].txHash.Some? ==> MatchesTxHash(s.emitters[k].txHash.value)
  }

  lemma InitialValid()
    ensures Valid(Initial) && HashesChecked(Initial) && ReceiptsOnce(Initial)
  {
  }

  /** A receipt poll may only be registered for an emitter that exists. */
  predicate AwaiterOk(s: State, awaiter: Caller) {
    awaiter.ReceiptPollFor? ==> 1 <= awaiter.emitter <= s.rpcId
  }

  // ----- call (index.js:16-47) -----

  /** `call(methodName, params, defaultBlock)` on an open connection, with
      `awaiter` the continuation its promise is chained to. */
  function CallStep(s: State, methodName: Value, params: Value, defaultBlock: Value, awaiter: Caller): State {
    var id := s.rpcId + 1;
    s.(rpcId := id,
       sent := s.sent + [Envelope("2.0", methodName, BuildParams(params, defaultBlock), id)],
       requestQueue := s.requestQueue[id := awaiter],
       emitters := s.emitters[id := FreshEmitter],
       statusEmitters := s.statusEmitters + {id})
  }

  /** A call takes the next id, never one in use, sends one envelope under
      it, registers it in both tables and changes no other entry. */
  lemma CallFacts(s: State, methodName: Value, params: Value, defaultBlock: Value, awaiter: Caller)
    requires Valid(s) && AwaiterOk(s, awaiter)
    ensures var t := CallStep(s, methodName, params, defaultBlock, awaiter);
            && Valid(t)
            && t.rpcId == s.rpcId + 1
            && t.rpcId !in s.requestQueue && t.rpcId !in s.emitters && t.rpcId !in s.results
            && t.sent == s.sent + [Envelope("2.0", methodName, BuildParams(params, defaultBlock), t.rpcId)]
            && t.requestQueue == s.requestQueue[t.rpcId := awaiter]
            && t.emitters == s.emitters[t.rpcId := FreshEmitter]
            && t.statusEmitters == s.statusEmitters + {t.rpcId}
            && t.results == s.results && t.events == s.events && t.subscriptions == s.subscriptions
  {
  }

  /** Envelope ids are strictly increasing, hence never reused. */
  lemma IdsStrictlyIncrease(s: State)
    requires Valid(s)
    ensures forall i, j :: 0 <= i < j < |s.sent| ==> s.sent[i].id < s.sent[j].id
  {
  }

  /** `subscribe(name)` on an open connection (index.js:48-62). */
  function SubscribeStep(s: State, name: Value): State {
    CallStep(s, Str(SubscribeMethod), name, Num(0), SubscribeFor(name))
  }

  // ----- settlement of a promise and its handlers -----

  /** `resolve(result)` / `reject(error)` as line 83 chooses. */
  function ResponseOutcome(result: Value, error: Value): Outcome {
    if Truthy(error) then Rejected(error) else Fulfilled(result)
  }

  /** Apply what a receipt-poll handler did to emitter `eid`. */
  function ApplyTracker(s: State, eid: int, step: TrackerStep): State {
    s.(emitters := s.emitters[eid := step.emitter],
       statusEmitters := if step.remove then s.statusEmitters - {eid} else s.statusEmitters,
       events := s.events + step.emitted)
  }

  /** Settling the promise of call `id` and running the handlers chained to
      it, as index.js:53-60, 83 and 92-107 are written. A promise settles
      once; later resolve/reject calls do nothing. A receipt poll's handlers
      run even when their emitter has already left the table. */
  function SettleAsWritten(s: State, id: int, awaiter: Caller, outcome: Outcome): State
    requires awaiter.ReceiptPollFor? ==> awaiter.emitter in s.emitters
  {
    if id in s.results then s
    else
      var t := s.(results := s.results[id := outcome]);
      match awaiter
      case Application => t
      case SubscribeFor(name) =>
        (match outcome
         case Fulfilled(subId) =>
           t.(subscriptions := t.subscriptions[subId := name],
              events := t.events + [SubscribeCallback(name, outcome)])
         case Rejected(err) =>
           t.(events := t.events + [SubError(err), SubscribeCallback(name, outcome)]))
      case ReceiptPollFor(eid, block) =>
        var e := t.emitters[eid];
        ApplyTracker(t, eid,
          match outcome
          case Fulfilled(receipt) => OnPollFulfilled(e, eid, block, receipt)
          case Rejected(err) => OnPollRejected(e, eid, err))
  }

  /** The settlement the model uses: as written, except that a receipt
      poll's handlers do nothing once their emitter has left the table (a
      `statusEmitters.has(id)` guard at the head of the `.then` and `.catch`
      handlers), so that tracking ends once. */
  function Settle(s: State, id: int, awaiter: Caller, outcome: Outcome): State
    requires awaiter.ReceiptPollFor? ==> awaiter.emitter in s.emitters
  {
    if awaiter.ReceiptPollFor? && awaiter.emitter !in s.statusEmitters then
      if id in s.results then s else s.(results := s.results[id := outcome])
    else SettleAsWritten(s, id, awaiter, outcome)
  }

  /** What the handlers as written leave alone; see SettleFacts. */
  lemma SettleAsWrittenFacts(s: State, id: int, awaiter: Caller, outcome: Outcome)
    requires awaiter.ReceiptPollFor? ==> awaiter.emitter in s.emitters
    ensures var t := SettleAsWritten(s, id, awaiter, outcome);
            && t.rpcId == s.rpcId && t.sent == s.sent && t.requestQueue == s.requestQueue && t.open == s.open
            && t.emitters.Keys == s.emitters.Keys
            && (forall k :: k in s.emitters ==> t.emitters[k].txHash == s.emitters[k].txHash)
            && (forall k :: k in s.emitters && !(awaiter.ReceiptPollFor? && k == awaiter.emitter) ==>
                              t.emitters[k] == s.emitters[k])
            && t.statusEmitters <= s.statusEmitters
            && (forall k :: k in s.statusEmitters && !(awaiter.ReceiptPollFor? && k == awaiter.emitter) ==>
                              k in t.statusEmitters)
            && t.results == (if id in s.results then s.results else s.results[id := outcome])
            && t.events[..|s.events|] == s.events
  {
  }

  /** What settling leaves alone: ids, envelopes, pending requests, which
      emitters exist and their tracked hashes; it never adds to the tracking
      table, and it records the outcome unless one was recorded already. */
  lemma SettleFacts(s: State, id: int, awaiter: Caller, outcome: Outcome)
    requires awaiter.ReceiptPollFor? ==> awaiter.emitter in s.emitters
    ensures var t := Settle(s, id, awaiter, outcome);
            && t.rpcId == s.rpcId && t.sent == s.sent && t.requestQueue == s.requestQueue && t.open == s.open
            && t.emitters.Keys == s.emitters.Keys
            && (forall k :: k in s.emitters ==> t.emitters[k].txHash == s.emitters[k].txHash)
            && (forall k :: k in s.emitters && !(awaiter.ReceiptPollFor? && k == awaiter.emitter) ==>
                              t.emitters[k] == s.emitters[k])
            && t.statusEmitters <= s.statusEmitters
            && (forall k :: k in s.statusEmitters && !(awaiter.ReceiptPollFor? && k == awaiter.emitter) ==>
                              k in t.statusEmitters)
            && t.results == (if id in s.results then s.results else s.results[id := outcome])
            && t.events[..|s.events|] == s.events
  {
    SettleAsWrittenFacts(s, id, awaiter, outcome);
  }

  /** The subscription table changes only when an `eth_subscribe` call is
      fulfilled: then it maps the server's id to the channel name. */
  lemma SettleSubscription(s: State, id: int, name: Value, outcome: Outcome)
    requires id !in s.results
    ensures var t := Settle(s, id, SubscribeFor(name), outcome);
            && (outcome.Fulfilled? ==> t.subscriptions == s.subscriptions[outcome.value := name]
                                       && t.events == s.events + [SubscribeCallback(name, outcome)])
            && (outcome.Rejected? ==> t.subscriptions == s.subscriptions
                                      && t.events == s.events + [SubError(outcome.error), SubscribeCallback(name, outcome)])
  {
  }

  // ----- handleMessage (index.js:63-86) -----

  /** The channel `subscriptions.get(subscription)` finds for a push:
      undefined for a subscription the table does not hold. */
  function PushChannel(subscriptions: map<Value, Value>, subscription: Value): Value {
    match MapGet(subscriptions, subscription)
    case Some(channel) => channel
    case None => Undefined
  }

  /** The status-emitter part of a response for id `id` (index.js:72-81). */
  function HashCheck(s: State, id: int, result: Value): State
    requires Valid(s)
  {
    if id !in s.statusEmitters then s
    else
      var t := s.(events := s.events + [TxHashEvent(id, result)]);
      if MatchesTxHash(result) then
        t.(emitters := t.emitters[id := t.emitters[id].(txHash := Some(result))])
      else
        t.(events := t.events + [ReceiptEvent(id, ReceiptError(HashNotReceived))],
           statusEmitters := t.statusEmitters - {id})
  }

  lemma HashCheckValid(s: State, id: int, result: Value)
    requires Valid(s)
    ensures Valid(HashCheck(s, id, result))
    ensures HashCheck(s, id, result).requestQueue == s.requestQueue
    ensures HashCheck(s, id, result).results == s.results
  {
  }

  /** The new state, and the exception handling threw, if any. */
  datatype Reception = Reception(state: State, fault: Option<Fault>)

  /** `handleMessage(data)`, where `parsed` is what JSON.parse(data) gives
      (None when it throws). */
  function Receive(s: State, data: string, parsed: Option<Message>): Reception
    requires Valid(s)
  {
    match Classify(data, parsed)
    case NotProtocol => Reception(s, None)
    case Malformed(f) => Reception(s, Some(f))
    case Push(subscription, result) =>
      Reception(s.(events := s.events + [Emitted(PushChannel(s.subscriptions, subscription), result)]), None)
    case Response(key, result, error) =>
      var checked := if key.Some? then HashCheck(s, key.value, result) else s;
      if key.Some? && key.value in checked.requestQueue then
        var id := key.value;
        var awaiter := checked.requestQueue[id];
        Reception(Settle(checked.(requestQueue := checked.requestQueue - {id}), id, awaiter,
                         ResponseOutcome(result, error)),
                  None)
      else
        Reception(checked, Some(UnknownRequest))
  }

  /** Frames without the JSON-RPC prefix change nothing. */
  lemma NonProtocolFrameIgnored(s: State, data: string, parsed: Option<Message>)
    requires Valid(s)
    requires !StartsWith(data, FramePrefix)
    ensures Receive(s, data, parsed) == Reception(s, None)
  {
  }

  /** The throws of index.js:65-69, all before any table is touched: text
      that JSON.parse rejects, a truthy method that is neither a string nor
      an array and so has no `indexOf`, and a push (a string or array method
      containing `_subscription`) whose params are null or undefined. A response whose id is not a number, such as the string
      "1", matches no numeric request id and throws having changed
      nothing. */
  lemma MalformedFramesThrow(s: State, data: string, parsed: Option<Message>)
    requires Valid(s) && StartsWith(data, FramePrefix)
    ensures parsed.None? ==> Receive(s, data, parsed) == Reception(s, Some(ParseFailed))
    ensures parsed.Some? && Truthy(parsed.value.methodName)
            && !parsed.value.methodName.Str? && !parsed.value.methodName.Arr? ==>
              Receive(s, data, parsed) == Reception(s, Some(MethodHasNoIndexOf))
    ensures parsed.Some? && CanSearch(parsed.value.methodName) && IsPushMethod(parsed.value.methodName)
            && (parsed.value.params.Null? || parsed.value.params.Undefined?) ==>
              Receive(s, data, parsed) == Reception(s, Some(ParamsUnreadable))
    ensures parsed.Some? && CanSearch(parsed.value.methodName) && !IsPushMethod(parsed.value.methodName)
            && !parsed.value.id.Num? ==>
              Receive(s, data, parsed) == Reception(s, Some(UnknownRequest))
    ensures Receive(s, data, parsed).fault.Some? && Receive(s, data, parsed).fault != Some(UnknownRequest) ==>
              Receive(s, data, parsed).state == s
  {
  }

  /** A subscription push emits its `result` unmodified under the channel
      name of its subscription (undefined for an unknown subscription), and
      changes nothing else. */
  lemma PushOnlyEmits(s: State, data: string, parsed: Option<Message>)
    requires Valid(s)
    requires Classify(data, parsed).Push?
    ensures var r := Receive(s, data, parsed);
            var sub := Property(parsed.value.params, "subscription");
            var result := Property(parsed.value.params, "result");
            && r.fault.None?
            && r.state == s.(events := r.state.events)
            && (IsPrimitive(sub) && sub in s.subscriptions ==>
                  r.state.events == s.events + [Emitted(s.subscriptions[sub], result)])
            && (!(IsPrimitive(sub) && sub in s.subscriptions) ==>
                  r.state.events == s.events + [Emitted(Undefined, result)])
  {
    ClassifyCases(data, parsed);
  }

  /** A subscription, end to end: once the `eth_subscribe` call for
      channel `name` is answered with server id `subId`, a push for a
      primitive `subId` emits its result under `name`; a push whose
      subscription is an array or object reaches the channel undefined. */
  lemma SubscriptionRoutesPushes(s: State, id: int, name: Value, data1: string, parsed1: Option<Message>,
                                 subId: Value, error: Value, data2: string, parsed2: Option<Message>,
                                 sub: Value, result: Value)
    requires Valid(s)
    requires id in s.requestQueue && s.requestQueue[id] == SubscribeFor(name) && id !in s.results
    requires Classify(data1, parsed1) == Response(Some(id), subId, error) && !Truthy(error)
    requires Classify(data2, parsed2) == Push(sub, result)
    ensures Valid(Receive(s, data1, parsed1).state)
    ensures var t := Receive(s, data1, parsed1).state;
            && t.subscriptions == s.subscriptions[subId := name]
            && (IsPrimitive(subId) && sub == subId ==>
                  Receive(t, data2, parsed2).state.events == t.events + [Emitted(name, result)])
            && (!IsPrimitive(sub) ==>
                  Receive(t, data2, parsed2).state.events == t.events + [Emitted(Undefined, result)])
  {
    ReceiveValid(s, data1, parsed1);
    ReceiveResponse(s, data1, parsed1, id, subId, error);
    var checked := HashCheck(s, id, subId);
    HashCheckValid(s, id, subId);
    var pending := checked.(requestQueue := checked.requestQueue - {id});
    SettleSubscription(pending, id, name, Fulfilled(subId));
    var t := Receive(s, data1, parsed1).state;
    assert t == Settle(pending, id, SubscribeFor(name), Fulfilled(subId));
    ClassifyCases(data2, parsed2);
    PushOnlyEmits(t, data2, parsed2);
  }

  /** The hash check on its own: a `txHash` event first; then the result
      becomes the tracked hash iff it matches the pattern, and otherwise a
      "Tx Hash was not received!" receipt error is emitted and the emitter
      leaves the table. */
  lemma HashCheckTracked(s: State, id: int, result: Value)
    requires Valid(s) && id in s.statusEmitters
    ensures var t := HashCheck(s, id, result);
            && t.events[..|s.events| + 1] == s.events + [TxHashEvent(id, result)]
            && (MatchesTxHash(result) ==>
                  && t.events == s.events + [TxHashEvent(id, result)]
                  && t.statusEmitters == s.statusEmitters
                  && t.emitters == s.emitters[id := s.emitters[id].(txHash := Some(result))])
            && (!MatchesTxHash(result) ==>
                  && t.events == s.events + [TxHashEvent(id, result), ReceiptEvent(id, ReceiptError(HashNotReceived))]
                  && t.statusEmitters == s.statusEmitters - {id}
                  && t.emitters == s.emitters)
  {
  }

  /** A response for key `id` is the hash check followed, when `id` is
      pending, by its removal and settlement. */
  lemma ReceiveResponse(s: State, data: string, parsed: Option<Message>, id: int, result: Value, error: Value)
    requires Valid(s)
    requires Classify(data, parsed) == Response(Some(id), result, error)
    ensures var checked := HashCheck(s, id, result);
            Receive(s, data, parsed).state
            == if id in s.requestQueue
               then Settle(checked.(requestQueue := checked.requestQueue - {id}), id, s.requestQueue[id],
                           ResponseOutcome(result, error))
               else checked
  {
    HashCheckValid(s, id, result);
  }

  /** Settling after the hash check keeps the check's events as a prefix,
      and neither restores the id to the table nor removes it, nor changes
      its hash. */
  lemma SettleAfterCheck(s: State, id: int, result: Value, error: Value)
    requires Valid(s) && id in s.requestQueue
    ensures var checked := HashCheck(s, id, result);
            var t := Settle(checked.(requestQueue := checked.requestQueue - {id}), id, s.requestQueue[id],
                            ResponseOutcome(result, error));
            && |t.events| >= |checked.events|
            && t.events[..|checked.events|] == checked.events
            && (id in t.statusEmitters <==> id in checked.statusEmitters)
            && id in t.emitters && id in checked.emitters
            && t.emitters[id].txHash == checked.emitters[id].txHash
  {
    var checked := HashCheck(s, id, result);
    HashCheckValid(s, id, result);
    var pending := checked.(requestQueue := checked.requestQueue - {id});
    SettleFacts(pending, id, s.requestQueue[id], ResponseOutcome(result, error));
  }

  /** The hash check on a response for a tracked id happens whether or not
      the request is still pending, and settling does not undo it: the
      events start with the check's, and the emitter keeps its verdict. */
  lemma {:induction false} ResponseHashCheck(s: State, data: string, parsed: Option<Message>, id: int, result: Value, error: Value)
    requires Valid(s)
    requires Classify(data, parsed) == Response(Some(id), result, error)
    requires id in s.statusEmitters
    ensures var t := Receive(s, data, parsed).state;
            && |t.events| >= |s.events| + 1
            && t.events[|s.events|] == TxHashEvent(id, result)
            && (MatchesTxHash(result) ==> id in t.statusEmitters && t.emitters[id].txHash == Some(result))
            && (!MatchesTxHash(result) ==>
                  && |t.events| >= |s.events| + 2
                  && t.events[|s.events| + 1] == ReceiptEvent(id, ReceiptError(HashNotReceived))
                  && id !in t.statusEmitters)
  {
    var checked := HashCheck(s, id, result);
    HashCheckTracked(s, id, result);
    ReceiveResponse(s, data, parsed, id, result, error);
    if id in s.requestQueue {
      SettleAfterCheck(s, id, result, error);
      var t := Receive(s, data, parsed).state;
      assert t.events[|s.events|] == checked.events[|s.events|];
      if !MatchesTxHash(result) {
        assert t.events[|s.events| + 1] == checked.events[|s.events| + 1];
      }
    }
  }

  /** A response for a pending id settles that promise — rejected with
      `error` when it is truthy, else fulfilled with `result` — unless it
      had settled already, and removes exactly that id from the pending
      table. */
  lemma ResponseResolves(s: State, data: string, parsed: Option<Message>, id: int, result: Value, error: Value)
    requires Valid(s)
    requires Classify(data, parsed) == Response(Some(id), result, error)
    requires id in s.requestQueue
    ensures var r := Receive(s, data, parsed);
            && r.fault.None?
            && r.state.requestQueue == s.requestQueue - {id}
            && (id !in s.results ==>
                  r.state.results == s.results[id := if Truthy(error) then Rejected(error) else Fulfilled(result)])
            && (id in s.results ==> r.state.results == s.results)
  {
    HashCheckValid(s, id, result);
    var checked := HashCheck(s, id, result);
    SettleFacts(checked.(requestQueue := checked.requestQueue - {id}), id, checked.requestQueue[id],
                ResponseOutcome(result, error));
  }

  /** A response whose id is not pending, for instance a second response
      for the same id, throws once the status-emitter part is done; the
      pending table and the settlements do not change. */
  lemma UnknownResponseThrows(s: State, data: string, parsed: Option<Message>, key: Option<int>, result: Value, error: Value)
    requires Valid(s)
    requires Classify(data, parsed) == Response(key, result, error)
    requires !(key.Some? && key.value in s.requestQueue)
    ensures var r := Receive(s, data, parsed);
            && r.fault == Some(UnknownRequest)
            && r.state.requestQueue == s.requestQueue
            && r.state.results == s.results
            && r.state.subscriptions == s.subscriptions
  {
    if key.Some? {
      HashCheckValid(s, key.value, result);
    }
  }

  /** A repeated response for an id is not dropped silently: once the first
      one is handled, the second throws. */
  lemma DuplicateResponseThrows(s: State, data: string, parsed: Option<Message>, id: int, result: Value, error: Value)
    requires Valid(s)
    requires Classify(data, parsed) == Response(Some(id), result, error)
    requires id in s.requestQueue
    ensures Valid(Receive(s, data, parsed).state)
    ensures Receive(Receive(s, data, parsed).state, data, parsed).fault == Some(UnknownRequest)
  {
    ReceiveValid(s, data, parsed);
    ResponseResolves(s, data, parsed, id, result, error);
    UnknownResponseThrows(Receive(s, data, parsed).state, data, parsed, Some(id), result, error);
  }

  /** Every step of handleMessage keeps the invariant. */
  lemma {:induction false} ReceiveValid(s: State, data: string, parsed: Option<Message>)
    requires Valid(s)
    ensures Valid(Receive(s, data, parsed).state)
  {
    match Classify(data, parsed)
    case NotProtocol =>
    case Malformed(_) =>
    case Push(_, _) =>
    case Response(key, result, error) =>
      var checked := if key.Some? then HashCheck(s, key.value, result) else s;
      if key.Some? {
        HashCheckValid(s, key.value, result);
      }
      if key.Some? && key.value in checked.requestQueue {
        var id := key.value;
        var awaiter := checked.requestQueue[id];
        var pending := checked.(requestQueue := checked.requestQueue - {id});
        SettleFacts(pending, id, awaiter, ResponseOutcome(result, error));
        SettledValid(checked, pending, id, awaiter, ResponseOutcome(result, error));
      }
  }

  /** Removing a pending id and settling it keeps the invariant. */
  lemma SettledValid(s: State, pending: State, id: int, awaiter: Caller, outcome: Outcome)
    requires Valid(s)
    requires id in s.requestQueue && awaiter == s.requestQueue[id]
    requires pending == s.(requestQueue := s.requestQueue - {id})
    ensures Valid(Settle(pending, id, awaiter, outcome))
  {
    SettleFacts(pending, id, awaiter, outcome);
  }

  // ----- the send callback (index.js:30-32) -----

  /** The socket reported the outcome of sending call `id`'s envelope: an
      error rejects the promise, but the request stays in the pending
      table. */
  function SendDone(s: State, id: int, err: Value): State
    requires Valid(s) && 1 <= id <= s.rpcId
  {
    if !Truthy(err) || id in s.results then s
    else Settle(s, id, s.requestQueue[id], Rejected(err))
  }

  lemma SendDoneFacts(s: State, id: int, err: Value)
    requires Valid(s) && 1 <= id <= s.rpcId
    ensures Valid(SendDone(s, id, err))
    ensures SendDone(s, id, err).requestQueue == s.requestQueue
    ensures !Truthy(err) || id in s.results ==> SendDone(s, id, err) == s
    ensures Truthy(err) && id !in s.results ==> SendDone(s, id, err).results == s.results[id := Rejected(err)]
  {
    if Truthy(err) && id !in s.results {
      SettleFacts(s, id, s.requestQueue[id], Rejected(err));
    }
  }

  // ----- receipt listeners attached by the application -----

  /** `promise.on('receipt', listener)` on the handle of call `id`. */
  function AddReceiptListener(s: State, id: int): State
    requires id in s.emitters
  {
    s.(emitters := s.emitters[id := s.emitters[id].(receiptListeners := s.emitters[id].receiptListeners + 1)])
  }

  /** `promise.off('receipt', listener)` for a listener that is attached.
      Listeners are kept as a count, not by identity, so `off` of a
      function that was never attached while others are is not a step of
      this model; with no listener at all the state is unchanged. */
  function RemoveReceiptListener(s: State, id: int): State
    requires id in s.emitters
  {
    var e := s.emitters[id];
    if e.receiptListeners == 0 then s
    else s.(emitters := s.emitters[id := e.(receiptListeners := e.receiptListeners - 1)])
  }

  lemma ListenersValid(s: State, id: int)
    requires Valid(s) && id in s.emitters
    ensures Valid(AddReceiptListener(s, id)) && Valid(RemoveReceiptListener(s, id))
  {
  }

  // ----- handleNewBlock (index.js:87-110) -----

  /** Emitter `k` is still in the table and passes both skip rules. */
  predicate Pollable(s: State, k: int) {
    k in s.statusEmitters && k in s.emitters && Polled(s.emitters[k])
  }

  /** The forEach body for emitter `k` at block `block`. */
  function Visit(s: State, k: int, block: int): State {
    if Pollable(s, k) then
      CallStep(s, Str(ReceiptMethod), s.emitters[k].txHash.value, Num(0), ReceiptPollFor(k, block))
    else s
  }

  /** The forEach over the emitters with ids 1..m, in insertion order,
      which is increasing id order. */
  function Polls(s: State, block: int, m: nat): State
    decreases m
  {
    if m == 0 then s else Visit(Polls(s, block, m - 1), m, block)
  }

  /** With nothing tracked the loop polls nothing and changes nothing, so
      the `statusEmitters.size` guard only saves the iteration. */
  lemma {:induction false} EmptyTableNoPolls(s: State, block: int, m: nat)
    requires s.statusEmitters == {}
    ensures Polls(s, block, m) == s
    decreases m
  {
    if m > 0 {
      EmptyTableNoPolls(s, block, m - 1);
    }
  }

  /** A new block: every emitter the table held when the block arrived is
      visited. */
  function NewBlock(s: State, block: int): State {
    Polls(s, block, s.rpcId)
  }

  /** The ids, among 1..m, that the loop polls, in order. */
  function PollTargets(s: State, m: nat): (targets: seq<int>)
    ensures forall j :: 0 <= j < |targets| ==> 1 <= targets[j] <= m && Pollable(s, targets[j])
    decreases m
  {
    if m == 0 then []
    else PollTargets(s, m - 1)
         + (if Pollable(s, m) then [m] else [])
  }

  /** The polled ids are exactly the tracked emitters that have a tracked
      hash and a receipt listener, each once, in increasing order. */
  lemma {:induction false} PollTargetsExact(s: State, m: nat)
    ensures forall k :: k in PollTargets(s, m) <==> 1 <= k <= m && Pollable(s, k)
    ensures forall i, j :: 0 <= i < j < |PollTargets(s, m)| ==> PollTargets(s, m)[i] < PollTargets(s, m)[j]
    decreases m
  {
    if m > 0 {
      PollTargetsExact(s, m - 1);
      var before := PollTargets(s, m - 1);
      assert forall i :: 0 <= i < |before| ==> before[i] in before;
    }
  }

  /** The shape of the loop's effect on ids, emitters and the tracking
      table: the polls take the next ids, one per target; emitters already
      present and their tracking are left as they were; the new emitters
      are fresh and tracked. */
  lemma {:induction false} PollsShape(s: State, block: int, m: nat)
    requires Numbered(s) && m <= s.rpcId
    ensures var t := Polls(s, block, m);
            && t.rpcId == s.rpcId + |PollTargets(s, m)|
            && t.open == s.open
            && (forall k :: k in t.emitters <==> 1 <= k <= t.rpcId)
            && (forall k :: k in s.emitters ==> t.emitters[k] == s.emitters[k])
            && (forall k :: s.rpcId < k <= t.rpcId ==> t.emitters[k] == FreshEmitter)
            && (forall k :: k in t.statusEmitters <==> k in s.statusEmitters || s.rpcId < k <= t.rpcId)
            && t.results == s.results && t.events == s.events && t.subscriptions == s.subscriptions
    decreases m
  {
    if m > 0 {
      PollsShape(s, block, m - 1);
      var u := Polls(s, block, m - 1);
      assert u.emitters[m] == s.emitters[m];
      assert (m in u.statusEmitters) == (m in s.statusEmitters);
      if Pollable(s, m) {
        assert PollTargets(s, m) == PollTargets(s, m - 1) + [m];
        assert Polls(s, block, m) == CallStep(u, Str(ReceiptMethod), u.emitters[m].txHash.value, Num(0), ReceiptPollFor(m, block));
      } else {
        assert PollTargets(s, m) == PollTargets(s, m - 1);
        assert Polls(s, block, m) == u;
      }
    }
  }

  /** One turn of the loop: emitter m is visited as it was before the loop
      started, and polled iff it was pollable then. */
  lemma PollsStep(s: State, block: int, m: nat)
    requires Numbered(s) && 0 < m <= s.rpcId
    ensures Pollable(s, m) ==>
              && PollTargets(s, m) == PollTargets(s, m - 1) + [m]
              && Polls(s, block, m)
                 == CallStep(Polls(s, block, m - 1), Str(ReceiptMethod), s.emitters[m].txHash.value, Num(0), ReceiptPollFor(m, block))
    ensures !Pollable(s, m) ==>
              PollTargets(s, m) == PollTargets(s, m - 1) && Polls(s, block, m) == Polls(s, block, m - 1)
  {
    PollsShape(s, block, m - 1);
    var u := Polls(s, block, m - 1);
    assert u.emitters[m] == s.emitters[m];
    assert (m in u.statusEmitters) == (m in s.statusEmitters);
  }

  /** The loop's requests: one receipt poll per target, in order, under the
      next ids; pending entries that existed are left as they were. */
  lemma {:induction false} PollsRequests(s: State, block: int, m: nat)
    requires Numbered(s) && m <= s.rpcId
    ensures var t := Polls(s, block, m);
            var targets := PollTargets(s, m);
            && (forall k :: k in t.requestQueue <==> k in s.requestQueue || s.rpcId < k <= t.rpcId)
            && (forall k :: k in s.requestQueue ==> t.requestQueue[k] == s.requestQueue[k])
            && (forall j :: 0 <= j < |targets| ==>
                  s.rpcId + 1 + j in t.requestQueue && t.requestQueue[s.rpcId + 1 + j] == ReceiptPollFor(targets[j], block))
    decreases m
  {
    if m > 0 {
      PollsRequests(s, block, m - 1);
      PollsShape(s, block, m - 1);
      PollsStep(s, block, m);
      var u := Polls(s, block, m - 1);
      var t := Polls(s, block, m);
      var targets := PollTargets(s, m);
      if Pollable(s, m) {
        assert t.requestQueue == u.requestQueue[u.rpcId + 1 := ReceiptPollFor(m, block)];
        forall j | 0 <= j < |targets|
          ensures s.rpcId + 1 + j in t.requestQueue && t.requestQueue[s.rpcId + 1 + j] == ReceiptPollFor(targets[j], block)
        {
          if j < |targets| - 1 {
            assert targets[j] == PollTargets(s, m - 1)[j];
          }
        }
      }
    }
  }

  /** The loop's envelopes: one `eth_getTransactionReceipt` request per
      target, in order, carrying that emitter's tracked hash. */
  lemma {:induction false} PollsSent(s: State, block: int, m: nat)
    requires Numbered(s) && m <= s.rpcId
    ensures var t := Polls(s, block, m);
            var targets := PollTargets(s, m);
            && |t.sent| == |s.sent| + |targets|
            && t.sent[..|s.sent|] == s.sent
            && (forall j :: 0 <= j < |targets| ==>
                  t.sent[s.rpcId + j]
                  == Envelope("2.0", Str(ReceiptMethod), BuildParams(s.emitters[targets[j]].txHash.value, Num(0)),
                              s.rpcId + 1 + j))
    decreases m
  {
    if m > 0 {
      PollsSent(s, block, m - 1);
      PollsShape(s, block, m - 1);
      PollsStep(s, block, m);
      var u := Polls(s, block, m - 1);
      var t := Polls(s, block, m);
      var targets := PollTargets(s, m);
      if Pollable(s, m) {
        assert t.sent == u.sent + [Envelope("2.0", Str(ReceiptMethod), BuildParams(s.emitters[m].txHash.value, Num(0)), u.rpcId + 1)];
        assert t.sent[..|s.sent|] == u.sent[..|s.sent|];
        forall j | 0 <= j < |targets|
          ensures t.sent[s.rpcId + j]
                  == Envelope("2.0", Str(ReceiptMethod), BuildParams(s.emitters[targets[j]].txHash.value, Num(0)),
                              s.rpcId + 1 + j)
        {
          if j < |targets| - 1 {
            assert targets[j] == PollTargets(s, m - 1)[j];
            assert t.sent[s.rpcId + j] == u.sent[s.rpcId + j];
          }
        }
      }
    }
  }

  /** The loop keeps the invariant. */
  lemma {:induction false} PollsValid(s: State, block: int, m: nat)
    requires Valid(s) && m <= s.rpcId
    ensures Valid(Polls(s, block, m))
    decreases m
  {
    if m > 0 {
      PollsValid(s, block, m - 1);
      PollsShape(s, block, m - 1);
      var u := Polls(s, block, m - 1);
      if Pollable(u, m) {
        CallFacts(u, Str(ReceiptMethod), u.emitters[m].txHash.value, Num(0), ReceiptPollFor(m, block));
      }
    }
  }

  /** A new block polls exactly the tracked emitters with a tracked hash
      and a receipt listener: an emitter that was removed, that has no
      `receipt` listener or that has no tracked hash gets no request, and no
      emitter changes. */
  lemma NewBlockPollsExactly(s: State, block: int, k: int)
    requires Numbered(s)
    ensures var t := NewBlock(s, block);
            (exists id :: id in t.requestQueue && id !in s.requestQueue && t.requestQueue[id] == ReceiptPollFor(k, block))
            <==> Pollable(s, k)
    ensures forall j :: j in s.emitters ==> j in NewBlock(s, block).emitters && NewBlock(s, block).emitters[j] == s.emitters[j]
  {
    var t := NewBlock(s, block);
    if Pollable(s, k) {
      NewBlockPollsPollable(s, block, k);
    }
    if exists id :: id in t.requestQueue && id !in s.requestQueue && t.requestQueue[id] == ReceiptPollFor(k, block) {
      NewBlockPollsOnlyPollable(s, block, k);
    }
    PollsShape(s, block, s.rpcId);
  }

  lemma NewBlockPollsPollable(s: State, block: int, k: int)
    requires Numbered(s) && Pollable(s, k)
    ensures var t := NewBlock(s, block);
            exists id :: id in t.requestQueue && id !in s.requestQueue && t.requestQueue[id] == ReceiptPollFor(k, block)
  {
    var t := NewBlock(s, block);
    var targets := PollTargets(s, s.rpcId);
    PollsShape(s, block, s.rpcId);
    PollsRequests(s, block, s.rpcId);
    PollTargetsExact(s, s.rpcId);
    assert k in targets;
    var j :| 0 <= j < |targets| && targets[j] == k;
    var id := s.rpcId + 1 + j;
    assert id in t.requestQueue && id !in s.requestQueue && t.requestQueue[id] == ReceiptPollFor(k, block);
  }

  lemma NewBlockPollsOnlyPollable(s: State, block: int, k: int)
    requires Numbered(s)
    requires var t := NewBlock(s, block);
             exists id :: id in t.requestQueue && id !in s.requestQueue && t.requestQueue[id] == ReceiptPollFor(k, block)
    ensures Pollable(s, k)
  {
    var t := NewBlock(s, block);
    var targets := PollTargets(s, s.rpcId);
    PollsShape(s, block, s.rpcId);
    PollsRequests(s, block, s.rpcId);
    var id :| id in t.requestQueue && id !in s.requestQueue && t.requestQueue[id] == ReceiptPollFor(k, block);
    assert s.rpcId < id <= t.rpcId;
    var j := id - s.rpcId - 1;
    assert t.requestQueue[s.rpcId + 1 + j] == ReceiptPollFor(targets[j], block);
  }

  /** The forEach also visits the entries added while it runs (the
      emitters of the receipt requests themselves); each is fresh, without
      listener or hash, so visiting them changes nothing. */
  lemma AddedEntriesSkipped(s: State, block: int, k: int)
    requires Numbered(s)
    requires s.rpcId < k <= NewBlock(s, block).rpcId
    ensures Visit(NewBlock(s, block), k, block) == NewBlock(s, block)
  {
    PollsShape(s, block, s.rpcId);
  }

  lemma NewBlockValid(s: State, block: int)
    requires Valid(s)
    ensures Valid(NewBlock(s, block)) && NewBlock(s, block).open == s.open
  {
    PollsValid(s, block, s.rpcId);
    PollsShape(s, block, s.rpcId);
  }

  /** Once an emitter has left the tracking table it never returns to it,
      whatever the connection does next, so it is never polled again
      (NewBlockPollsExactly): not on a message ... */
  lemma RemovedStaysRemovedOnMessage(s: State, k: int, data: string, parsed: Option<Message>)
    requires Valid(s) && k !in s.statusEmitters
    ensures k !in Receive(s, data, parsed).state.statusEmitters
  {
    if Classify(data, parsed).Response? && Classify(data, parsed).key.Some? {
      var Response(key, result, error) := Classify(data, parsed);
      var id := key.value;
      HashCheckValid(s, id, result);
      ReceiveResponse(s, data, parsed, id, result, error);
      var checked := HashCheck(s, id, result);
      if id in s.requestQueue {
        var pending := checked.(requestQueue := checked.requestQueue - {id});
        SettleFacts(pending, id, s.requestQueue[id], ResponseOutcome(result, error));
      }
    }
  }

  /** ... nor on a new block or a call, which add only their own new id. */
  lemma RemovedStaysRemovedOnBlock(s: State, k: int, block: int)
    requires Numbered(s) && k in s.emitters && k !in s.statusEmitters
    ensures k !in NewBlock(s, block).statusEmitters
  {
    PollsShape(s, block, s.rpcId);
  }

  lemma RemovedStaysRemovedOnCall(s: State, k: int, methodName: Value, params: Value, defaultBlock: Value, awaiter: Caller)
    requires Numbered(s) && k in s.emitters && k !in s.statusEmitters
    ensures k !in CallStep(s, methodName, params, defaultBlock, awaiter).statusEmitters
  {
  }

  // ----- the hash invariant -----

  lemma CallKeepsHashes(s: State, methodName: Value, params: Value, defaultBlock: Value, awaiter: Caller)
    requires HashesChecked(s)
    ensures HashesChecked(CallStep(s, methodName, params, defaultBlock, awaiter))
  {
  }

  /** The dispatcher records a response's result as the tracked hash only
      when it passes the check; settling never touches a tracked hash. */
  lemma ReceiveKeepsHashes(s: State, data: string, parsed: Option<Message>)
    requires Valid(s) && HashesChecked(s)
    ensures HashesChecked(Receive(s, data, parsed).state)
  {
    match Classify(data, parsed)
    case NotProtocol =>
    case Malformed(_) =>
    case Push(_, _) =>
    case Response(key, result, error) =>
      if key.Some? {
        var checked := HashCheck(s, key.value, result);
        HashCheckValid(s, key.value, result);
        assert HashesChecked(checked);
        if key.value in checked.requestQueue {
          var id := key.value;
          var pending := checked.(requestQueue := checked.requestQueue - {id});
          SettleFacts(pending, id, checked.requestQueue[id], ResponseOutcome(result, error));
        }
      }
  }

  lemma SendDoneKeepsHashes(s: State, id: int, err: Value)
    requires Valid(s) && HashesChecked(s) && 1 <= id <= s.rpcId
    ensures HashesChecked(SendDone(s, id, err))
  {
    if Truthy(err) && id !in s.results {
      SettleFacts(s, id, s.requestQueue[id], Rejected(err));
    }
  }

  lemma ListenersKeepHashes(s: State, id: int)
    requires HashesChecked(s) && id in s.emitters
    ensures HashesChecked(AddReceiptListener(s, id)) && HashesChecked(RemoveReceiptListener(s, id))
  {
  }

  lemma NewBlockKeepsHashes(s: State, block: int)
    requires Numbered(s) && HashesChecked(s)
    ensures HashesChecked(NewBlock(s, block))
  {
    PollsShape(s, block, s.rpcId);
  }

  /** With both invariants, the hash skip rule never fires: an emitter is
      polled iff it is tracked, has a tracked hash and a receipt listener. */
  lemma PollableExactly(s: State, k: int)
    requires Valid(s) && HashesChecked(s)
    ensures Pollable(s, k) <==>
              k in s.statusEmitters && s.emitters[k].txHash.Some? && s.emitters[k].receiptListeners > 0
  {
    if k in s.statusEmitters && s.emitters[k].txHash.Some? {
      MatchedIsTruthy(s.emitters[k].txHash.value);
    }
  }

  // ----- tracking ends once -----

  /** An event emitted on a status emitter (`txHash` or `receipt`). */
  predicate OnStatusEmitter(ev: Event) {
    ev.TxHashEvent? || ev.ReceiptEvent?
  }

  /** The third invariant: every `receipt` event on a status emitter is
      for an emitter that exists and has left the table, and after it that
      emitter emits nothing more, neither a second `receipt` nor a
      `txHash`. Tracking ends once. */
  ghost predicate ReceiptsOnce(s: State) {
    && (forall i :: 0 <= i < |s.events| && s.events[i].ReceiptEvent? ==>
                      s.events[i].emitter in s.emitters && s.events[i].emitter !in s.statusEmitters)
    && (forall i, j :: 0 <= i < j < |s.events| && s.events[i].ReceiptEvent? && OnStatusEmitter(s.events[j]) ==>
                         s.events[i].emitter != s.events[j].emitter)
  }

  /** A step that appends `add` to the trace keeps ReceiptsOnce when it
      adds to the table only emitters that did not exist, and `add` holds
      at most one `receipt` event, for an emitter that was tracked and is
      removed by the step, with no event on a status emitter after it, and
      its `txHash` events are all for tracked emitters. */
  lemma TraceExtendedOnce(s: State, t: State, add: seq<Event>)
    requires ReceiptsOnce(s)
    requires t.events == s.events + add
    requires s.emitters.Keys <= t.emitters.Keys
    requires forall k :: k in t.statusEmitters ==> k in s.statusEmitters || k !in s.emitters
    requires forall i :: 0 <= i < |add| && add[i].ReceiptEvent? ==>
                           add[i].emitter in s.statusEmitters && add[i].emitter in s.emitters
                           && add[i].emitter !in t.statusEmitters
    requires forall i :: 0 <= i < |add| && add[i].TxHashEvent? ==> add[i].emitter in s.statusEmitters
    requires forall i, j :: 0 <= i < j < |add| && add[i].ReceiptEvent? ==> !OnStatusEmitter(add[j])
    ensures ReceiptsOnce(t)
  {
    assert forall i :: 0 <= i < |s.events| ==> t.events[i] == s.events[i];
    assert forall i :: |s.events| <= i < |t.events| ==> t.events[i] == add[i - |s.events|];
  }

  lemma CallKeepsReceiptsOnce(s: State, methodName: Value, params: Value, defaultBlock: Value, awaiter: Caller)
    requires Numbered(s) && ReceiptsOnce(s)
    ensures ReceiptsOnce(CallStep(s, methodName, params, defaultBlock, awaiter))
  {
    TraceExtendedOnce(s, CallStep(s, methodName, params, defaultBlock, awaiter), []);
  }

  /** The hash check emits a `receipt` error only together with the
      emitter's removal. */
  lemma HashCheckKeepsReceiptsOnce(s: State, id: int, result: Value)
    requires Valid(s) && ReceiptsOnce(s)
    ensures ReceiptsOnce(HashCheck(s, id, result))
  {
    var t := HashCheck(s, id, result);
    if id in s.statusEmitters {
      if MatchesTxHash(result) {
        TraceExtendedOnce(s, t, [TxHashEvent(id, result)]);
      } else {
        TraceExtendedOnce(s, t, [TxHashEvent(id, result), ReceiptEvent(id, ReceiptError(HashNotReceived))]);
      }
    }
  }

  /** With the guard, a poll's handlers emit a `receipt` event only for an
      emitter still tracked, and remove it when they do. */
  lemma SettleKeepsReceiptsOnce(s: State, id: int, awaiter: Caller, outcome: Outcome)
    requires awaiter.ReceiptPollFor? ==> awaiter.emitter in s.emitters
    requires ReceiptsOnce(s)
    ensures ReceiptsOnce(Settle(s, id, awaiter, outcome))
  {
    var t := Settle(s, id, awaiter, outcome);
    if id !in s.results {
      match awaiter
      case Application =>
      case SubscribeFor(name) =>
        if outcome.Fulfilled? {
          TraceExtendedOnce(s, t, [SubscribeCallback(name, outcome)]);
        } else {
          TraceExtendedOnce(s, t, [SubError(outcome.error), SubscribeCallback(name, outcome)]);
        }
      case ReceiptPollFor(eid, block) =>
        if eid in s.statusEmitters {
          var e := s.emitters[eid];
          HandlersReceiptIffRemoved(e, eid, block, if outcome.Fulfilled? then outcome.value else Undefined,
                                    if outcome.Rejected? then outcome.error else Undefined);
          var step := match outcome
                      case Fulfilled(receipt) => OnPollFulfilled(e, eid, block, receipt)
                      case Rejected(err) => OnPollRejected(e, eid, err);
          assert t == ApplyTracker(s.(results := s.results[id := outcome]), eid, step);
          TraceExtendedOnce(s, t, step.emitted);
        }
    }
  }

  lemma ReceiveKeepsReceiptsOnce(s: State, data: string, parsed: Option<Message>)
    requires Valid(s) && ReceiptsOnce(s)
    ensures ReceiptsOnce(Receive(s, data, parsed).state)
  {
    match Classify(data, parsed)
    case NotProtocol =>
    case Malformed(_) =>
    case Push(subscription, result) =>
      TraceExtendedOnce(s, Receive(s, data, parsed).state, [Emitted(PushChannel(s.subscriptions, subscription), result)]);
    case Response(key, result, error) =>
      if key.Some? {
        var id := key.value;
        HashCheckValid(s, id, result);
        HashCheckKeepsReceiptsOnce(s, id, result);
        ReceiveResponse(s, data, parsed, id, result, error);
        var checked := HashCheck(s, id, result);
        if id in s.requestQueue {
          var pending := checked.(requestQueue := checked.requestQueue - {id});
          assert ReceiptsOnce(pending);
          SettleKeepsReceiptsOnce(pending, id, s.requestQueue[id], ResponseOutcome(result, error));
        }
      }
  }

  lemma SendDoneKeepsReceiptsOnce(s: State, id: int, err: Value)
    requires Valid(s) && ReceiptsOnce(s) && 1 <= id <= s.rpcId
    ensures ReceiptsOnce(SendDone(s, id, err))
  {
    if Truthy(err) && id !in s.results {
      SettleKeepsReceiptsOnce(s, id, s.requestQueue[id], Rejected(err));
    }
  }

  lemma ListenersKeepReceiptsOnce(s: State, id: int)
    requires ReceiptsOnce(s) && id in s.emitters
    ensures ReceiptsOnce(AddReceiptListener(s, id)) && ReceiptsOnce(RemoveReceiptListener(s, id))
  {
  }

  lemma NewBlockKeepsReceiptsOnce(s: State, block: int)
    requires Numbered(s) && ReceiptsOnce(s)
    ensures ReceiptsOnce(NewBlock(s, block))
  {
    PollsShape(s, block, s.rpcId);
    TraceExtendedOnce(s, NewBlock(s, block), []);
  }

  /** The handlers as written, on a poll whose emitter has left the table,
      still run: a receipt object, or a failed poll's error object, makes
      the removed emitter emit one more `receipt` event. The guarded
      settlement only records the outcome. */
  lemma SettleGuard(s: State, id: int, eid: int, block: int, outcome: Outcome)
    requires eid in s.emitters && eid !in s.statusEmitters && id !in s.results
    ensures Settle(s, id, ReceiptPollFor(eid, block), outcome) == s.(results := s.results[id := outcome])
    ensures var t := SettleAsWritten(s, id, ReceiptPollFor(eid, block), outcome);
            && t.results == s.results[id := outcome]
            && (outcome.Fulfilled? && IsObject(outcome.value) ==>
                  t.events == s.events + [ReceiptEvent(eid, ReceiptFound(outcome.value,
                                            block - StartBlockAfter(s.emitters[eid].startBlock, block)))])
            && (outcome.Rejected? && IsObject(outcome.error) ==>
                  |t.events| == |s.events| + 1 && t.events[|s.events|].ReceiptEvent?
                  && t.events[|s.events|].emitter == eid)
  {
    PollVerdict(s.emitters[eid], eid, block, if outcome.Fulfilled? then outcome.value else Undefined);
    PollFailureVerdict(s.emitters[eid], eid, if outcome.Rejected? then outcome.error else Undefined);
  }

  // ----- overlapping polls -----

  /** A connection that tracks one transaction, emitter 1, with one
      `receipt` listener, before any poll. */
  function TrackingOne(): State {
    var hash := Str("0x" + "00000000000000000000000000000000" + "ABCDEFabcdef00000000000000000000");
    State(true, 1, map[], {1}, map[1 := Emitter(Some(hash), None, 1)], map[], map[1 := Fulfilled(hash)],
          [Envelope("2.0", Str("eth_sendRawTransaction"), [], 1)], [TxHashEvent(1, hash)])
  }

  /** TrackingOne is reachable: the open connection sends
      `eth_sendRawTransaction`, the node answers with the hash, and the
      application attaches one `receipt` listener. */
  lemma TrackingOneReachable(data: string, parsed: Option<Message>)
    requires Classify(data, parsed) == Response(Some(1), TrackingOne().emitters[1].txHash.value, Undefined)
    ensures var called := CallStep(Initial.(open := true), Str("eth_sendRawTransaction"), Arr([]), Num(0), Application);
            && Valid(called) && 1 in Receive(called, data, parsed).state.emitters
            && AddReceiptListener(Receive(called, data, parsed).state, 1) == TrackingOne()
  {
    var hash := TrackingOne().emitters[1].txHash.value;
    InitialValid();
    var called := CallStep(Initial.(open := true), Str("eth_sendRawTransaction"), Arr([]), Num(0), Application);
    CallFacts(Initial.(open := true), Str("eth_sendRawTransaction"), Arr([]), Num(0), Application);
    assert MatchesTxHash(hash) by { Examples(); }
    ReceiveResponse(called, data, parsed, 1, hash, Undefined);
    HashCheckTracked(called, 1, hash);
    var checked := HashCheck(called, 1, hash);
    assert checked.emitters == map[1 := Emitter(Some(hash), None, 0)];
    assert Receive(called, data, parsed).state == checked.(requestQueue := map[], results := map[1 := Fulfilled(hash)]);
  }

  /** Blocks 100 and 101 arrive before the first poll is answered: emitter
      1 then has two receipt polls in flight, ids 2 and 3. */
  lemma TwoPollsInFlight()
    ensures var s := NewBlock(NewBlock(TrackingOne(), 100), 101);
            && s.requestQueue == map[2 := ReceiptPollFor(1, 100), 3 := ReceiptPollFor(1, 101)]
            && s.statusEmitters == {1, 2, 3}
            && s.emitters[1] == TrackingOne().emitters[1]
            && s.results == TrackingOne().results && s.events == TrackingOne().events
  {
    var s0 := TrackingOne();
    var hash := s0.emitters[1].txHash.value;
    assert Pollable(s0, 1);
    var s1 := NewBlock(s0, 100);
    assert s1 == Visit(s0, 1, 100);
    assert s1 == CallStep(s0, Str(ReceiptMethod), hash, Num(0), ReceiptPollFor(1, 100));
    var u := Polls(s1, 101, 1);
    assert Pollable(s1, 1);
    assert u == CallStep(s1, Str(ReceiptMethod), hash, Num(0), ReceiptPollFor(1, 101));
    assert !Pollable(u, 2);
    assert NewBlock(s1, 101) == Visit(u, 2, 101) == u;
  }

  /** The two answers, each a receipt object, as index.js:92-102 handle
      them: emitter 1 emits `receipt` twice, although the first one already
      removed it from the table. Only the settlement step is shown: in a
      full `handleMessage` the hash check runs first on the poll's own
      emitters 2 and 3 and adds their `txHash` and error events, which
      concern neither emitter 1 nor its two `receipt` events. */
  lemma OverlappingPollsAsWritten()
    ensures var s := NewBlock(NewBlock(TrackingOne(), 100), 101);
            var a := SettleAsWritten(s.(requestQueue := s.requestQueue - {2}), 2, ReceiptPollFor(1, 100), Fulfilled(Obj(map[])));
            var b := SettleAsWritten(a.(requestQueue := a.requestQueue - {3}), 3, ReceiptPollFor(1, 101), Fulfilled(Obj(map[])));
            && 1 !in a.statusEmitters
            && b.events == TrackingOne().events
                           + [ReceiptEvent(1, ReceiptFound(Obj(map[]), 0)), ReceiptEvent(1, ReceiptFound(Obj(map[]), 1))]
  {
    TwoPollsInFlight();
  }

  /** The same answers with the guard: one `receipt` event, and both
      promises settled. */
  lemma OverlappingPollsGuarded()
    ensures var s := NewBlock(NewBlock(TrackingOne(), 100), 101);
            var a := Settle(s.(requestQueue := s.requestQueue - {2}), 2, ReceiptPollFor(1, 100), Fulfilled(Obj(map[])));
            var b := Settle(a.(requestQueue := a.requestQueue - {3}), 3, ReceiptPollFor(1, 101), Fulfilled(Obj(map[])));
            && b.events == TrackingOne().events + [ReceiptEvent(1, ReceiptFound(Obj(map[]), 0))]
            && 2 in b.results && 3 in b.results
  {
    TwoPollsInFlight();
  }
}
