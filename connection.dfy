/** The connection object of index.js: its tables are fields the methods
    update in place, and each method is proved to take the connection from
    one state of the machine in machine.dfy to the next. */
module Connection {
  import opened JsValues
  import opened Events
  import opened Params
  import opened TxHash
  import opened Dispatch
  import opened Tracker
  import Machine

  class WsEth {
    /** `readyState === OPEN` */
    var open: bool
    /** `rpc_id`: the last id handed out */
    var rpcId: nat
    /** `requestQueue`: the pending calls and what their promises feed */
    var requestQueue: map<int, Machine.Caller>
    /** `statusEmitters`: the ids of the emitters still tracked */
    var statusEmitters: set<int>
    /** the status emitter objects, by the id of the call that made them */
    var emitters: map<int, Emitter>
    /** `subscriptions`: server subscription id to channel name */
    var subscriptions: map<Value, Value>
    /** how each call's promise settled */
    var results: map<int, Outcome>
    /** the envelopes handed to the socket */
    var sent: seq<Envelope>
    /** everything emitted, in order */
    var events: seq<Event>

    ghost function Snapshot(): Machine.State
      reads this
    {
      Machine.State(open, rpcId, requestQueue, statusEmitters, emitters, subscriptions, results, sent, events)
    }

    ghost predicate Valid()
      reads this
    {
      Machine.Valid(Snapshot()) && Machine.HashesChecked(Snapshot()) && Machine.ReceiptsOnce(Snapshot())
    }

    /** `new WsEth(url)` before the socket opens (index.js:6-15). */
    constructor ()
      ensures Snapshot() == Machine.Initial
      ensures Valid()
    {
      open := false;
      rpcId := 0;
      requestQueue := map[];
      statusEmitters := {};
      emitters := map[];
      subscriptions := map[];
      results := map[];
      sent := [];
      events := [];
      Machine.InitialValid();
    }

    /** The socket's `open` event. */
    method Opened()
      requires Valid()
      modifies this
      ensures Valid()
      ensures Snapshot() == old(Snapshot()).(open := true)
    {
      open := true;
    }

    /** The body of `call` (index.js:20-45) with `awaiter` the continuation
        its promise feeds. */
    method Request(methodName: Value, params: Value, defaultBlock: Value, awaiter: Machine.Caller) returns (id: int)
      requires Valid() && open && Machine.AwaiterOk(Snapshot(), awaiter)
      modifies this
      ensures Valid()
      ensures Snapshot() == Machine.CallStep(old(Snapshot()), methodName, params, defaultBlock, awaiter)
      ensures id == rpcId == old(rpcId) + 1
    {
      Machine.CallFacts(Snapshot(), methodName, params, defaultBlock, awaiter);
      Machine.CallKeepsHashes(Snapshot(), methodName, params, defaultBlock, awaiter);
      Machine.CallKeepsReceiptsOnce(Snapshot(), methodName, params, defaultBlock, awaiter);
      rpcId := rpcId + 1;
      id := rpcId;
      sent := sent + [Envelope("2.0", methodName, BuildParams(params, defaultBlock), id)];
      requestQueue := requestQueue[id := awaiter];
      emitters := emitters[id := FreshEmitter];
      statusEmitters := statusEmitters + {id};
    }

    /** `call(method, params, defaultBlock)` by the application on an open
        connection (index.js:16-47). */
    method Call(methodName: Value, params: Value, defaultBlock: Value) returns (id: int)
      requires Valid() && open
      modifies this
      ensures Valid()
      ensures Snapshot() == Machine.CallStep(old(Snapshot()), methodName, params, defaultBlock, Machine.Application)
      ensures id == rpcId == old(rpcId) + 1
    {
      id := Request(methodName, params, defaultBlock, Machine.Application);
    }

    /** `subscribe(name)` on an open connection (index.js:48-62). */
    method Subscribe(name: Value)
      requires Valid() && open
      modifies this
      ensures Valid()
      ensures Snapshot() == Machine.SubscribeStep(old(Snapshot()), name)
    {
      var _ := Request(Str(Machine.SubscribeMethod), name, Num(0), Machine.SubscribeFor(name));
    }

    /** `resolve`/`reject` of call `id`, then the handlers chained to its
        promise, a receipt poll's guarded by `statusEmitters.has(id)`. An
        internal step of HandleMessage and SendCompleted: it runs between
        the removal of the pending entry and the end of the step, where the
        invariant does not hold, so it neither needs nor keeps Valid(). */
    method SettleRequest(id: int, awaiter: Machine.Caller, outcome: Outcome)
      requires awaiter.ReceiptPollFor? ==> awaiter.emitter in emitters
      modifies this
      ensures Snapshot() == Machine.Settle(old(Snapshot()), id, awaiter, outcome)
    {
      if id in results {
        return;
      }
      results := results[id := outcome];
      match awaiter
      case Application =>
      case SubscribeFor(name) =>
        if outcome.Fulfilled? {
          subscriptions := subscriptions[outcome.value := name];
          events := events + [SubscribeCallback(name, outcome)];
        } else {
          events := events + [SubError(outcome.error), SubscribeCallback(name, outcome)];
        }
      case ReceiptPollFor(eid, block) =>
        if eid in statusEmitters {
          var step := if outcome.Fulfilled? then OnPollFulfilled(emitters[eid], eid, block, outcome.value)
                      else OnPollRejected(emitters[eid], eid, outcome.error);
          emitters := emitters[eid := step.emitter];
          if step.remove {
            statusEmitters := statusEmitters - {eid};
          }
          events := events + step.emitted;
        }
    }

    /** The status-emitter part of a response for id `id` (index.js:72-81).
        An internal step of HandleMessage, which keeps Valid() around it. */
    method CheckHash(id: int, result: Value)
      requires Machine.Valid(Snapshot())
      modifies this
      ensures Snapshot() == Machine.HashCheck(old(Snapshot()), id, result)
    {
      if id in statusEmitters {
        events := events + [TxHashEvent(id, result)];
        if MatchesTxHash(result) {
          emitters := emitters[id := emitters[id].(txHash := Some(result))];
        } else {
          events := events + [ReceiptEvent(id, ReceiptError(HashNotReceived))];
          statusEmitters := statusEmitters - {id};
        }
      }
    }

    /** `handleMessage(data)` (index.js:63-86), with `parsed` what
        JSON.parse(data) gives; `fault` is the exception it throws. */
    method HandleMessage(data: string, parsed: Option<Message>) returns (fault: Option<Fault>)
      requires Valid()
      modifies this
      ensures Valid()
      ensures Machine.Receive(old(Snapshot()), data, parsed) == Machine.Reception(Snapshot(), fault)
    {
      ghost var s0 := Snapshot();
      Machine.ReceiveValid(s0, data, parsed);
      Machine.ReceiveKeepsHashes(s0, data, parsed);
      Machine.ReceiveKeepsReceiptsOnce(s0, data, parsed);
      var frame := Classify(data, parsed);
      match frame
      case NotProtocol =>
        fault := None;
      case Malformed(f) =>
        fault := Some(f);
      case Push(subscription, result) =>
        events := events + [Emitted(Machine.PushChannel(subscriptions, subscription), result)];
        fault := None;
      case Response(key, result, error) =>
        if key.Some? {
          CheckHash(key.value, result);
        }
        if key.Some? && key.value in requestQueue {
          var id := key.value;
          var awaiter := requestQueue[id];
          Machine.HashCheckValid(s0, id, result);
          requestQueue := requestQueue - {id};
          SettleRequest(id, awaiter, Machine.ResponseOutcome(result, error));
          fault := None;
        } else {
          fault := Some(UnknownRequest);
        }
    }

    /** The send callback of call `id` (index.js:30-32), with `err` the
        error the socket reported (falsy when the frame went out). */
    method SendCompleted(id: int, err: Value)
      requires Valid() && 1 <= id <= rpcId
      modifies this
      ensures Valid()
      ensures Snapshot() == Machine.SendDone(old(Snapshot()), id, err)
    {
      Machine.SendDoneFacts(Snapshot(), id, err);
      Machine.SendDoneKeepsHashes(Snapshot(), id, err);
      Machine.SendDoneKeepsReceiptsOnce(Snapshot(), id, err);
      if Truthy(err) && id !in results {
        SettleRequest(id, requestQueue[id], Rejected(err));
      }
    }

    /** The application attaches a `receipt` listener to the handle of call `id`. */
    method AddReceiptListener(id: int)
      requires Valid() && id in emitters
      modifies this
      ensures Valid()
      ensures Snapshot() == Machine.AddReceiptListener(old(Snapshot()), id)
    {
      Machine.ListenersValid(Snapshot(), id);
      Machine.ListenersKeepHashes(Snapshot(), id);
      Machine.ListenersKeepReceiptsOnce(Snapshot(), id);
      emitters := emitters[id := emitters[id].(receiptListeners := emitters[id].receiptListeners + 1)];
    }

    /** The application detaches an attached `receipt` listener from the handle of call `id` (listeners are counted, not identified). */
    method RemoveReceiptListener(id: int)
      requires Valid() && id in emitters
      modifies this
      ensures Valid()
      ensures Snapshot() == Machine.RemoveReceiptListener(old(Snapshot()), id)
    {
      Machine.ListenersValid(Snapshot(), id);
      Machine.ListenersKeepHashes(Snapshot(), id);
      Machine.ListenersKeepReceiptsOnce(Snapshot(), id);
      if emitters[id].receiptListeners > 0 {
        emitters := emitters[id := emitters[id].(receiptListeners := emitters[id].receiptListeners - 1)];
      }
    }

    /** `handleNewBlock(block)` (index.js:87-110) for block number `block`:
        the forEach over the ids the table held when the block arrived, in
        increasing order, polling each one that passes the skip rules. */
    method HandleNewBlock(block: int)
      requires Valid() && open
      modifies this
      ensures Valid()
      ensures Snapshot() == Machine.NewBlock(old(Snapshot()), block)
    {
      ghost var s0 := Snapshot();
      if |statusEmitters| == 0 {
        Machine.EmptyTableNoPolls(s0, block, s0.rpcId);
        return;
      }
      var n := rpcId;
      var i := 1;
      while i <= n
        invariant 1 <= i <= n + 1
        invariant n == s0.rpcId <= rpcId
        invariant Valid() && open
        invariant Snapshot() == Machine.Polls(s0, block, i - 1)
      {
        if i in statusEmitters && i in emitters && Polled(emitters[i]) {
          var _ := Request(Str(Machine.ReceiptMethod), emitters[i].txHash.value, Num(0), Machine.ReceiptPollFor(i, block));
        }
        i := i + 1;
      }
    }
  }
}
