/** The status emitter of a call and what the receipt poll's handlers do to
    it (index.js:88-107). The handlers are pure here: given the emitter and
    the poll's outcome they give the emitter's new fields, whether it leaves
    the tracking table, and what it emits. */
module Tracker {
  import opened JsValues
  import opened Events

  /** The fields of a status emitter the connection reads or writes:
      `txHash` (set by the dispatcher), `startBlock` (set by the poll) and
      the number of `receipt` listeners the application attached. */
  datatype Emitter = Emitter(txHash: Option<Value>, startBlock: Option<int>, receiptListeners: nat)

  /** `new EventEmitter()` as `call` creates it. */
  const FreshEmitter := Emitter(None, None, 0)

  /** Blocks without a receipt after which tracking gives up. */
  const TimeoutBlocks := 50

  const PollErrorPrefix := "eth_getTransactionReceipt error: "

  /** The two skip rules of the per-block loop: `listenerCount('receipt')`
      and `emitter.txHash` must both be truthy for a poll to be issued. */
  predicate Polled(e: Emitter) {
    e.receiptListeners > 0 && e.txHash.Some? && Truthy(e.txHash.value)
  }

  /** `emitter.startBlock || parseInt(block.number)`: the block tracking
      started at, fixed by the first completed poll; a start block of 0 is
      falsy and is replaced. */
  function StartBlockAfter(prev: Option<int>, block: int): int {
    if prev.Some? && prev.value != 0 then prev.value else block
  }

  /** `'No receipt in 50 blocks for Tx: ' + emitter.txHash` */
  function TimeoutMessage(txHash: Option<Value>): string {
    "No receipt in 50 blocks for Tx: " + (if txHash.Some? then Stringify(txHash.value) else "undefined")
  }

  /** The emitter after a handler ran, whether `statusEmitters.delete(id)`
      ran, and the events emitted, in order. */
  datatype TrackerStep = TrackerStep(emitter: Emitter, remove: bool, emitted: seq<Event>)

  /** The poll's `.catch` handler (index.js:103-107) on emitter `eid`: it
      rewrites `error.message` and emits it. On a primitive error the
      property cannot be read or set, the handler throws, and nothing
      catches that. */
  function OnPollRejected(e: Emitter, eid: int, error: Value): TrackerStep {
    if IsObject(error) then
      TrackerStep(e, true, [ReceiptEvent(eid, PollFailed(error, PollErrorPrefix + Stringify(Property(error, "message"))))])
    else
      TrackerStep(e, false, [UnhandledRejection(TypeError("message of a primitive error"))])
  }

  /** The poll's `.then` handler (index.js:92-102) on emitter `eid` for a
      poll issued at block `block` that produced `receipt`. Setting
      `blocksSince` on a truthy primitive throws, which the chained `.catch`
      then handles. */
  function OnPollFulfilled(e: Emitter, eid: int, block: int, receipt: Value): TrackerStep {
    var start := StartBlockAfter(e.startBlock, block);
    var tracked := e.(startBlock := Some(start));
    var blocksSince := block - start;
    if !Truthy(receipt) && blocksSince >= TimeoutBlocks then
      TrackerStep(tracked, true, [ReceiptEvent(eid, ReceiptError(TimeoutMessage(e.txHash)))])
    else if Truthy(receipt) then
      if IsObject(receipt) then TrackerStep(tracked, true, [ReceiptEvent(eid, ReceiptFound(receipt, blocksSince))])
      else OnPollRejected(tracked, eid, TypeError("blocksSince of a primitive receipt"))
    else
      TrackerStep(tracked, false, [])
  }

  /** A completed poll touches only `startBlock`: it is set to the block
      number when unset (or 0) and kept otherwise. */
  lemma PollSetsStartBlock(e: Emitter, eid: int, block: int, receipt: Value)
    ensures OnPollFulfilled(e, eid, block, receipt).emitter
            == e.(startBlock := Some(StartBlockAfter(e.startBlock, block)))
    ensures e.startBlock.Some? && e.startBlock.value != 0 ==>
              OnPollFulfilled(e, eid, block, receipt).emitter.startBlock == e.startBlock
    ensures (e.startBlock.None? || e.startBlock == Some(0)) ==>
              OnPollFulfilled(e, eid, block, receipt).emitter.startBlock == Some(block)
  {
  }

  /** The outcome of a completed poll, with `blocksSince` the distance from
      the start block: the emitter leaves the table iff a receipt came or
      `blocksSince` reached 50; leaving is announced by exactly one `receipt`
      event and staying emits nothing. */
  lemma PollVerdict(e: Emitter, eid: int, block: int, receipt: Value)
    ensures var r := OnPollFulfilled(e, eid, block, receipt);
            var blocksSince := block - StartBlockAfter(e.startBlock, block);
            && (r.remove <==> Truthy(receipt) || blocksSince >= TimeoutBlocks)
            && (r.remove ==> |r.emitted| == 1 && r.emitted[0].ReceiptEvent? && r.emitted[0].emitter == eid)
            && (!r.remove ==> r.emitted == [])
            && (IsObject(receipt) ==> r.emitted == [ReceiptEvent(eid, ReceiptFound(receipt, blocksSince))])
            && (!Truthy(receipt) && blocksSince >= TimeoutBlocks ==>
                  r.emitted == [ReceiptEvent(eid, ReceiptError(TimeoutMessage(e.txHash)))])
            && (Truthy(receipt) && !IsObject(receipt) ==> r.emitted[0].argument.PollFailed?)
  {
  }

  /** A failed poll with an error object ends tracking with one `receipt`
      event whose message carries the prefix. */
  lemma PollFailureVerdict(e: Emitter, eid: int, error: Value)
    ensures var r := OnPollRejected(e, eid, error);
            && r.emitter == e
            && (r.remove <==> IsObject(error))
            && (r.remove ==> |r.emitted| == 1 && r.emitted[0].ReceiptEvent? && r.emitted[0].emitter == eid
                             && r.emitted[0].argument.PollFailed?
                             && r.emitted[0].argument.message[..|PollErrorPrefix|] == PollErrorPrefix)
  {
  }

  /** A handler's step emits a `receipt` event exactly when it removes the
      emitter, and then only that one event, for that emitter. */
  predicate ReceiptIffRemoved(r: TrackerStep, eid: int) {
    && (r.remove ==> |r.emitted| == 1 && r.emitted[0].ReceiptEvent? && r.emitted[0].emitter == eid)
    && (!r.remove ==> forall i :: 0 <= i < |r.emitted| ==> !r.emitted[i].ReceiptEvent?)
  }

  /** Both poll handlers announce removal by one `receipt` event and
      otherwise emit none; a handler that throws on a primitive error
      emits only the unhandled rejection. */
  lemma HandlersReceiptIffRemoved(e: Emitter, eid: int, block: int, receipt: Value, error: Value)
    ensures ReceiptIffRemoved(OnPollFulfilled(e, eid, block, receipt), eid)
    ensures ReceiptIffRemoved(OnPollRejected(e, eid, error), eid)
  {
  }

  /** Polls at blocks first, first + 1, ..., first + count - 1 that all come
      back without a receipt; once the emitter is removed it is not polled
      again. That last rule is built into this definition. That the
      connection itself never polls a removed emitter again is proved
      separately, by Machine.RemovedStaysRemovedOnBlock and
      Machine.NewBlockPollsExactly. */
  function QuietPolls(e: Emitter, eid: int, first: int, count: nat): TrackerStep
    decreases count
  {
    if count == 0 then TrackerStep(e, false, [])
    else
      var before := QuietPolls(e, eid, first, count - 1);
      if before.remove then before
      else
        var r := OnPollFulfilled(before.emitter, eid, first + count - 1, Null);
        TrackerStep(r.emitter, r.remove, before.emitted + r.emitted)
  }

  /** Tracking that starts at a nonzero block survives 50 receipt-less polls
      (blocksSince 0 to 49) without emitting anything. */
  lemma {:induction false} QuietPollsWait(e: Emitter, eid: int, first: int, count: nat)
    requires e.startBlock.None? || e.startBlock == Some(0)
    requires first != 0
    requires 1 <= count <= TimeoutBlocks
    ensures QuietPolls(e, eid, first, count) == TrackerStep(e.(startBlock := Some(first)), false, [])
    decreases count
  {
    if count > 1 {
      QuietPollsWait(e, eid, first, count - 1);
    }
  }

  /** The poll at block first + 50 (blocksSince 50) times out, and no later
      block changes anything. */
  lemma {:induction false} QuietPollsTimeout(e: Emitter, eid: int, first: int, count: nat)
    requires e.startBlock.None? || e.startBlock == Some(0)
    requires first != 0
    requires count > TimeoutBlocks
    ensures QuietPolls(e, eid, first, count)
            == TrackerStep(e.(startBlock := Some(first)), true,
                           [ReceiptEvent(eid, ReceiptError(TimeoutMessage(e.txHash)))])
    decreases count
  {
    if count == TimeoutBlocks + 1 {
      QuietPollsWait(e, eid, first, TimeoutBlocks);
    } else {
      QuietPollsTimeout(e, eid, first, count - 1);
    }
  }

  /** Tracking from block 100: blocks 100 to 149 bring no timeout, block 150
      emits the timeout error. */
  lemma TimeoutScenario(e: Emitter, eid: int)
    requires e.startBlock.None?
    ensures QuietPolls(e, eid, 100, 50).emitted == []
    ensures !QuietPolls(e, eid, 100, 50).remove
    ensures QuietPolls(e, eid, 100, 51).emitted == [ReceiptEvent(eid, ReceiptError(TimeoutMessage(e.txHash)))]
  {
    QuietPollsWait(e, eid, 100, 50);
    QuietPollsTimeout(e, eid, 100, 51);
  }

  /** Tracking from block 100, a receipt object arriving with the poll of
      block 105 is emitted with `blocksSince` 5 and ends tracking. */
  lemma ReceiptScenario(e: Emitter, eid: int, receipt: Value)
    requires e.startBlock.None?
    requires IsObject(receipt)
    ensures var r := OnPollFulfilled(QuietPolls(e, eid, 100, 5).emitter, eid, 105, receipt);
            r.remove && r.emitted == [ReceiptEvent(eid, ReceiptFound(receipt, 5))]
  {
    QuietPollsWait(e, eid, 100, 5);
  }
}
