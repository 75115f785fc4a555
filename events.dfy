/** What the connection produces besides its own tables: the request
    envelopes it sends, the settlement of each call's promise, and the
    events it emits, in order. */
module Events {
  import opened JsValues

  /** A request envelope before JSON.stringify (index.js:21-27). */
  datatype Envelope = Envelope(jsonrpc: string, methodName: Value, params: seq<Value>, id: int)

  /** How a call's promise settled. */
  datatype Outcome = Fulfilled(value: Value) | Rejected(error: Value)

  /** The argument of a `receipt` event on a status emitter. */
  datatype ReceiptPayload =
      /** `{receipt}`, the receipt object with `blocksSince` set on it */
    | ReceiptFound(receipt: Value, blocksSince: int)
      /** `{error: new Error(message)}` */
    | ReceiptError(message: string)
      /** `{error}`, a failed poll's error whose `message` now reads `message` */
    | PollFailed(error: Value, message: string)

  datatype Event =
      /** the connection's own `emit(channel, data)` for a subscription push */
    | Emitted(channel: Value, data: Value)
      /** `emit('txHash', {txHash})` on the status emitter of call `emitter` */
    | TxHashEvent(emitter: int, txHash: Value)
      /** `emit('receipt', argument)` on the status emitter of call `emitter` */
    | ReceiptEvent(emitter: int, argument: ReceiptPayload)
      /** the connection's `emit('subError', error)` */
    | SubError(error: Value)
      /** the subscribe callback: `cb(false, id)` or `cb(error)` */
    | SubscribeCallback(name: Value, outcome: Outcome)
      /** a promise handler threw and nothing catches the rejection */
    | UnhandledRejection(error: Value)

  const HashNotReceived := "Tx Hash was not received!"

  /** The error a handler throws when it sets a property on a primitive
      (class bodies are strict mode). The runtime's wording is not modelled. */
  function TypeError(what: string): Value {
    Obj(map["name" := Str("TypeError"), "message" := Str(what)])
  }
}
