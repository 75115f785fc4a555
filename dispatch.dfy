/** Classification of an inbound frame by `handleMessage` (index.js:63-72):
    the prefix filter, JSON.parse, the subscription-push test and the
    destructuring of a push's params. */
module Dispatch {
  import opened JsValues

  /** The decoded message, with `Undefined` for each property it lacks. */
  datatype Message = Message(methodName: Value, id: Value, result: Value, error: Value, params: Value)

  /** Why handling a frame threw. */
  datatype Fault =
      /** JSON.parse rejected the text */
    | ParseFailed
      /** `message.method` is truthy but has no `indexOf` */
    | MethodHasNoIndexOf
      /** `message.params` is null or undefined and cannot be destructured */
    | ParamsUnreadable
      /** no pending request under `message.id`: `request.reject` / `request.resolve` of undefined */
    | UnknownRequest

  /** Where a frame goes. */
  datatype Frame =
    | NotProtocol
    | Malformed(fault: Fault)
    | Push(subscription: Value, result: Value)
    | Response(key: Option<int>, result: Value, error: Value)

  const FramePrefix := "{\"jsonrpc"
  const PushMarker := "_subscription"

  predicate StartsWith(s: string, prefix: string) {
    |prefix| <= |s| && s[..|prefix|] == prefix
  }

  /** `s.indexOf(t) !== -1` */
  predicate HasInfix(s: string, t: string)
    decreases |s|
  {
    StartsWith(s, t) || (s != "" && HasInfix(s[1..], t))
  }

  /** `t` occurs in `s` starting at index i. */
  ghost predicate OccursAt(s: string, t: string, i: int) {
    0 <= i <= |s| - |t| && s[i..i + |t|] == t
  }

  /** The search finds `t` iff it occurs somewhere in `s`. */
  lemma {:induction false} HasInfixAt(s: string, t: string)
    ensures HasInfix(s, t) <==> exists i :: OccursAt(s, t, i)
    decreases |s|
  {
    if StartsWith(s, t) {
      assert OccursAt(s, t, 0);
    } else if s != "" {
      HasInfixAt(s[1..], t);
      if exists i :: OccursAt(s, t, i) {
        var i :| OccursAt(s, t, i);
        assert i > 0;
        assert s[1..][i - 1..i - 1 + |t|] == s[i..i + |t|];
        assert OccursAt(s[1..], t, i - 1);
      }
      if HasInfix(s[1..], t) {
        var j :| OccursAt(s[1..], t, j);
        assert s[j + 1..j + 1 + |t|] == s[1..][j..j + |t|];
        assert OccursAt(s, t, j + 1);
      }
    }
  }

  /** `message.method.indexOf(...)` can be evaluated: strings and arrays
      have `indexOf`; the other truthy values do not. */
  predicate CanSearch(methodName: Value) {
    !Truthy(methodName) || methodName.Str? || methodName.Arr?
  }

  /** `message.method && message.method.indexOf('_subscription') !== -1`;
      on an array, indexOf looks for an element equal to the string. */
  predicate IsPushMethod(methodName: Value)
    requires CanSearch(methodName)
  {
    Truthy(methodName) &&
    match methodName
    case Str(s) => HasInfix(s, PushMarker)
    case Arr(xs) => Str(PushMarker) in xs
    case _ => false
  }

  /** The key a Map lookup `m.get(message.id)` can find among the numeric
      request ids: a number matches by value; a string such as "1" or any
      other value matches no id. */
  function IdKey(id: Value): Option<int> {
    if id.Num? then Some(id.n) else None
  }

  /** The dispatcher's decision for raw text `data` whose JSON.parse result
      is `parsed` (None when JSON.parse throws). */
  function Classify(data: string, parsed: Option<Message>): Frame {
    if !StartsWith(data, FramePrefix) then NotProtocol
    else if parsed.None? then Malformed(ParseFailed)
    else
      var m := parsed.value;
      if !CanSearch(m.methodName) then Malformed(MethodHasNoIndexOf)
      else if IsPushMethod(m.methodName) then
        if !Readable(m.params) then Malformed(ParamsUnreadable)
        else Push(Property(m.params, "subscription"), Property(m.params, "result"))
      else Response(IdKey(m.id), m.result, m.error)
  }

  /** Every frame kind, both directions: only frames starting with the
      prefix are looked at; a push is recognised by its method alone; every
      other well-formed envelope is treated as a response. */
  lemma ClassifyCases(data: string, parsed: Option<Message>)
    ensures Classify(data, parsed).NotProtocol? <==> !StartsWith(data, FramePrefix)
    ensures (Classify(data, parsed) == Malformed(ParseFailed))
              <==> (StartsWith(data, FramePrefix) && parsed.None?)
    ensures (Classify(data, parsed).Push?)
              <==> (&& StartsWith(data, FramePrefix) && parsed.Some?
                    && CanSearch(parsed.value.methodName) && IsPushMethod(parsed.value.methodName)
                    && Readable(parsed.value.params))
    ensures Classify(data, parsed).Push? ==>
              Classify(data, parsed).subscription == Property(parsed.value.params, "subscription")
              && Classify(data, parsed).result == Property(parsed.value.params, "result")
    ensures (Classify(data, parsed).Response?)
              <==> (&& StartsWith(data, FramePrefix) && parsed.Some?
                    && CanSearch(parsed.value.methodName) && !IsPushMethod(parsed.value.methodName))
    ensures Classify(data, parsed).Response? ==>
              Classify(data, parsed) == Response(IdKey(parsed.value.id), parsed.value.result, parsed.value.error)
  {
  }

  /** Method names as a node sends them. */
  lemma PushMethodExamples()
    ensures IsPushMethod(Str("eth_subscription"))
    ensures !IsPushMethod(Str("eth_subscribe"))
    ensures !IsPushMethod(Undefined)
  {
    HasInfixAt("eth_subscription", PushMarker);
    assert OccursAt("eth_subscription", PushMarker, 3);
    HasInfixAt("eth_subscribe", PushMarker);
    assert "eth_subscribe"[0..|PushMarker|][0] != PushMarker[0];
  }
}
