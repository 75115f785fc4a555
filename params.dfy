/** The `params` array of a request envelope, as `call` builds it from its
    `params` and `defaultBlock` arguments (index.js:24-29). */
module Params {
  import opened JsValues

  /** What `params` contributes: an array is spread element by element, any
      other truthy value is one element, a falsy value contributes nothing. */
  function Spread(params: Value): seq<Value> {
    if !Truthy(params) then []
    else if params.Arr? then params.elems
    else [params]
  }

  /** `payload.params` after both pushes: `defaultBlock` (0 when the caller
      leaves it out) goes last, and only when it is truthy. */
  function BuildParams(params: Value, defaultBlock: Value): seq<Value> {
    Spread(params) + (if Truthy(defaultBlock) then [defaultBlock] else [])
  }

  // An element-wise reading of the `params` argument, independent of Spread.

  /** How many positional arguments `params` stands for. */
  function ArgCount(params: Value): nat {
    match params
    case Arr(xs) => |xs|
    case _ => if Truthy(params) then 1 else 0
  }

  /** The k-th positional argument that `params` stands for. */
  function Arg(params: Value, k: nat): Value
    requires k < ArgCount(params)
  {
    match params
    case Arr(xs) => xs[k]
    case _ => params
  }

  /** The envelope carries the arguments of `params` in order, followed by
      `defaultBlock` exactly when it is truthy. */
  lemma {:induction false} ParamsLayout(params: Value, defaultBlock: Value)
    ensures |BuildParams(params, defaultBlock)|
            == ArgCount(params) + (if Truthy(defaultBlock) then 1 else 0)
    ensures forall k :: 0 <= k < ArgCount(params) ==>
              BuildParams(params, defaultBlock)[k] == Arg(params, k)
    ensures Truthy(defaultBlock) ==>
              BuildParams(params, defaultBlock)[ArgCount(params)] == defaultBlock
  {
    var r := BuildParams(params, defaultBlock);
    assert r[..|Spread(params)|] == Spread(params);
    if params.Arr? {
      assert Spread(params) == params.elems;
    } else if Truthy(params) {
      assert Spread(params) == [params];
    } else {
      assert Spread(params) == [];
    }
  }

  /** A falsy `defaultBlock` (0, null, false, "" or undefined) is omitted, not
      sent as a placeholder: the request is the one built without it. */
  lemma FalsyDefaultBlockOmitted(params: Value, defaultBlock: Value)
    requires !Truthy(defaultBlock)
    ensures BuildParams(params, defaultBlock) == BuildParams(params, Num(0))
    ensures BuildParams(params, defaultBlock) == Spread(params)
  {
  }

  /** An array argument is sent as its elements, never as one nested array;
      an empty array therefore sends nothing even though it is truthy. */
  lemma ArrayIsSpread(xs: seq<Value>, defaultBlock: Value)
    ensures BuildParams(Arr(xs), defaultBlock)[..|xs|] == xs
    ensures xs == [] ==> BuildParams(Arr(xs), Num(0)) == []
  {
    assert BuildParams(Arr(xs), defaultBlock)[..|xs|] == Spread(Arr(xs));
  }
}
