/** `getBlockHeight`: GET `/blocks?limit=1`, then the truthiness check
    `body && body.data && body.data[0].height && body.data[0].id`. */
module Height {
  import opened Wrappers
  import opened Js
  import opened Promise

  /** The callback's decision on a delivered body, evaluated as JavaScript
      evaluates the `&&` chain: left to right, stopping at the first falsy
      operand, throwing if `data[0]` is undefined or null. */
  function SelectHeight(body: JsValue): (o: Outcome)
    ensures o.Rejected? ==> o.reason == NoData
    ensures o.Crashed? ==> o.fault == TypeError && Truthy(body) && Truthy(Get(body, "data").value)
    ensures o.Resolved? ==> Truthy(o.value)
    ensures o.Resolved? ==> ShapeHolds(body) && o.value == FirstField(body, "height")
    ensures ShapeHolds(body) ==> o.Resolved?
  {
    if !Truthy(body) then Rejected(NoData)
    else
      var data := Get(body, "data").value;
      if !Truthy(data) then Rejected(NoData)
      else
        var first := At(data, 0).value;
        match Get(first, "height")
        case None => Crashed(TypeError)
        case Some(height) =>
          if !Truthy(height) then Rejected(NoData)
          else if !Truthy(Get(first, "id").value) then Rejected(NoData)
          else Resolved(height)
  }

  /** `body.data[0]`, for a body whose reads up to there cannot throw. */
  function First(body: JsValue): JsValue
    requires Truthy(body) && Truthy(Get(body, "data").value)
  {
    At(Get(body, "data").value, 0).value
  }

  /** `body.data[0][key]`, or undefined when any read on the way would throw
      or the chain stops earlier. */
  function FirstField(body: JsValue, key: string): JsValue {
    if Truthy(body) && Truthy(Get(body, "data").value) then
      match Get(First(body), key)
      case Some(v) => v
      case None => Undefined
    else Undefined
  }

  /** The condition the source tests, stated on the value tree. */
  predicate ShapeHolds(body: JsValue) {
    && Truthy(body)
    && Truthy(Get(body, "data").value)
    && Truthy(FirstField(body, "height"))
    && Truthy(FirstField(body, "id"))
  }

  /** The callback: a transport error rejects with that error before any
      shape check; a body goes through the check. */
  function BlockHeight(t: Transport): (o: Outcome)
    ensures t.TransportErr? ==> o == Rejected(TransportFailure(t.cause))
    ensures o == Rejected(NoData) ==> t.Ok? && !ShapeHolds(t.body)
    ensures t.Ok? && ShapeHolds(t.body) ==> o == Resolved(FirstField(t.body, "height"))
  {
    match t
    case TransportErr(cause) => Rejected(TransportFailure(cause))
    case Ok(body) => SelectHeight(body)
  }

  /** The three ways the check can end, and when each happens: crash exactly
      when `data` is truthy but `data[0]` is undefined or null — so an empty
      array crashes instead of rejecting — resolve exactly when the shape
      holds, reject with 'No Data' otherwise. */
  lemma {:induction false} SelectHeightCases(body: JsValue)
    ensures SelectHeight(body).Crashed? <==>
      Truthy(body) && Truthy(Get(body, "data").value) && Nullish(First(body))
    ensures SelectHeight(body).Resolved? <==> ShapeHolds(body)
    ensures SelectHeight(body) == Rejected(NoData) <==>
      !ShapeHolds(body) && !(Truthy(body) && Truthy(Get(body, "data").value) && Nullish(First(body)))
  {
    if Truthy(body) && Truthy(Get(body, "data").value) {
      var first := First(body);
      if !Nullish(first) {
        TruthyReadableFirst(first);
      }
    }
  }

  /** Reads on a value that is neither undefined nor null do not throw. */
  lemma TruthyReadableFirst(v: JsValue)
    requires !Nullish(v)
    ensures Get(v, "height").Some? && Get(v, "id").Some?
  {
  }

  /** The well-formed reply `{data: [{height: h, id: i}, ...]}` with a truthy
      height and id resolves with that height. */
  lemma WellFormedReplyResolves(h: JsValue, id: JsValue, rest: seq<JsValue>, others: map<string, JsValue>)
    requires Truthy(h) && Truthy(id)
    ensures
      var block := Obj(others["height" := h]["id" := id]);
      SelectHeight(Obj(map["data" := Arr([block] + rest)])) == Resolved(h)
  {
  }

  /** Height 0 is rejected with 'No Data' although it is a number. */
  lemma HeightZeroRejected(id: JsValue)
    ensures SelectHeight(Obj(map["data" := Arr([Obj(map["height" := Num(0), "id" := id])])])) == Rejected(NoData)
  {
  }

  /** An empty id is rejected with 'No Data', whatever the height. */
  lemma EmptyIdRejected(h: JsValue)
    ensures SelectHeight(Obj(map["data" := Arr([Obj(map["height" := h, "id" := Str("")])])])) == Rejected(NoData)
  {
  }

  /** `{data: []}` passes `body.data` (an array is truthy) and then throws on
      `body.data[0].height`: the promise is not rejected with 'No Data'. */
  lemma EmptyDataCrashes()
    ensures SelectHeight(Obj(map["data" := Arr([])])) == Crashed(TypeError)
  {
  }

  /** The example reply `{data: [{height: 100, id: "abc"}]}` resolves to 100. */
  lemma ExampleReply()
    ensures BlockHeight(Ok(Obj(map["data" := Arr([Obj(map["height" := Num(100), "id" := Str("abc")])])]))) == Resolved(Num(100))
  {
  }
}
