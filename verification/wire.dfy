/**
 The `{ data, error }` object a wire adapter hands to a component's callback,
 and the error-message extraction the components share.
 */
module Wire {
  import opened JsValues

  /** `Some` stands for a truthy `data`; `None` for an absent (`undefined`/`null`) one. */
  datatype Option<+T> = None | Some(value: T)

  /** One delivery of a wire adapter. `error` may be any value; only its truthiness is branched on. */
  datatype WireResult<+D> = WireResult(data: Option<D>, error: Value)
  {
    predicate HasData() {
      data.Some?
    }

    predicate HasError() {
      Truthy(error)
    }
  }

  /** `error?.body?.message`; for a truthy error this is also what `error.body?.message` reads. */
  function BodyMessage(error: Value): (r: Value)
    ensures !error.Obj? ==> r == Undefined
    ensures error.Obj? && "body" in error.props && error.props["body"].Obj?
            && "message" in error.props["body"].props
            ==> r == error.props["body"].props["message"]
    ensures error.Obj? && !("body" in error.props && error.props["body"].Obj?
                            && "message" in error.props["body"].props)
            ==> r == Undefined
  {
    OptionalProp(OptionalProp(error, "body"), "message")
  }
}
