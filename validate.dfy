/** The validator library's error list, the helpers every validator chain
    shares, and the gate that every validated route passes through after its
    chains: it answers 400 with the collected errors, or lets the request go on. */
module ValidationGate {
  import opened Text
  import opened Js

  /** One entry of the validator library's error list. */
  datatype ValidationError = ValidationError(param: string, msg: string)

  /** The value a chain's validators see after its `trim()`: the text of the
      value, with undefined and null read as "". */
  function ChainText(v: Option<JsValue>): string {
    Trim(Stringify(v.GetOr(Undefined)))
  }

  /** `optional()` skips a chain only when the value is undefined. */
  predicate Supplied(v: Option<JsValue>) {
    v.Some? && !v.value.Undefined?
  }

  function Tag(param: string, msgs: seq<string>): (errs: seq<ValidationError>)
    ensures |errs| == |msgs|
    ensures forall i :: 0 <= i < |msgs| ==> errs[i] == ValidationError(param, msgs[i])
  {
    seq(|msgs|, i requires 0 <= i < |msgs| => ValidationError(param, msgs[i]))
  }

  function OptionalChain(param: string, v: Option<JsValue>, rule: string -> seq<string>): seq<ValidationError> {
    if Supplied(v) then Tag(param, rule(ChainText(v))) else []
  }

  /** One entry of the `errors` array of a 400 response. */
  datatype FieldMessage = FieldMessage(field: string, message: string)

  datatype Gate =
    | Next
    | Respond(status: int, success: bool, errors: seq<FieldMessage>)

  /** `validate`: pass on when no error was collected; otherwise answer 400 with
      one `{field, message}` per error, in the same order. */
  function Validate(errors: seq<ValidationError>): (g: Gate)
    ensures g.Next? <==> errors == []
    ensures g.Respond? ==> g.status == 400 && !g.success
    ensures g.Respond? ==> |g.errors| == |errors|
    ensures g.Respond? ==> forall i :: 0 <= i < |errors| ==>
              g.errors[i].field == errors[i].param && g.errors[i].message == errors[i].msg
  {
    if errors == [] then Next
    else Respond(400, false, seq(|errors|, i requires 0 <= i < |errors| =>
                                 FieldMessage(errors[i].param, errors[i].msg)))
  }

  /** The errors a gate response reports, read back as validation errors. */
  function Reported(g: Gate): seq<ValidationError> {
    match g
    case Next => []
    case Respond(_, _, es) => seq(|es|, i requires 0 <= i < |es| => ValidationError(es[i].field, es[i].message))
  }

  /** The response loses nothing: the collected errors can be read back from it. */
  lemma ValidateReportsEverything(errors: seq<ValidationError>)
    ensures Reported(Validate(errors)) == errors
  {
    var g := Validate(errors);
    if g.Respond? {
      assert forall i :: 0 <= i < |errors| ==> Reported(g)[i] == errors[i];
    }
  }
}
