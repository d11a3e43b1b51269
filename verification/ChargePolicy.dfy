/** Which upstream outcomes are charged. */
module ChargePolicy {

  /** An error returned by the upstream call: does its chain hold a deadline error, and
      which JSON-RPC code does it carry, if any. */
  datatype CallError = NoCallError | CallError(deadline: bool, code: RpcCode)
  datatype RpcCode = NoRpcCode | Code(value: int)

  const PARSE_ERROR := -32700
  const INVALID_REQUEST := -32600
  const METHOD_NOT_FOUND := -32601
  const INVALID_PARAMS := -32602

  datatype CallFailure = CallFailure(failed: bool, clientError: bool, timeout: bool)

  datatype ChargeOptions = ChargeOptions(onClientError: bool, onTimeout: bool)

  function ClassifyCallFailure(err: CallError, resultIsError: bool): CallFailure {
    match err
    case NoCallError => CallFailure(resultIsError, resultIsError, false)
    case CallError(deadline, code) =>
      CallFailure(true,
                  code.Code? && code.value in {PARSE_ERROR, INVALID_REQUEST, METHOD_NOT_FOUND, INVALID_PARAMS},
                  deadline)
  }

  predicate Charge(f: CallFailure, o: ChargeOptions) {
    if !f.failed then true
    else if f.clientError && o.onClientError then true
    else f.timeout && o.onTimeout
  }

  predicate ShouldChargeCall(err: CallError, resultIsError: bool, o: ChargeOptions) {
    Charge(ClassifyCallFailure(err, resultIsError), o)
  }

  /** Which calls are charged: successes; failures that are the caller's fault, reported in the
      result or by one of four JSON-RPC codes, if client errors are; and those whose deadline
      passed, if timeouts are. */
  lemma ChargedIff(err: CallError, isError: bool, o: ChargeOptions)
    ensures ShouldChargeCall(err, isError, o)
            <==> || (err == NoCallError && !isError)
                 || (o.onClientError && err == NoCallError)
                 || (o.onClientError && err.CallError? && err.code.Code?
                     && (err.code.value == -32700 || -32602 <= err.code.value <= -32600))
                 || (o.onTimeout && err.CallError? && err.deadline)
  {
  }

  /** Widening an option never turns a charged call into a refunded one, a success is charged
      under every setting, and a failure that is neither the caller's fault nor a timeout under none. */
  lemma ChargeIsMonotone(err: CallError, isError: bool, o: ChargeOptions, o': ChargeOptions)
    requires (o.onClientError ==> o'.onClientError) && (o.onTimeout ==> o'.onTimeout)
    ensures ShouldChargeCall(err, isError, o) ==> ShouldChargeCall(err, isError, o')
    ensures (forall any :: ShouldChargeCall(err, isError, any)) <==> (err == NoCallError && !isError)
    ensures (forall any :: !ShouldChargeCall(err, isError, any))
            <==> err.CallError? && !err.deadline
                 && (err.code == NoRpcCode
                     || err.code.value !in {PARSE_ERROR, INVALID_REQUEST, METHOD_NOT_FOUND, INVALID_PARAMS})
  {
    var strict, lenient := ChargeOptions(false, false), ChargeOptions(true, true);
    assert ShouldChargeCall(err, isError, strict) ==> err == NoCallError && !isError;
    assert !ShouldChargeCall(err, isError, lenient) ==> err.CallError? && !err.deadline;
  }
}
