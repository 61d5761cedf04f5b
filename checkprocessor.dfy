/** The check processor (checkprocessor.go): runs the user's check
    function on an order and, when it succeeds, writes one `CheckResult`
    into the order's result slot. What the check function returns on a
    given call is an input (`Verdict` or an error). */
module CheckProcessor {
  import opened Base
  import opened CheckOrders
  import opened CheckResults

  /** What a successful call of the check function returns. */
  datatype Verdict = Verdict(msg: string, success: bool)

  /** A processor wraps a non-nil check function. */
  datatype Processor = Processor(f: Component)

  function NewCheckOrderProcessor(f: Option<Component>): (r: Result<Processor, Error>)
    ensures r.Failure? <==> f.None?
    ensures r.Failure? ==> r.error == Error("must be not-nil CheckOrderProcessorFunc")
    ensures r.Success? ==> r.value.f == f.value
  {
    if f.None? then Failure(Error("must be not-nil CheckOrderProcessorFunc")) else Success(Processor(f.value))
  }

  /** `setResult`: the result written for `o` from the function's message
      and success flag. */
  function ResultFor(o: CheckOrder, v: Verdict): (r: CheckResult)
    ensures r.ObjectType() == o.ObjectType()
    ensures r.ObjectIdentifier() == o.ObjectIdentifier()
    ensures r.CheckName() == o.CheckName()
    ensures r.ResultMessage() == v.msg && r.CheckSuccess() == v.success
  {
    NewCheckResult(o.ObjectType(), o.ObjectIdentifier(), o.CheckName(), v.msg, v.success)
  }

  /** `process`: `Failure(e)` — the function's error `e` is returned
      unchanged and nothing is written; `Success(r)` — nil is returned and
      exactly the one result `r` is written to the order's slot. */
  function process(p: Processor, o: CheckOrder, call: Result<Verdict, Error>): (r: Result<CheckResult, Error>)
    ensures r.Failure? <==> call.Failure?
    ensures r.Failure? ==> r.error == call.error
    ensures r.Success? ==> r.value == ResultFor(o, call.value)
  {
    match call
    case Failure(e) => Failure(e)
    case Success(v) => Success(ResultFor(o, v))
  }

  /** `Process` delegates to `process` with the same arguments. */
  function Process(p: Processor, o: CheckOrder, call: Result<Verdict, Error>): (r: Result<CheckResult, Error>)
    ensures r == process(p, o, call)
  {
    process(p, o, call)
  }
}
