/** The outcome of one check (checkresult.go): an immutable record. */
module CheckResults {

  datatype CheckResult = CheckResult(ot: string, oid: string, cn: string, rm: string, cs: bool)
  {
    function ObjectType(): string { ot }
    function ObjectIdentifier(): string { oid }
    function CheckName(): string { cn }
    function ResultMessage(): string { rm }
    function CheckSuccess(): bool { cs }
  }

  /** `NewCheckResult(objectType, objectID, checkTypeName, result, success)`:
      each accessor gives back the argument in its position. */
  function NewCheckResult(objectType: string, objectID: string, checkTypeName: string, result: string, success: bool): (r: CheckResult)
    ensures r.ObjectType() == objectType
    ensures r.ObjectIdentifier() == objectID
    ensures r.CheckName() == checkTypeName
    ensures r.ResultMessage() == result
    ensures r.CheckSuccess() == success
  {
    CheckResult(objectType, objectID, checkTypeName, result, success)
  }
}
