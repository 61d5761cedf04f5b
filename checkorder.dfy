/** A work item of the check pipeline (checkorder.go): the check to run,
    the object to run it on, and the Kafka message it came from. The
    order's result slot and its `Published` flag are state of the pipeline
    that carries the order, so they live in `CheckService.Pipeline`
    (`results`, `published`), keyed by the order's dispatch position. */
module CheckOrders {
  import opened Base

  datatype CheckOrder = CheckOrder(cn: string, qm: Message, ot: string, oid: string)
  {
    function CheckName(): string { cn }
    function ObjectType(): string { ot }
    function ObjectIdentifier(): string { oid }

    /** `Ack` and `Nack` act on this message and return its error. */
    function AckTarget(): Message { qm }
  }

  /** `newCheckOrder(checkName, objectType, objectIdentifier, msg)`: note
      the argument order, check name first. */
  function NewCheckOrder(checkName: string, objectType: string, objectIdentifier: string, msg: Message): (o: CheckOrder)
    ensures o.CheckName() == checkName
    ensures o.ObjectType() == objectType
    ensures o.ObjectIdentifier() == objectIdentifier
    ensures o.AckTarget() == msg
  {
    CheckOrder(checkName, msg, objectType, objectIdentifier)
  }
}
