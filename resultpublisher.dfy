/** The Kafka result publisher (resultpublisher.go): maps a check result
    to its wire record and puts it on the results topic. The JSON encoding
    and the Kafka `Put` are inputs (their errors); the model returns the
    puts made. */
module ResultPublisher {
  import opened Base
  import opened CheckResults

  const ConfigResultsTopicNameKey := "pim_check_results_topic"

  /** The wire record of a check result. */
  datatype ResultDTO = ResultDTO(ObjectType: string, Identifier: string, CheckName: string,
                                 CheckStatus: bool, CheckMessage: string)

  /** One call of the Kafka adapter's `Put`. */
  datatype Put = Put(topic: string, dto: ResultDTO)

  /** `NewKafkaResultPublisher`'s checks, in the source's order: nil
      config and logger, the results-topic key, then the adapter's
      `FromConfig` and `EnsureTopic` (`adapterErr`, `ensureErr`). On success
      the value is the results topic. */
  function NewKafkaResultPublisher(cfg: Option<Config>, l: Option<Component>,
                                   adapterErr: Option<Error>, ensureErr: Option<Error>): (r: Result<string, Error>)
    ensures cfg.None? ==> r == Failure(Error("must be not-nil config"))
    ensures cfg.Some? && l.None? ==> r == Failure(Error("must be not-nil logger"))
    ensures cfg.Some? && l.Some? && ConfigResultsTopicNameKey !in cfg.value.strings ==>
      r == Failure(MissingKey(ConfigResultsTopicNameKey))
    ensures cfg.Some? && l.Some? && ConfigResultsTopicNameKey in cfg.value.strings && adapterErr.Some? ==>
      r == Failure(adapterErr.value)
    ensures cfg.Some? && l.Some? && ConfigResultsTopicNameKey in cfg.value.strings && adapterErr.None? &&
            ensureErr.Some? ==>
      r == Failure(ensureErr.value)
    ensures r.Success? <==>
      cfg.Some? && l.Some? && ConfigResultsTopicNameKey in cfg.value.strings && adapterErr.None? && ensureErr.None?
    ensures r.Success? ==> r.value == cfg.value.strings[ConfigResultsTopicNameKey]
  {
    if cfg.None? then Failure(Error("must be not-nil config"))
    else if l.None? then Failure(Error("must be not-nil logger"))
    else
      match cfg.value.GetString(ConfigResultsTopicNameKey)
      case Failure(e) => Failure(e)
      case Success(topic) =>
        if adapterErr.Some? then Failure(adapterErr.value)
        else if ensureErr.Some? then Failure(ensureErr.value)
        else Success(topic)
  }

  /** The field mapping of `PublishCheckResult`. */
  function ToDTO(r: CheckResult): (d: ResultDTO)
    ensures d.ObjectType == r.ObjectType() && d.Identifier == r.ObjectIdentifier()
    ensures d.CheckName == r.CheckName() && d.CheckStatus == r.CheckSuccess() && d.CheckMessage == r.ResultMessage()
  {
    ResultDTO(r.ObjectType(), r.ObjectIdentifier(), r.CheckName(), r.CheckSuccess(), r.ResultMessage())
  }

  /** The result a wire record describes. */
  function FromDTO(d: ResultDTO): (r: CheckResult)
    ensures r.ObjectType() == d.ObjectType && r.ObjectIdentifier() == d.Identifier
    ensures r.CheckName() == d.CheckName && r.CheckSuccess() == d.CheckStatus && r.ResultMessage() == d.CheckMessage
  {
    NewCheckResult(d.ObjectType, d.Identifier, d.CheckName, d.CheckMessage, d.CheckStatus)
  }

  /** The mapping loses nothing: the record gives the result back. */
  lemma DtoRoundTrip(r: CheckResult)
    ensures FromDTO(ToDTO(r)) == r
  {
  }

  /** `PublishCheckResult`: an encoding error is returned and nothing is
      put; otherwise exactly one put of the result's record to the results
      topic, whose error is returned. */
  function PublishCheckResult(topic: string, r: CheckResult, encodeErr: Option<Error>, putErr: Option<Error>): (out: (Option<Error>, seq<Put>))
    ensures encodeErr.Some? ==> out == (encodeErr, [])
    ensures encodeErr.None? ==> out.0 == putErr && |out.1| == 1 && out.1[0].topic == topic
    ensures encodeErr.None? ==> FromDTO(out.1[0].dto) == r
  {
    if encodeErr.Some? then (encodeErr, [])
    else (putErr, [Put(topic, ToDTO(r))])
  }
}
