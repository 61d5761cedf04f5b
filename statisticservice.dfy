/** The HTTP statistics service (statisticservice.go): its constructor's
    checks and the `/statistics` handler, which turns the provider's
    statistics into a list of records. The HTTP server, the JSON encoding
    and the response writer are not modelled beyond the status and the
    list the handler builds. */
module StatisticService {
  import opened Base
  import opened Statistic

  const PortConfigName := "port"
  const MinPort := 8000

  /** `NewStatisticService`'s checks, in the source's order: nil config,
      provider and logger, the port key, then the port bound. On success the
      value is the port. */
  function NewStatisticService(cfg: Option<Config>, sp: Option<Component>, l: Option<Component>): (r: Result<int, Error>)
    ensures cfg.None? ==> r == Failure(Error("must be not-nil Config"))
    ensures cfg.Some? && sp.None? ==> r == Failure(Error("must be not-nil CheckOrderProvider"))
    ensures cfg.Some? && sp.Some? && l.None? ==> r == Failure(Error("must be not-nil Logger"))
    ensures cfg.Some? && sp.Some? && l.Some? && PortConfigName !in cfg.value.ints ==>
      r == Failure(MissingKey(PortConfigName))
    ensures r.Success? <==>
      cfg.Some? && sp.Some? && l.Some? && PortConfigName in cfg.value.ints && cfg.value.ints[PortConfigName] >= MinPort
    ensures r.Success? ==> r.value == cfg.value.ints[PortConfigName]
    ensures cfg.Some? && sp.Some? && l.Some? && PortConfigName in cfg.value.ints && cfg.value.ints[PortConfigName] < MinPort ==>
      r == Failure(Error("port must be above 8000"))
  {
    if cfg.None? then Failure(Error("must be not-nil Config"))
    else if sp.None? then Failure(Error("must be not-nil CheckOrderProvider"))
    else if l.None? then Failure(Error("must be not-nil Logger"))
    else
      match cfg.value.GetInt(PortConfigName)
      case Failure(e) => Failure(e)
      case Success(port) =>
        if port < MinPort then Failure(Error("port must be above 8000")) else Success(port)
  }

  /** One element of the response's `statistics` list. */
  datatype StatisticEntry = StatisticEntry(Name: string, Value: string, Description: string)

  /** What the handler answers: a status and either the list or the text
      of an error. */
  datatype Response = Response(status: int, body: Body)
  datatype Body = Statistics(list: seq<StatisticEntry>) | ServerError(text: string)

  const StatusOK := 200
  const StatusInternalServerError := 500

  /** `statisticHandler`: `provided` is what the provider's `Statistics`
      returned, `encodeErr` the JSON encoder's error. A provider or encoder
      error answers 500 with its text and no list. Otherwise the list holds
      one record per statistic, in the provider's order (an empty list for
      no statistics). */
  method StatisticHandler(provided: Result<seq<Statistic>, Error>, encodeErr: Option<Error>) returns (resp: Response)
    ensures provided.Failure? ==>
      resp == Response(StatusInternalServerError, ServerError("Server side error: " + provided.error.Message()))
    ensures provided.Success? && encodeErr.Some? ==>
      resp == Response(StatusInternalServerError, ServerError("Server side error: " + encodeErr.value.Message()))
    ensures provided.Success? && encodeErr.None? ==>
      && resp.status == StatusOK && resp.body.Statistics?
      && |resp.body.list| == |provided.value|
      && forall i :: 0 <= i < |provided.value| ==>
           resp.body.list[i] == StatisticEntry(provided.value[i].Name(), provided.value[i].Value(),
                                               provided.value[i].Description())
  {
    if provided.Failure? {
      return Response(StatusInternalServerError, ServerError("Server side error: " + provided.error.Message()));
    }
    var ss := provided.value;
    var res: seq<StatisticEntry> := [];
    for i := 0 to |ss|
      invariant |res| == i
      invariant forall j :: 0 <= j < i ==> res[j] == StatisticEntry(ss[j].Name(), ss[j].Value(), ss[j].Description())
    {
      res := res + [StatisticEntry(ss[i].Name(), ss[i].Value(), ss[i].Description())];
    }
    if encodeErr.Some? {
      return Response(StatusInternalServerError, ServerError("Server side error: " + encodeErr.value.Message()));
    }
    return Response(StatusOK, Statistics(res));
  }
}
