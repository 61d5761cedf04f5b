/** The statistics sender (statistic/sender.go): on every tick it asks a
    provider for its statistics and puts each one, as a DTO, on a Kafka
    topic, stopping at the first failure. The Kafka `Put` is a sink: the
    model returns the puts made, and the error each put returns is an
    input. */
module StatisticSender {
  import opened Base
  import opened Statistic

  const TopicKey := "topic"
  const IntervalKey := "interval_in_secs"

  datatype SenderSettings = SenderSettings(topic: string, interval: int)

  /** One call of the Kafka adapter's `Put`. */
  datatype Put = Put(topic: string, dto: StatisticDTO)

  /** `NewStatisticSender`: nil provider and nil adapter are refused; the
      config is not nil-checked, so a nil config makes the first lookup
      panic; then the topic and the interval keys must be present. The tick
      interval is `interval_in_secs` seconds. */
  function NewStatisticSender(cfg: Option<Config>, provider: Option<Component>, adapter: Option<Component>): (r: Construct<SenderSettings>)
    ensures provider.None? ==> r == Rejected(Error("must be not-nil StatisticProvider"))
    ensures provider.Some? && adapter.None? ==> r == Rejected(Error("must be not-nil kafkaAdapter.Queue"))
    ensures r.Panicked? <==> provider.Some? && adapter.Some? && cfg.None?
    ensures provider.Some? && adapter.Some? && cfg.Some? && TopicKey !in cfg.value.strings ==>
      r == Rejected(MissingKey(TopicKey))
    ensures provider.Some? && adapter.Some? && cfg.Some? && TopicKey in cfg.value.strings &&
            IntervalKey !in cfg.value.ints ==>
      r == Rejected(MissingKey(IntervalKey))
    ensures r.Built? <==>
      provider.Some? && adapter.Some? && cfg.Some? && TopicKey in cfg.value.strings && IntervalKey in cfg.value.ints
    ensures r.Built? ==>
      r.value.topic == cfg.value.strings[TopicKey] && r.value.interval == Seconds(cfg.value.ints[IntervalKey])
  {
    if provider.None? then Rejected(Error("must be not-nil StatisticProvider"))
    else if adapter.None? then Rejected(Error("must be not-nil kafkaAdapter.Queue"))
    else if cfg.None? then Panicked("nil Config")
    else
      match cfg.value.GetString(TopicKey)
      case Failure(e) => Rejected(e)
      case Success(topic) =>
        match cfg.value.GetInt(IntervalKey)
        case Failure(e) => Rejected(e)
        case Success(secs) => Built(SenderSettings(topic, Seconds(secs)))
  }

  /** The error for a nil statistic: "cant convert statistic: given Statistic is nil". */
  const NilStatisticError := Error("cant convert statistic: " + Error("given Statistic is nil").Message())

  /** `sendSingleStatistic`: a nil statistic is an error and nothing is
      put; otherwise exactly one put of its DTO to the topic, whose error
      is returned. */
  function SendSingleStatistic(topic: string, stat: Option<Statistic>, putErr: Option<Error>): (r: (Option<Error>, seq<Put>))
    ensures stat.None? ==> r == (Some(NilStatisticError), [])
    ensures stat.Some? ==> r.0 == putErr && r.1 == [Put(topic, Convert(stat).value)]
  {
    match Convert(stat)
    case Failure(e) => (Some(Error("cant convert statistic: " + e.Message())), [])
    case Success(dto) => (putErr, [Put(topic, dto)])
  }

  /** Where sending `stats` first goes wrong: the index of the first nil
      statistic or failing put, or |stats| when every one goes through. */
  function FirstFailure(stats: seq<Option<Statistic>>, putErrs: seq<Option<Error>>): (k: nat)
    requires |putErrs| == |stats|
    ensures k <= |stats|
    ensures forall i :: 0 <= i < k ==> stats[i].Some? && putErrs[i].None?
    ensures k < |stats| ==> stats[k].None? || putErrs[k].Some?
  {
    if stats == [] then 0
    else if stats[0].None? || putErrs[0].Some? then 0
    else 1 + FirstFailure(stats[1..], putErrs[1..])
  }

  /** `send`: the statistics are put in list order; the first failure is
      returned and nothing after it is sent. `putErrs[i]` is what the put
      of `stats[i]` would return. */
  method Send(topic: string, stats: seq<Option<Statistic>>, putErrs: seq<Option<Error>>) returns (err: Option<Error>, puts: seq<Put>)
    requires |putErrs| == |stats|
    ensures var k := FirstFailure(stats, putErrs);
      && (k == |stats| ==> err.None? && |puts| == |stats|)
      && (k < |stats| && stats[k].None? ==> err == Some(NilStatisticError) && |puts| == k)
      && (k < |stats| && stats[k].Some? ==> err == putErrs[k] && err.Some? && |puts| == k + 1)
    ensures forall i :: 0 <= i < |puts| ==> puts[i] == Put(topic, Convert(stats[i]).value)
  {
    puts := [];
    var i := 0;
    while i < |stats|
      invariant i <= |stats|
      invariant i <= FirstFailure(stats, putErrs)
      invariant |puts| == i
      invariant forall j :: 0 <= j < i ==> puts[j] == Put(topic, Convert(stats[j]).value)
    {
      var r := SendSingleStatistic(topic, stats[i], putErrs[i]);
      puts := puts + r.1;
      if r.0.Some? {
        return r.0, puts;
      }
      i := i + 1;
    }
    return None, puts;
  }

  /** `iterate`: a provider error fails the round with nothing sent;
      otherwise the provided list is sent. */
  method Iterate(topic: string, provided: Result<seq<Option<Statistic>>, Error>, putErrs: seq<Option<Error>>)
    returns (err: Option<Error>, puts: seq<Put>)
    requires provided.Success? ==> |putErrs| == |provided.value|
    ensures provided.Failure? ==> err == Some(Error("cant get statistics to send")) && puts == []
    ensures provided.Success? && provided.value == [] ==> err.None? && puts == []
    ensures provided.Success? ==> |puts| <= |provided.value|
    ensures provided.Success? ==>
      (err.None? <==> forall i :: 0 <= i < |provided.value| ==> provided.value[i].Some? && putErrs[i].None?)
    ensures provided.Success? ==>
      var stats := provided.value;
      var k := FirstFailure(stats, putErrs);
      && (k == |stats| ==> err.None? && |puts| == |stats|)
      && (k < |stats| && stats[k].None? ==> err == Some(NilStatisticError) && |puts| == k)
      && (k < |stats| && stats[k].Some? ==> err == putErrs[k] && err.Some? && |puts| == k + 1)
    ensures provided.Success? ==>
      forall i :: 0 <= i < |puts| ==> puts[i] == Put(topic, Convert(provided.value[i]).value)
  {
    if provided.Failure? {
      return Some(Error("cant get statistics to send")), [];
    }
    err, puts := Send(topic, provided.value, putErrs);
  }
}
