/** The Kafka order provider (orderprovider.go): reads check orders from a
    topic, acknowledges and drops those meant for another check or object
    type, and sends the rest on its channel. The Kafka adapter's calls
    (`FromConfig`, `EnsureTopic`, `Get`, the consumer-lag query) and the JSON
    decoding are inputs; the channel is the sequence `ch` of orders sent on
    it. */
module OrderProvider {
  import opened Base
  import opened Text
  import opened Statistic
  import opened CheckOrders
  import Stages

  const ConfigOrderTopicNameKey := "pim_check_orders_topic"
  const ConfigObjectTypeKey := "object_type"
  const ConfigCheckNameKey := "check_name"

  /** `intervalWhenCantGetMsg`, in milliseconds. */
  const IntervalWhenCantGetMsg: nat := 1000

  /** What the constructor keeps from its configuration. */
  datatype ProviderSettings = ProviderSettings(orderTopicName: string, objectType: string, checkName: string)

  /** `NewKafkaOrderProvider`'s checks, in the source's order: nil config
      and logger, the three keys, then the adapter's `FromConfig` and
      `EnsureTopic` (`adapterErr`, `ensureErr`), whose errors are returned
      as they are. */
  function NewKafkaOrderProvider(cfg: Option<Config>, l: Option<Component>,
                                 adapterErr: Option<Error>, ensureErr: Option<Error>): (r: Result<ProviderSettings, Error>)
    ensures cfg.None? ==> r == Failure(Error("must be not-nil config"))
    ensures cfg.Some? && l.None? ==> r == Failure(Error("must be not-nil logger"))
    ensures cfg.Some? && l.Some? && ConfigOrderTopicNameKey !in cfg.value.strings ==>
      r == Failure(MissingKey(ConfigOrderTopicNameKey))
    ensures cfg.Some? && l.Some? && ConfigOrderTopicNameKey in cfg.value.strings &&
            ConfigObjectTypeKey !in cfg.value.strings ==>
      r == Failure(MissingKey(ConfigObjectTypeKey))
    ensures cfg.Some? && l.Some? && ConfigOrderTopicNameKey in cfg.value.strings &&
            ConfigObjectTypeKey in cfg.value.strings && ConfigCheckNameKey !in cfg.value.strings ==>
      r == Failure(MissingKey(ConfigCheckNameKey))
    ensures r.Success? <==>
      cfg.Some? && l.Some? && ConfigOrderTopicNameKey in cfg.value.strings &&
      ConfigObjectTypeKey in cfg.value.strings && ConfigCheckNameKey in cfg.value.strings &&
      adapterErr.None? && ensureErr.None?
    ensures r.Success? ==>
      r.value == ProviderSettings(cfg.value.strings[ConfigOrderTopicNameKey],
                                  cfg.value.strings[ConfigObjectTypeKey], cfg.value.strings[ConfigCheckNameKey])
    ensures cfg.Some? && l.Some? && ConfigOrderTopicNameKey in cfg.value.strings &&
            ConfigObjectTypeKey in cfg.value.strings && ConfigCheckNameKey in cfg.value.strings &&
            adapterErr.Some? ==>
      r == Failure(adapterErr.value)
    ensures cfg.Some? && l.Some? && ConfigOrderTopicNameKey in cfg.value.strings &&
            ConfigObjectTypeKey in cfg.value.strings && ConfigCheckNameKey in cfg.value.strings &&
            adapterErr.None? && ensureErr.Some? ==>
      r == Failure(ensureErr.value)
  {
    if cfg.None? then Failure(Error("must be not-nil config"))
    else if l.None? then Failure(Error("must be not-nil logger"))
    else
      match cfg.value.GetString(ConfigOrderTopicNameKey)
      case Failure(e) => Failure(e)
      case Success(topic) =>
        match cfg.value.GetString(ConfigObjectTypeKey)
        case Failure(e) => Failure(e)
        case Success(objectType) =>
          match cfg.value.GetString(ConfigCheckNameKey)
          case Failure(e) => Failure(e)
          case Success(checkName) =>
            if adapterErr.Some? then Failure(adapterErr.value)
            else if ensureErr.Some? then Failure(ensureErr.value)
            else Success(ProviderSettings(topic, objectType, checkName))
  }

  // ---- statistics ---------------------------------------------------------

  const LagDescription := "Очередь на проверку. Разница между оффсетами последних обработанного и записанного сообщений."

  /** `getKafkaLagStatistic`: `lag` is what the consumer-lag query returned
      (an int64). The value is the lag in decimal, the name says which check
      and object type it is for, the description is fixed. */
  function LagStatistic(s: ProviderSettings, lag: Result<int, Error>): (r: Result<Statistic, Error>)
    ensures r.Failure? <==> lag.Failure?
    ensures r.Failure? ==> r.error == Error("cant get consumer lag for kafka: " + lag.error.Message())
    ensures r.Success? ==>
      && r.value.SimpleStatistic?
      && r.value.Name() == "Consumer lag for check \"" + s.checkName + "\" (object type: " + s.objectType + ")"
      && r.value.Value() == Itoa(lag.value)
      && r.value.Description() == LagDescription
  {
    match lag
    case Failure(e) => Failure(Error("cant get consumer lag for kafka: " + e.Message()))
    case Success(n) =>
      Success(SimpleStatistic("Consumer lag for check \"" + s.checkName + "\" (object type: " + s.objectType + ")",
                              Itoa(n), LagDescription))
  }

  /** The lag statistic's value parses back to the lag. */
  lemma LagValueParses(s: ProviderSettings, lag: int)
    requires IsInt64(lag)
    ensures LagStatistic(s, Success(lag)).Success?
    ensures Atoi(LagStatistic(s, Success(lag)).value.Value()) == Success(lag)
  {
    AtoiItoa(lag);
  }

  /** `Statistics`: the lag statistic alone, or no list and its error. */
  function Statistics(s: ProviderSettings, lag: Result<int, Error>): (r: Result<seq<Statistic>, Error>)
    ensures r.Success? <==> lag.Success?
    ensures r.Success? ==> |r.value| == 1 && Success(r.value[0]) == LagStatistic(s, lag)
    ensures r.Failure? ==> Failure(r.error) == LagStatistic(s, lag)
  {
    match LagStatistic(s, lag)
    case Failure(e) => Failure(e)
    case Success(st) => Success([st])
  }

  // ---- iteration ----------------------------------------------------------

  /** The JSON payload of an order message. */
  datatype CheckOrderData = CheckOrderData(ObjectType: string, CheckName: string, ObjectIdentifier: string)

  /** An order for this provider's object type and check. */
  predicate Wanted(s: ProviderSettings, od: CheckOrderData)
  {
    od.ObjectType == s.objectType && od.CheckName == s.checkName
  }

  /** The order one fetch sends: one for a decoded, wanted message. */
  function Accepted(s: ProviderSettings, f: Fetched<CheckOrderData>): seq<CheckOrder>
  {
    if f.msg.Success? && f.decoded.Some? && Wanted(s, f.decoded.value)
    then [NewCheckOrder(f.decoded.value.CheckName, f.decoded.value.ObjectType, f.decoded.value.ObjectIdentifier, f.msg.value)]
    else []
  }

  /** The message one fetch acknowledges: a decoded, unwanted one. */
  function Refused(s: ProviderSettings, f: Fetched<CheckOrderData>): seq<Message>
  {
    if f.msg.Success? && f.decoded.Some? && !Wanted(s, f.decoded.value) then [f.msg.value] else []
  }

  /** The orders a sequence of fetches sends, in fetch order. */
  function Orders(s: ProviderSettings, inputs: seq<Fetched<CheckOrderData>>): (os: seq<CheckOrder>)
    ensures |os| <= |inputs|
  {
    if inputs == [] then []
    else Orders(s, inputs[..|inputs| - 1]) + Accepted(s, inputs[|inputs| - 1])
  }

  /** The messages a sequence of fetches acknowledges: the decoded ones
      that are not wanted, in fetch order. */
  function Dropped(s: ProviderSettings, inputs: seq<Fetched<CheckOrderData>>): (ms: seq<Message>)
    ensures |ms| <= |inputs|
  {
    if inputs == [] then []
    else Dropped(s, inputs[..|inputs| - 1]) + Refused(s, inputs[|inputs| - 1])
  }

  /** How many fetches failed. */
  function FailedFetches<D>(inputs: seq<Fetched<D>>): (n: nat)
    ensures n <= |inputs|
  {
    if inputs == [] then 0
    else FailedFetches(inputs[..|inputs| - 1]) + if inputs[|inputs| - 1].msg.Failure? then 1 else 0
  }

  /** One more fetch extends each history by what that fetch does. */
  lemma HistoryStep(s: ProviderSettings, inputs: seq<Fetched<CheckOrderData>>, i: nat)
    requires i < |inputs|
    ensures Orders(s, inputs[..i + 1]) == Orders(s, inputs[..i]) + Accepted(s, inputs[i])
    ensures Dropped(s, inputs[..i + 1]) == Dropped(s, inputs[..i]) + Refused(s, inputs[i])
    ensures FailedFetches(inputs[..i + 1]) == FailedFetches(inputs[..i]) + if inputs[i].msg.Failure? then 1 else 0
  {
    assert inputs[..i + 1][..i] == inputs[..i];
  }

  /** Every order sent is for this provider's object type and check. */
  lemma {:induction false} OrdersWanted(s: ProviderSettings, inputs: seq<Fetched<CheckOrderData>>, o: CheckOrder)
    requires o in Orders(s, inputs)
    ensures o.ObjectType() == s.objectType && o.CheckName() == s.checkName
  {
    if inputs != [] {
      var f := inputs[|inputs| - 1];
      if o !in Orders(s, inputs[..|inputs| - 1]) {
        assert f.msg.Success? && f.decoded.Some? && Wanted(s, f.decoded.value);
      } else {
        OrdersWanted(s, inputs[..|inputs| - 1], o);
      }
    }
  }

  /** Every wanted, decoded message is sent as an order with its check
      name, object type and identifier. */
  lemma {:induction false} WantedAreSent(s: ProviderSettings, inputs: seq<Fetched<CheckOrderData>>, i: nat)
    requires i < |inputs| && inputs[i].msg.Success? && inputs[i].decoded.Some?
    requires Wanted(s, inputs[i].decoded.value)
    ensures var d := inputs[i].decoded.value;
            NewCheckOrder(d.CheckName, d.ObjectType, d.ObjectIdentifier, inputs[i].msg.value) in Orders(s, inputs)
  {
    if i < |inputs| - 1 {
      WantedAreSent(s, inputs[..|inputs| - 1], i);
    }
  }

  /** Every decoded message that is not wanted is acknowledged (dropped);
      with `WantedAreSent`, every decoded message ends on one side. */
  lemma {:induction false} DroppedNotWanted(s: ProviderSettings, inputs: seq<Fetched<CheckOrderData>>, i: nat)
    requires i < |inputs| && inputs[i].msg.Success? && inputs[i].decoded.Some?
    requires !Wanted(s, inputs[i].decoded.value)
    ensures inputs[i].msg.value in Dropped(s, inputs)
  {
    if i < |inputs| - 1 {
      DroppedNotWanted(s, inputs[..|inputs| - 1], i);
    }
  }

  class Provider {
    const settings: ProviderSettings
    var ch: seq<CheckOrder>     // orders sent on the provider's channel, in order
    var acked: seq<Message>     // messages acknowledged and dropped, in order
    var slept: nat              // milliseconds slept after failed fetches

    constructor (settings: ProviderSettings)
      ensures this.settings == settings && ch == [] && acked == [] && slept == 0
    {
      this.settings := settings;
      ch, acked, slept := [], [], 0;
    }

    /** One `iteration` on what the fetch returned. A failed fetch sleeps;
        an unparsable message is neither acknowledged nor sent; an unwanted
        one is acknowledged (an ack error is only logged) and dropped; a
        wanted one is sent as a new order. */
    method Iteration(f: Fetched<CheckOrderData>) returns (outcome: Outcome)
      modifies this
      ensures outcome == FetchFailed <==> f.msg.Failure?
      ensures outcome == Unparsable <==> f.msg.Success? && f.decoded.None?
      ensures outcome == Skipped <==> f.msg.Success? && f.decoded.Some? && !Wanted(settings, f.decoded.value)
      ensures outcome == Enqueued ==>
        var d := f.decoded.value;
        ch == old(ch) + [NewCheckOrder(d.CheckName, d.ObjectType, d.ObjectIdentifier, f.msg.value)]
      ensures outcome != Enqueued ==> ch == old(ch)
      ensures ch == old(ch) + Accepted(settings, f) && acked == old(acked) + Refused(settings, f)
      ensures outcome == Skipped ==> acked == old(acked) + [f.msg.value]
      ensures outcome != Skipped ==> acked == old(acked)
      ensures slept == old(slept) + if outcome == FetchFailed then IntervalWhenCantGetMsg else 0
    {
      if f.msg.Failure? {
        slept := slept + IntervalWhenCantGetMsg;
        return FetchFailed;
      }
      if f.decoded.None? {
        return Unparsable;
      }
      var od := f.decoded.value;
      if !(od.ObjectType == settings.objectType && od.CheckName == settings.checkName) {
        acked := acked + [f.msg.value];
        return Skipped;
      }
      var order := NewCheckOrder(od.CheckName, od.ObjectType, od.ObjectIdentifier, f.msg.value);
      ch := ch + [order];
      return Enqueued;
    }

    /** `run` over a finite list of fetches. */
    method Run(inputs: seq<Fetched<CheckOrderData>>)
      modifies this
      ensures ch == old(ch) + Orders(settings, inputs)
      ensures acked == old(acked) + Dropped(settings, inputs)
      ensures slept == old(slept) + FailedFetches(inputs) * IntervalWhenCantGetMsg
    {
      var i := 0;
      while i < |inputs|
        invariant i <= |inputs|
        invariant ch == old(ch) + Orders(settings, inputs[..i])
        invariant acked == old(acked) + Dropped(settings, inputs[..i])
        invariant slept == old(slept) + FailedFetches(inputs[..i]) * IntervalWhenCantGetMsg
      {
        HistoryStep(settings, inputs, i);
        var _ := Iteration(inputs[i]);
        Stages.AppendAssoc(old(ch), Orders(settings, inputs[..i]), Accepted(settings, inputs[i]));
        Stages.AppendAssoc(old(acked), Dropped(settings, inputs[..i]), Refused(settings, inputs[i]));
        i := i + 1;
      }
      assert inputs[..i] == inputs;
    }
  }
}
