/** The Kafka changes provider (changesprovider.go): reads change
    messages from a topic, acknowledges and drops those for another object
    type or event, and sends the rest on its channel as change events. The
    adapter's calls and the JSON decoding are inputs; the channel is the
    sequence `ch` of events sent on it. An event's `Processed` flag belongs
    to the consumer that carries it (`ChangesConsumer.Pipeline.processed`),
    keyed by the event's dispatch position, so every event sent starts with
    an unclosed flag of its own. */
module ChangesProvider {
  import opened Base
  import opened Text
  import OrderProvider
  import Stages

  const TargetEventNameKey := "target_event_name"
  const TargetObjectTypeKey := "target_object_type"

  /** The JSON payload of a change message. */
  datatype ChangeEventMessage = ChangeEventMessage(ObjectType: string, ObjectIdentifier: string, EventName: string, Data: string)

  /** A change event: its event name, the Kafka message it came from and
      the decoded payload. */
  datatype ChangeEvent = ChangeEvent(en: string, qm: Message, change: ChangeEventMessage)
  {
    function EventName(): string { en }
    function ObjectType(): string { change.ObjectType }
    function ObjectIdentifier(): string { change.ObjectIdentifier }

    /** The payload's data with every `,` replaced by `;`: same length,
        no comma left, every other character in place. */
    function Data(): (d: string)
      ensures |d| == |change.Data| && ',' !in d
      ensures forall i :: 0 <= i < |d| ==> if change.Data[i] == ',' then d[i] == ';' else d[i] == change.Data[i]
    {
      CommaToSemicolon(change.Data)
    }

    /** `Ack` and `Nack` act on this message and return its error. */
    function AckTarget(): Message { qm }
  }

  /** Rewriting the data a second time changes nothing. */
  lemma DataIdempotent(e: ChangeEvent)
    ensures CommaToSemicolon(e.Data()) == e.Data()
  {
    CommaFreeUnchanged(e.Data());
  }

  /** What the constructor keeps from its configuration. */
  datatype ProviderSettings = ProviderSettings(orderTopicName: string, targetEventName: string, targetObjectType: string)

  /** `NewChangesProvider`'s checks, in the source's order: nil config and
      logger, the topic key, the adapter's `FromConfig` (`adapterErr`), the
      target event and object type keys, then `EnsureTopic` (`ensureErr`). */
  function NewChangesProvider(cfg: Option<Config>, l: Option<Component>,
                              adapterErr: Option<Error>, ensureErr: Option<Error>): (r: Result<ProviderSettings, Error>)
    ensures cfg.None? ==> r == Failure(Error("must be not-nil config"))
    ensures cfg.Some? && l.None? ==> r == Failure(Error("must be not-nil logger"))
    ensures cfg.Some? && l.Some? && OrderProvider.ConfigOrderTopicNameKey !in cfg.value.strings ==>
      r == Failure(MissingKey(OrderProvider.ConfigOrderTopicNameKey))
    ensures cfg.Some? && l.Some? && OrderProvider.ConfigOrderTopicNameKey in cfg.value.strings && adapterErr.Some? ==>
      r == Failure(adapterErr.value)
    ensures cfg.Some? && l.Some? && OrderProvider.ConfigOrderTopicNameKey in cfg.value.strings && adapterErr.None? &&
            TargetEventNameKey !in cfg.value.strings ==>
      r == Failure(MissingKey(TargetEventNameKey))
    ensures cfg.Some? && l.Some? && OrderProvider.ConfigOrderTopicNameKey in cfg.value.strings && adapterErr.None? &&
            TargetEventNameKey in cfg.value.strings && TargetObjectTypeKey !in cfg.value.strings ==>
      r == Failure(MissingKey(TargetObjectTypeKey))
    ensures cfg.Some? && l.Some? && OrderProvider.ConfigOrderTopicNameKey in cfg.value.strings && adapterErr.None? &&
            TargetEventNameKey in cfg.value.strings && TargetObjectTypeKey in cfg.value.strings && ensureErr.Some? ==>
      r == Failure(ensureErr.value)
    ensures r.Success? <==>
      cfg.Some? && l.Some? && OrderProvider.ConfigOrderTopicNameKey in cfg.value.strings &&
      TargetEventNameKey in cfg.value.strings && TargetObjectTypeKey in cfg.value.strings &&
      adapterErr.None? && ensureErr.None?
    ensures r.Success? ==>
      r.value == ProviderSettings(cfg.value.strings[OrderProvider.ConfigOrderTopicNameKey],
                                  cfg.value.strings[TargetEventNameKey], cfg.value.strings[TargetObjectTypeKey])
  {
    if cfg.None? then Failure(Error("must be not-nil config"))
    else if l.None? then Failure(Error("must be not-nil logger"))
    else
      match cfg.value.GetString(OrderProvider.ConfigOrderTopicNameKey)
      case Failure(e) => Failure(e)
      case Success(topic) =>
        if adapterErr.Some? then Failure(adapterErr.value)
        else
          match cfg.value.GetString(TargetEventNameKey)
          case Failure(e) => Failure(e)
          case Success(ten) =>
            match cfg.value.GetString(TargetObjectTypeKey)
            case Failure(e) => Failure(e)
            case Success(tot) =>
              if ensureErr.Some? then Failure(ensureErr.value)
              else Success(ProviderSettings(topic, ten, tot))
  }

  /** A change for the target object type and event. */
  predicate Wanted(s: ProviderSettings, cem: ChangeEventMessage)
  {
    cem.ObjectType == s.targetObjectType && cem.EventName == s.targetEventName
  }

  /** The event one fetch sends: one for a decoded, wanted message. */
  function Accepted(s: ProviderSettings, f: Fetched<ChangeEventMessage>): seq<ChangeEvent>
  {
    if f.msg.Success? && f.decoded.Some? && Wanted(s, f.decoded.value)
    then [ChangeEvent(f.decoded.value.EventName, f.msg.value, f.decoded.value)]
    else []
  }

  /** The message one fetch acknowledges: a decoded, unwanted one. */
  function Refused(s: ProviderSettings, f: Fetched<ChangeEventMessage>): seq<Message>
  {
    if f.msg.Success? && f.decoded.Some? && !Wanted(s, f.decoded.value) then [f.msg.value] else []
  }

  /** The events a sequence of fetches sends, in fetch order. */
  function Events(s: ProviderSettings, inputs: seq<Fetched<ChangeEventMessage>>): (es: seq<ChangeEvent>)
    ensures |es| <= |inputs|
  {
    if inputs == [] then []
    else Events(s, inputs[..|inputs| - 1]) + Accepted(s, inputs[|inputs| - 1])
  }

  /** The messages a sequence of fetches acknowledges: the decoded ones
      that are not wanted, in fetch order. */
  function Dropped(s: ProviderSettings, inputs: seq<Fetched<ChangeEventMessage>>): (ms: seq<Message>)
    ensures |ms| <= |inputs|
  {
    if inputs == [] then []
    else Dropped(s, inputs[..|inputs| - 1]) + Refused(s, inputs[|inputs| - 1])
  }

  /** One more fetch extends each history by what that fetch does. */
  lemma HistoryStep(s: ProviderSettings, inputs: seq<Fetched<ChangeEventMessage>>, i: nat)
    requires i < |inputs|
    ensures Events(s, inputs[..i + 1]) == Events(s, inputs[..i]) + Accepted(s, inputs[i])
    ensures Dropped(s, inputs[..i + 1]) == Dropped(s, inputs[..i]) + Refused(s, inputs[i])
    ensures OrderProvider.FailedFetches(inputs[..i + 1]) ==
      OrderProvider.FailedFetches(inputs[..i]) + if inputs[i].msg.Failure? then 1 else 0
  {
    assert inputs[..i + 1][..i] == inputs[..i];
  }

  /** Every event sent is for the target object type and event name. */
  lemma {:induction false} EventsWanted(s: ProviderSettings, inputs: seq<Fetched<ChangeEventMessage>>, e: ChangeEvent)
    requires e in Events(s, inputs)
    ensures e.ObjectType() == s.targetObjectType && e.EventName() == s.targetEventName
  {
    if inputs != [] {
      var f := inputs[|inputs| - 1];
      if e !in Events(s, inputs[..|inputs| - 1]) {
        assert f.msg.Success? && f.decoded.Some? && Wanted(s, f.decoded.value);
      } else {
        EventsWanted(s, inputs[..|inputs| - 1], e);
      }
    }
  }

  /** Every wanted, decoded message is sent as an event holding that
      message and its payload. */
  lemma {:induction false} WantedAreSent(s: ProviderSettings, inputs: seq<Fetched<ChangeEventMessage>>, i: nat)
    requires i < |inputs| && inputs[i].msg.Success? && inputs[i].decoded.Some?
    requires Wanted(s, inputs[i].decoded.value)
    ensures ChangeEvent(inputs[i].decoded.value.EventName, inputs[i].msg.value, inputs[i].decoded.value) in Events(s, inputs)
  {
    if i < |inputs| - 1 {
      WantedAreSent(s, inputs[..|inputs| - 1], i);
    }
  }

  /** Every decoded message that is not wanted is acknowledged. */
  lemma {:induction false} DroppedNotWanted(s: ProviderSettings, inputs: seq<Fetched<ChangeEventMessage>>, i: nat)
    requires i < |inputs| && inputs[i].msg.Success? && inputs[i].decoded.Some?
    requires !Wanted(s, inputs[i].decoded.value)
    ensures inputs[i].msg.value in Dropped(s, inputs)
  {
    if i < |inputs| - 1 {
      DroppedNotWanted(s, inputs[..|inputs| - 1], i);
    }
  }

  class Provider {
    const settings: ProviderSettings
    var ch: seq<ChangeEvent>    // events sent on the provider's channel, in order
    var acked: seq<Message>     // messages acknowledged and dropped, in order
    var slept: nat              // milliseconds slept after failed fetches

    constructor (settings: ProviderSettings)
      ensures this.settings == settings && ch == [] && acked == [] && slept == 0
    {
      this.settings := settings;
      ch, acked, slept := [], [], 0;
    }

    /** One `iteration` on what the fetch returned. A failed fetch sleeps;
        an unparsable message is neither acknowledged nor sent; an unwanted
        one is acknowledged (an ack error is only logged) and dropped; a
        wanted one is sent as a new event. */
    method Iteration(f: Fetched<ChangeEventMessage>) returns (outcome: Outcome)
      modifies this
      ensures outcome == FetchFailed <==> f.msg.Failure?
      ensures outcome == Unparsable <==> f.msg.Success? && f.decoded.None?
      ensures outcome == Skipped <==> f.msg.Success? && f.decoded.Some? && !Wanted(settings, f.decoded.value)
      ensures outcome == Enqueued ==>
        ch == old(ch) + [ChangeEvent(f.decoded.value.EventName, f.msg.value, f.decoded.value)]
      ensures outcome != Enqueued ==> ch == old(ch)
      ensures ch == old(ch) + Accepted(settings, f) && acked == old(acked) + Refused(settings, f)
      ensures outcome == Skipped ==> acked == old(acked) + [f.msg.value]
      ensures outcome != Skipped ==> acked == old(acked)
      ensures slept == old(slept) + if outcome == FetchFailed then OrderProvider.IntervalWhenCantGetMsg else 0
    {
      if f.msg.Failure? {
        slept := slept + OrderProvider.IntervalWhenCantGetMsg;
        return FetchFailed;
      }
      if f.decoded.None? {
        return Unparsable;
      }
      var cem := f.decoded.value;
      if !(cem.ObjectType == settings.targetObjectType && cem.EventName == settings.targetEventName) {
        acked := acked + [f.msg.value];
        return Skipped;
      }
      var event := ChangeEvent(cem.EventName, f.msg.value, cem);
      ch := ch + [event];
      return Enqueued;
    }

    /** `run` over a finite list of fetches. */
    method Run(inputs: seq<Fetched<ChangeEventMessage>>)
      modifies this
      ensures ch == old(ch) + Events(settings, inputs)
      ensures acked == old(acked) + Dropped(settings, inputs)
      ensures slept == old(slept) + OrderProvider.FailedFetches(inputs) * OrderProvider.IntervalWhenCantGetMsg
    {
      var i := 0;
      while i < |inputs|
        invariant i <= |inputs|
        invariant ch == old(ch) + Events(settings, inputs[..i])
        invariant acked == old(acked) + Dropped(settings, inputs[..i])
        invariant slept == old(slept) + OrderProvider.FailedFetches(inputs[..i]) * OrderProvider.IntervalWhenCantGetMsg
      {
        HistoryStep(settings, inputs, i);
        var _ := Iteration(inputs[i]);
        Stages.AppendAssoc(old(ch), Events(settings, inputs[..i]), Accepted(settings, inputs[i]));
        Stages.AppendAssoc(old(acked), Dropped(settings, inputs[..i]), Refused(settings, inputs[i]));
        i := i + 1;
      }
      assert inputs[..i] == inputs;
    }
  }
}
