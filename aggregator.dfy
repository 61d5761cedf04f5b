/** The Kafka statistics aggregator (statistic/aggregator.go): reads
    statistic DTOs from a topic and keeps the latest one per name in a TTL
    cache. The Kafka fetch and the JSON decoding are inputs to each
    iteration; the acknowledgements it issues are recorded in `acked`. */
module StatisticAggregator {
  import opened Base
  import opened Statistic
  import opened StatisticCache

  const TimeoutKey := "cache_timeout_in_secs"
  const TopicKey := "topic"

  /** What the constructor reads from its configuration. */
  datatype AggregatorSettings = AggregatorSettings(topic: string, cacheTimeout: int)

  /** `NewStatisticAggregator`'s checks, in the source's order: nil logger,
      config and queue, the two keys, then `newCache` on the timeout
      converted to a (wrapping) nanosecond duration. */
  function NewStatisticAggregator(l: Option<Component>, cfg: Option<Config>, adapt: Option<Component>): (r: Result<AggregatorSettings, Error>)
    ensures l.None? ==> r == Failure(Error("must be not-nil Logger"))
    ensures l.Some? && cfg.None? ==> r == Failure(Error("must be not-nil Config"))
    ensures l.Some? && cfg.Some? && adapt.None? ==> r == Failure(Error("must be not-nil Queue"))
    ensures l.Some? && cfg.Some? && adapt.Some? && TimeoutKey !in cfg.value.ints ==>
      r == Failure(MissingKey(TimeoutKey))
    ensures l.Some? && cfg.Some? && adapt.Some? && TimeoutKey in cfg.value.ints && TopicKey !in cfg.value.strings ==>
      r == Failure(MissingKey(TopicKey))
    ensures l.Some? && cfg.Some? && adapt.Some? && TimeoutKey in cfg.value.ints && TopicKey in cfg.value.strings &&
            Seconds(cfg.value.ints[TimeoutKey]) == 0 ==>
      r == Failure(Error("timeout must be greater than 0"))
    ensures r.Success? <==>
      l.Some? && cfg.Some? && adapt.Some? && TimeoutKey in cfg.value.ints && TopicKey in cfg.value.strings &&
      Seconds(cfg.value.ints[TimeoutKey]) != 0
    ensures r.Success? ==>
      r.value.topic == cfg.value.strings[TopicKey] && r.value.cacheTimeout == Seconds(cfg.value.ints[TimeoutKey])
  {
    if l.None? then Failure(Error("must be not-nil Logger"))
    else if cfg.None? then Failure(Error("must be not-nil Config"))
    else if adapt.None? then Failure(Error("must be not-nil Queue"))
    else
      match cfg.value.GetInt(TimeoutKey)
      case Failure(e) => Failure(e)
      case Success(secs) =>
        match cfg.value.GetString(TopicKey)
        case Failure(e) => Failure(e)
        case Success(topic) =>
          var timeout := Seconds(secs);
          if TimeoutError(timeout).Some? then Failure(TimeoutError(timeout).value)
          else Success(AggregatorSettings(topic, timeout))
  }

  /** A zero `cache_timeout_in_secs` is refused, and every other realistic
      value is accepted. */
  lemma ZeroTimeoutRefused(l: Component, cfg: Config, adapt: Component)
    requires TimeoutKey in cfg.ints && TopicKey in cfg.strings
    requires -9_000_000_000 <= cfg.ints[TimeoutKey] <= 9_000_000_000
    ensures NewStatisticAggregator(Some(l), Some(cfg), Some(adapt)).Failure? <==> cfg.ints[TimeoutKey] == 0
  {
    SecondsExact(cfg.ints[TimeoutKey]);
  }

  /** What one `iteration` is given: the fetch result, the decoded DTO and
      the clock. */
  type Input = (Result<Message, Error>, Option<StatisticDTO>, int)

  /** The cache after the iterations fed by `inputs`, starting from `m`:
      every fetched and decoded statistic is stored with deadline
      its clock + `timeout`, in input order. */
  function CacheAfter(m: map<string, CachedStatistic>, inputs: seq<Input>, timeout: int): (r: map<string, CachedStatistic>)
    ensures m.Keys <= r.Keys
    ensures (forall n :: n in m ==> m[n].s.Name() == n) ==> forall n :: n in r ==> r[n].s.Name() == n
    ensures inputs != [] && inputs[|inputs| - 1].0.Success? && inputs[|inputs| - 1].1.Some? ==>
      var last := inputs[|inputs| - 1];
      var s := ToStatistic(last.1.value);
      s.Name() in r && r[s.Name()] == CachedStatistic(s, last.2 + timeout)
    decreases |inputs|
  {
    if inputs == [] then m
    else
      var prev := CacheAfter(m, inputs[..|inputs| - 1], timeout);
      var last := inputs[|inputs| - 1];
      if last.0.Success? && last.1.Some? then Put(prev, ToStatistic(last.1.value), last.2 + timeout) else prev
  }

  /** The messages acknowledged by the iterations fed by `inputs`: every
      fetched one, decoded or not, in input order. */
  function AckedBy(inputs: seq<Input>): (r: seq<Message>)
    ensures |r| <= |inputs|
    ensures forall msg :: msg in r <==> exists i :: 0 <= i < |inputs| && inputs[i].0 == Success(msg)
    decreases |inputs|
  {
    if inputs == [] then []
    else
      var prev := AckedBy(inputs[..|inputs| - 1]);
      var last := inputs[|inputs| - 1];
      assert forall i :: 0 <= i < |inputs| - 1 ==> inputs[..|inputs| - 1][i] == inputs[i];
      if last.0.Success? then prev + [last.0.value] else prev
  }

  class Aggregator {
    const topic: string
    const c: Cache
    var acked: seq<Message>

    constructor (topic: string, c: Cache)
      ensures this.topic == topic && this.c == c && acked == []
    {
      this.topic := topic;
      this.c := c;
      acked := [];
    }

    /** One `iteration`: `fetched` is what `GetWithCtx` returned,
        `decoded` the result of unmarshalling the message, `now` the clock.
        Returns false only for `context.Canceled`. */
    method Iteration(fetched: Result<Message, Error>, decoded: Option<StatisticDTO>, now: int) returns (more: bool)
      requires c.Valid()
      modifies this, c
      ensures c.Valid()
      ensures more <==> fetched != Failure(Canceled)
      ensures fetched.Failure? ==> acked == old(acked) && c.cache == old(c.cache)
      ensures fetched.Success? ==> acked == old(acked) + [fetched.value]
      ensures fetched.Success? && decoded.None? ==> c.cache == old(c.cache)
      ensures fetched.Success? && decoded.Some? ==>
        c.cache == Put(old(c.cache), ToStatistic(decoded.value), now + c.timeout)
    {
      if fetched.Failure? {
        if fetched.error == Canceled {
          return false;
        }
        return true;
      }
      // `defer msg.Ack()`: the message is acknowledged whatever happens next
      acked := acked + [fetched.value];
      if decoded.None? {
        return true;
      }
      c.Set(Some(ToStatistic(decoded.value)), now);
      return true;
    }

    /** `run`: iterate until an iteration returns false. Each element of
        `inputs` feeds one iteration; the result counts the iterations. */
    method Run(inputs: seq<Input>) returns (n: nat)
      requires c.Valid()
      modifies this, c
      ensures c.Valid()
      ensures n <= |inputs|
      ensures forall i :: 0 <= i < n - 1 ==> inputs[i].0 != Failure(Canceled)
      ensures n < |inputs| ==> n > 0 && inputs[n - 1].0 == Failure(Canceled)
      ensures c.cache == CacheAfter(old(c.cache), inputs[..n], c.timeout)
      ensures acked == old(acked) + AckedBy(inputs[..n])
    {
      n := 0;
      assert inputs[..0] == [];
      while n < |inputs|
        invariant n <= |inputs|
        invariant c.Valid()
        invariant forall i :: 0 <= i < n ==> inputs[i].0 != Failure(Canceled)
        invariant c.cache == CacheAfter(old(c.cache), inputs[..n], c.timeout)
        invariant acked == old(acked) + AckedBy(inputs[..n])
      {
        var more := Iteration(inputs[n].0, inputs[n].1, inputs[n].2);
        assert inputs[..n + 1][..n] == inputs[..n];
        n := n + 1;
        if !more {
          return;
        }
      }
    }

    /** `Statistics`: the cache's `getAll` and a nil error. */
    method Statistics(now: int) returns (stats: seq<Statistic>, err: Option<Error>)
      requires c.Valid()
      ensures err.None?
      ensures forall i, j :: 0 <= i < j < |stats| ==> stats[i].Name() != stats[j].Name()
      ensures |stats| <= |c.cache|
      ensures forall s :: s in stats ==> exists n :: n in Selected(c.cache, now) && c.cache[n].s == s
      ensures forall n :: n in Selected(c.cache, now) ==> c.cache[n].s in stats
    {
      ghost var names;
      stats, names := c.GetAll(now);
      err := None;
    }
  }
}
