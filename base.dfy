/** Shared vocabulary of the model: optional values, results, errors,
    configuration lookups, 64-bit durations and the handles of foreign
    collaborators (loggers, Kafka queues, user-supplied logic). */
module Base {

  datatype Option<+T> = None | Some(value: T)

  datatype Result<+T, +E> = Success(value: T) | Failure(error: E)

  /** A Go `error`. `Error` is one built with `fmt.Errorf` in the toolkit
      itself; the other variants come from libraries whose wording is not
      part of this model. */
  datatype Error =
    | Error(msg: string)
    | MissingKey(key: string)       // a required configuration key is absent
    | NumError(input: string)       // strconv could not parse `input`
    | Canceled                      // the `context.Canceled` sentinel
    | Foreign(code: nat)            // any error returned by a Kafka, SQL or HTTP call
  {
    /** The text `err.Error()` yields. */
    function Message(): string
    {
      match this
      case Error(m) => m
      case MissingKey(k) => "config key not found: " + k
      case NumError(s) => "strconv.Atoi: parsing \"" + s + "\": invalid syntax or value out of range"
      case Canceled => "context canceled"
      case Foreign(_) => "foreign error"
    }
  }

  /** What a Go constructor can do: return a value, return an error, or
      panic inside the runtime (e.g. `make(chan T, n)` with `n < 0`). */
  datatype Construct<+T> = Built(value: T) | Rejected(error: Error) | Panicked(reason: string)

  /** A non-nil handle to a collaborator the model does not look inside
      (a logger, a Kafka queue, a provider). A nil one is `None`. */
  datatype Component = Component(id: nat)

  /** The `helpful.Config` tree: typed values per key and nested children. */
  datatype Config = Config(strings: map<string, string>, ints: map<string, int>, children: map<string, Config>)
  {
    function GetString(key: string): (r: Result<string, Error>)
      ensures r.Success? <==> key in strings
      ensures r.Success? ==> r.value == strings[key]
      ensures r.Failure? ==> r.error == MissingKey(key)
    {
      if key in strings then Success(strings[key]) else Failure(MissingKey(key))
    }

    function GetInt(key: string): (r: Result<int, Error>)
      ensures r.Success? <==> key in ints
      ensures r.Success? ==> r.value == ints[key]
      ensures r.Failure? ==> r.error == MissingKey(key)
    {
      if key in ints then Success(ints[key]) else Failure(MissingKey(key))
    }

    predicate Contains(key: string)
    {
      key in strings || key in ints || key in children
    }

    /** The child configuration under `key`; an absent child is empty. */
    function Child(key: string): Config
    {
      if key in children then children[key] else Config(map[], map[], map[])
    }
  }

  /** A Kafka message handed out by the adapter: its offset and payload. */
  datatype Message = Message(offset: nat, data: string)

  /** What one provider `iteration` did with the message it asked for:
      the fetch failed, the payload did not parse (skipped without an
      ack), it was acknowledged and dropped as not wanted, or it was sent
      on the provider's channel. */
  datatype Outcome = FetchFailed | Unparsable | Skipped | Enqueued

  /** What a provider's fetch returned: the message or the adapter's
      error, and, for a message, its decoded payload (`None` when the JSON
      did not parse). */
  datatype Fetched<+D> = Fetched(msg: Result<Message, Error>, decoded: Option<D>)

  // ---- 64-bit integers and durations -------------------------------------

  const MinInt64: int := -0x8000_0000_0000_0000
  const MaxInt64: int := 0x7FFF_FFFF_FFFF_FFFF

  predicate IsInt64(n: int) { MinInt64 <= n <= MaxInt64 }

  /** Two's-complement wrap-around of an int64 multiplication result. */
  function Wrap64(n: int): (r: int)
    ensures IsInt64(r)
    ensures IsInt64(n) ==> r == n
    ensures (r - n) % 0x1_0000_0000_0000_0000 == 0
  {
    var m := (n - MinInt64) % 0x1_0000_0000_0000_0000;
    m + MinInt64
  }

  const NanosPerSecond: int := 1_000_000_000

  /** `time.Duration(secs) * time.Second`, a nanosecond count that wraps
      around on int64 overflow. */
  function Seconds(secs: int): (d: int)
    ensures IsInt64(d)
  {
    Wrap64(secs * NanosPerSecond)
  }

  /** A duration of a realistic number of seconds does not wrap. */
  lemma SecondsExact(secs: int)
    requires -9_000_000_000 <= secs <= 9_000_000_000
    ensures Seconds(secs) == secs * NanosPerSecond
    ensures Seconds(secs) == 0 <==> secs == 0
  {
    assert IsInt64(secs * NanosPerSecond);
  }

  /** 2^55 seconds times 10^9 is a multiple of 2^64: the duration wraps to 0. */
  lemma SecondsWrapsToZero()
    ensures Seconds(0x80_0000_0000_0000) == 0
  {
  }
}
