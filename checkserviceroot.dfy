/** The composition root of a check service (checkserviceroot.go): its
    constructor, the log-level choice and error collection of `Register`,
    and `composeErrors`. Reading `config.json` and building the service
    and its provider are inputs (what they return). */
module CheckServiceRoot {
  import opened Base
  import opened Text

  const CheckServiceJsonConfigFileName := "config.json"

  /** The separator `composeErrors` puts between two messages. */
  const Separator := "; \r\n"

  /** `NewKafkaCheckServiceRoot`: a nil provider fabric is refused. */
  function NewKafkaCheckServiceRoot(p: Option<Component>): (r: Result<Component, Error>)
    ensures r.Failure? <==> p.None?
    ensures r.Failure? ==> r.error == Error("must be not-nil CheckProvider")
    ensures r.Success? ==> r.value == p.value
  {
    if p.None? then Failure(Error("must be not-nil CheckProvider")) else Success(p.value)
  }

  /** The messages of `errs`, in order. */
  function Messages(errs: seq<Error>): (ms: seq<string>)
    ensures |ms| == |errs|
    ensures forall i :: 0 <= i < |errs| ==> ms[i] == errs[i].Message()
  {
    seq(|errs|, i requires 0 <= i < |errs| => errs[i].Message())
  }

  /** `composeErrors`: nil for no errors; otherwise one error whose text is
      the messages in order, joined by `Separator`. */
  method ComposeErrors(errs: seq<Error>) returns (e: Option<Error>)
    ensures e.None? <==> errs == []
    ensures e.Some? ==> e.value == Error(Join(Messages(errs), Separator))
    ensures |errs| == 1 ==> e == Some(Error(errs[0].Message()))
    ensures e.Some? ==> errs[0].Message() <= e.value.msg
    ensures e.Some? ==> |e.value.msg| == TotalLength(Messages(errs)) + (|errs| - 1) * |Separator|
  {
    if |errs| == 0 {
      return None;
    }
    var errStrings := new string[|errs|];
    for i := 0 to |errs|
      invariant forall j :: 0 <= j < i ==> errStrings[j] == errs[j].Message()
    {
      errStrings[i] := errs[i].Message();
    }
    assert errStrings[..] == Messages(errs);
    JoinEnds(errStrings[..], Separator);
    JoinLength(errStrings[..], Separator);
    return Some(Error(Join(errStrings[..], Separator)));
  }

  datatype LogLevel = LogInfo | LogError

  /** The logger's level: Error exactly when `log.level` is "error"; Info
      otherwise, also when `log` or its `level` is missing. */
  function SelectLogLevel(cfg: Config): (lvl: LogLevel)
    ensures lvl == LogError <==>
      cfg.Contains("log") && "level" in cfg.Child("log").strings && cfg.Child("log").strings["level"] == "error"
  {
    if cfg.Contains("log") then
      var lvl := match cfg.Child("log").GetString("level") case Success(s) => s case Failure(_) => "";
      if lvl == "error" then LogError else LogInfo
    else LogInfo
  }

  /** The errors among `results`, in order. */
  function NonNil(results: seq<Option<Error>>): (errs: seq<Error>)
    ensures |errs| <= |results|
  {
    if results == [] then []
    else NonNil(results[..|results| - 1]) + if results[|results| - 1].Some? then [results[|results| - 1].value] else []
  }

  /** Exactly the errors of `results` are collected. */
  lemma {:induction false} NonNilCollectsErrors(results: seq<Option<Error>>, e: Error)
    ensures e in NonNil(results) <==> Some(e) in results
  {
    if results != [] {
      var init := results[..|results| - 1];
      NonNilCollectsErrors(init, e);
      assert results == init + [results[|results| - 1]];
    }
  }

  /** Collecting over two runs of calls, one after the other, is
      collecting over each and keeping the order. */
  lemma {:induction false} NonNilAppend(xs: seq<Option<Error>>, ys: seq<Option<Error>>)
    ensures NonNil(xs + ys) == NonNil(xs) + NonNil(ys)
  {
    if ys != [] {
      var init := ys[..|ys| - 1];
      assert (xs + ys)[..|xs + ys| - 1] == xs + init;
      NonNilAppend(xs, init);
    } else {
      assert xs + ys == xs;
    }
  }

  /** `Register`: `loaded` is what reading `config.json` returned,
      `providerErr` the error of the provider fabric's `New` (given the
      `check_logic_provider` child), `serviceErr` that of
      `NewKafkaCheckService`. A config failure is the one error returned,
      and no logger is set up; otherwise the logger's level is chosen and
      the non-nil errors are returned in call order. */
  method Register(loaded: Result<Config, Error>, providerErr: Option<Error>, serviceErr: Option<Error>)
    returns (errs: seq<Error>, level: Option<LogLevel>)
    ensures loaded.Failure? ==> errs == [loaded.error] && level.None?
    ensures loaded.Success? ==> level == Some(SelectLogLevel(loaded.value))
    ensures loaded.Success? ==> errs == NonNil([providerErr, serviceErr])
  {
    if loaded.Failure? {
      return [loaded.error], None;
    }
    var cfg := loaded.value;
    level := Some(SelectLogLevel(cfg));
    errs := [];
    // the closure `e`: keep an error, skip nil
    if providerErr.Some? {
      errs := errs + [providerErr.value];
    }
    if serviceErr.Some? {
      errs := errs + [serviceErr.value];
    }
    assert [providerErr, serviceErr][..1] == [providerErr];
    assert [providerErr][..0] == [];
  }
}
