/**
 * The application models: `LifespanConfig`, `ProxyConfig`, `ShutdownConfirm` and
 * `CannelCountdown`, and this package's variant of the `correct_pattern` validator.
 */
module AppModels {
  import opened Wrappers
  import opened ProxyTypes

  datatype LifespanConfig = LifespanConfig(lifeCycle: real, waitForExit: real)

  datatype ProxyConfig = ProxyConfig(startupCommand: seq<string>)

  datatype ShutdownConfirm = ShutdownConfirm(shutdown: bool, waitForExit: real)

  datatype CannelCountdown = CannelCountdown(cannelCountdown: bool)

  const DefaultLifespan: LifespanConfig := LifespanConfig(DefaultLifeCycle, DefaultWaitForExit)

  const DefaultProxy: ProxyConfig := ProxyConfig(DefaultStartupCommand)

  /** The declared defaults: confirm the shutdown, do not wait. */
  const DefaultShutdownConfirm: ShutdownConfirm := ShutdownConfirm(true, DefaultWaitForExit)

  /** The declared default: no countdown cancellation. */
  const DefaultCannelCountdown: CannelCountdown := CannelCountdown(false)

  /**
   * `correct_pattern` of this package: the first token must name a front end.
   * A non-interactive `mitmproxy` looks up `adapt_pattern` among the fields validated
   * before the command, `data`; a missing key raises `KeyError`, and only a present,
   * true flag turns the front end into `mitmdump`.
   */
  function CorrectStartupCommand(v: CommandInput, stdinIsTty: bool, data: map<string, bool>,
                                 split: Splitter): (r: Result<seq<string>>)
    ensures var ts := Tokenize(v, split);
      && (r == Err(IndexError) <==> ts == [])
      && (r == Err(Validation) <==> ts != [] && ts[0] !in Patterns)
      && (r == Err(KeyError) <==> ts != [] && ts[0] == "mitmproxy" && !stdinIsTty && "adapt_pattern" !in data)
    ensures var ts := Tokenize(v, split);
      r.Ok? ==> |r.value| == |ts| && r.value[1..] == ts[1..] && r.value[0] in Patterns
    ensures var ts := Tokenize(v, split);
      ts != [] && ts[0] in Patterns && (ts[0] != "mitmproxy" || stdinIsTty) ==> r == Ok(ts)
    ensures var ts := Tokenize(v, split);
      r.Ok? && ts[0] == "mitmproxy" && !stdinIsTty ==>
        r.value == (if data["adapt_pattern"] then ts[0 := "mitmdump"] else ts)
  {
    var ts := Tokenize(v, split);
    if ts == [] then Err(IndexError)
    else if ts[0] !in Patterns then Err(Validation)
    else if ts[0] == "mitmproxy" && !stdinIsTty then
      if "adapt_pattern" !in data then Err(KeyError)
      else if data["adapt_pattern"] then Ok(ts[0 := "mitmdump"])
      else Ok(ts)
    else Ok(ts)
  }

  /**
   * `ProxyConfig` has no `adapt_pattern` field, so the data seen by the validator is
   * empty: a non-interactive `mitmproxy` command is always refused with `KeyError`,
   * and no command is ever rewritten.
   */
  lemma NonInteractiveMitmproxyRefused(v: CommandInput, stdinIsTty: bool, split: Splitter)
    ensures var ts := Tokenize(v, split);
      ts != [] && ts[0] == "mitmproxy" && !stdinIsTty ==> CorrectStartupCommand(v, stdinIsTty, map[], split) == Err(KeyError)
    ensures CorrectStartupCommand(v, stdinIsTty, map[], split).Ok? ==>
      CorrectStartupCommand(v, stdinIsTty, map[], split).value == Tokenize(v, split)
  {
  }

  /** The default startup command validates to itself. */
  lemma DefaultStartupCommandValid(stdinIsTty: bool, split: Splitter)
    ensures CorrectStartupCommand(Tokens(DefaultProxy.startupCommand), stdinIsTty, map[], split) == Ok(["mitmdump"])
  {
  }
}
