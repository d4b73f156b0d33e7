/** Constants of the project's type module that the proxy configuration uses. */
module ProxyTypes {
  /** The mitmproxy front ends a startup command may name. */
  const Patterns: set<string> := {"mitmdump", "mitmproxy", "mitmweb"}

  /** The default startup command. */
  const DefaultStartupCommand: seq<string> := ["mitmdump"]

  /** The default life cycle and exit wait, in seconds. */
  const DefaultLifeCycle: real := 0.0
  const DefaultWaitForExit: real := 0.0

  /** A command given as one string, or already as tokens. */
  datatype CommandInput = Text(text: string) | Tokens(tokens: seq<string>)

  /** `shlex.split`, which is not modelled. */
  type Splitter = string -> seq<string>

  /** A string command is tokenised before it is checked; a token list is taken as it is. */
  function Tokenize(v: CommandInput, split: Splitter): (ts: seq<string>)
    ensures v.Tokens? ==> ts == v.tokens
    ensures v.Text? ==> ts == split(v.text)
  {
    match v
    case Text(s) => split(s)
    case Tokens(ts) => ts
  }
}

/**
 * The proxy settings of the tools package: `LifespanConfig`, `ProxyConfig` and
 * `ShutdownJsonItem`, and the `correct_pattern` validator of the proxy command.
 */
module ProxySettings {
  import opened Wrappers
  import opened ProxyTypes

  datatype LifespanConfig = LifespanConfig(lifeCycle: real, waitForExit: real, exitTimeout: real)

  datatype ProxyConfig = ProxyConfig(adaptPattern: bool, fallbackPattern: string, command: seq<string>)

  datatype ShutdownJsonItem = ShutdownJsonItem(waitForExit: real)

  /** The declared defaults: life cycle 0, one second to wait and to time out. */
  const DefaultLifespan: LifespanConfig := LifespanConfig(0.0, 1.0, 1.0)

  /** The declared defaults: no adaptation, fallback `mitmdump`, command `["mitmdump"]`. */
  const DefaultProxy: ProxyConfig := ProxyConfig(false, "mitmdump", ["mitmdump"])

  const DefaultShutdownJsonItem: ShutdownJsonItem := ShutdownJsonItem(1.0)

  /** The front end a non-interactive `mitmproxy` is replaced by. */
  function Replacement(fallback: string): (p: string)
    ensures p in Patterns && p != "mitmproxy"
    ensures fallback in Patterns && fallback != "mitmproxy" ==> p == fallback
  {
    if fallback != "mitmproxy" && fallback in Patterns then fallback else "mitmdump"
  }

  /**
   * `correct_pattern`: the first token must name a front end (an empty command fails
   * already at `v[0]`). `mitmproxy` needs a terminal: with a non-tty stdin and
   * `adapt_pattern`, it is replaced by the fallback when that is another front end,
   * else by `mitmdump`. The fields validated before the command are `adapt` and
   * `fallback`.
   */
  function CorrectPattern(v: CommandInput, adapt: bool, fallback: string, stdinIsTty: bool,
                          split: Splitter): (r: Result<seq<string>>)
    ensures var ts := Tokenize(v, split);
      && (r == Err(IndexError) <==> ts == [])
      && (r == Err(Validation) <==> ts != [] && ts[0] !in Patterns)
      && (r.Ok? <==> ts != [] && ts[0] in Patterns)
    ensures var ts := Tokenize(v, split);
      r.Ok? ==> |r.value| == |ts| && r.value[1..] == ts[1..] && r.value[0] in Patterns
    ensures var ts := Tokenize(v, split);
      r.Ok? && (ts[0] != "mitmproxy" || stdinIsTty || !adapt) ==> r.value == ts
    ensures var ts := Tokenize(v, split);
      r.Ok? && ts[0] == "mitmproxy" && !stdinIsTty && adapt ==> r.value == ts[0 := Replacement(fallback)]
  {
    var ts := Tokenize(v, split);
    if ts == [] then Err(IndexError)
    else if ts[0] !in Patterns then Err(Validation)
    else if ts[0] == "mitmproxy" && !stdinIsTty && adapt then Ok(ts[0 := Replacement(fallback)])
    else Ok(ts)
  }

  /** Validating a validated command again changes nothing. */
  lemma CorrectPatternIdempotent(v: CommandInput, adapt: bool, fallback: string, stdinIsTty: bool, split: Splitter)
    requires CorrectPattern(v, adapt, fallback, stdinIsTty, split).Ok?
    ensures var r := CorrectPattern(v, adapt, fallback, stdinIsTty, split).value;
      CorrectPattern(Tokens(r), adapt, fallback, stdinIsTty, split) == Ok(r)
  {
  }

  /** Without a terminal, an adapting configuration never keeps `mitmproxy` as its front end. */
  lemma NoInteractiveFrontEndWithoutTty(v: CommandInput, fallback: string, split: Splitter)
    requires CorrectPattern(v, true, fallback, false, split).Ok?
    ensures CorrectPattern(v, true, fallback, false, split).value[0] != "mitmproxy"
  {
  }

  /** The default command is a valid command and validates to itself. */
  lemma DefaultCommandValid(stdinIsTty: bool, split: Splitter)
    ensures CorrectPattern(Tokens(DefaultProxy.command), DefaultProxy.adaptPattern,
                           DefaultProxy.fallbackPattern, stdinIsTty, split) == Ok(["mitmdump"])
  {
  }
}
