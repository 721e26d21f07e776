/** The command context every handler starts from (src/context.ts): output
    mode, timeout, the quiet / verbose / dry-run switches and the API token.
    The token comes from the environment; here it is a parameter. */
module Context {
  import opened Wrappers
  import opened JsValue
  import opened Exits
  import Utils

  const DEFAULT_TIMEOUT_MS := 30000

  /** The options object the option parser hands to a command handler:
      a flag that was not given is simply absent. */
  type Options = map<string, Value>

  /** `options.name` */
  function Opt(options: Options, name: string): Value {
    if name in options then options[name] else Undefined
  }

  datatype OutputMode = Json | Plain

  datatype CommandContext = CommandContext(
    token: string,
    outputMode: OutputMode,
    quiet: bool,
    verbose: bool,
    dryRun: bool,
    timeoutMs: int)

  const BOTH_OUTPUT_MODES := Failure("--json and --plain are mutually exclusive.", USAGE)
  const QUIET_AND_VERBOSE := Failure("--quiet and --verbose are mutually exclusive.", USAGE)
  const TOKEN_REQUIRED := Failure("READWISE_API_TOKEN is required.", AUTH)

  function JsonFlag(options: Options): Result<Option<bool>, Failure> {
    Utils.ParseOptionalBoolean(Opt(options, "json"), "--json")
  }

  function PlainFlag(options: Options): Result<Option<bool>, Failure> {
    Utils.ParseOptionalBoolean(Opt(options, "plain"), "--plain")
  }

  /** Plain output when `--plain` reads as true or `--json` reads as false;
      JSON otherwise, including when neither flag is given. Asking for both
      is a usage error, and so is a flag value that is not a boolean. */
  function ResolveOutputMode(options: Options): (r: Result<OutputMode, Failure>)
    ensures JsonFlag(options).Err? ==> r == Err(Utils.InvalidBoolean("--json"))
    ensures JsonFlag(options).Ok? && PlainFlag(options).Err? ==> r == Err(Utils.InvalidBoolean("--plain"))
    ensures JsonFlag(options) == Ok(Some(true)) && PlainFlag(options) == Ok(Some(true)) ==>
      r == Err(BOTH_OUTPUT_MODES)
    ensures r.Ok? <==> (JsonFlag(options).Ok? && PlainFlag(options).Ok? &&
      !(JsonFlag(options) == Ok(Some(true)) && PlainFlag(options) == Ok(Some(true))))
    ensures r == Ok(Plain) <==> (r.Ok? &&
      (PlainFlag(options) == Ok(Some(true)) || JsonFlag(options) == Ok(Some(false))))
    ensures r.Err? ==> r.error.code == USAGE
  {
    match JsonFlag(options)
    case Err(f) => Err(f)
    case Ok(jsonFlag) =>
      match PlainFlag(options)
      case Err(f) => Err(f)
      case Ok(plainFlag) =>
        if jsonFlag == Some(true) && plainFlag == Some(true) then Err(BOTH_OUTPUT_MODES)
        else if plainFlag == Some(true) then Ok(Plain)
        else if jsonFlag == Some(false) then Ok(Plain)
        else Ok(Json)
  }

  /** Without either flag the output is JSON. */
  lemma DefaultOutputModeIsJson(options: Options)
    requires "json" !in options && "plain" !in options
    ensures ResolveOutputMode(options) == Ok(Json)
  {
  }

  /** The timeout in milliseconds: the `--timeout` value when given, which is
      always positive, else the default of 30 seconds. */
  function ResolveTimeout(options: Options): (r: Result<int, Failure>)
    ensures r.Ok? ==> r.value > 0
    ensures Opt(options, "timeout") == Undefined ==> r == Ok(DEFAULT_TIMEOUT_MS)
    ensures forall n :: Utils.ParsePositiveInt(Opt(options, "timeout"), "--timeout") == Ok(Some(n)) ==> r == Ok(n)
    ensures r.Err? <==> Utils.ParsePositiveInt(Opt(options, "timeout"), "--timeout").Err?
    ensures r.Err? ==> r.error == Utils.InvalidPositiveInt("--timeout")
  {
    match Utils.ParsePositiveInt(Opt(options, "timeout"), "--timeout")
    case Err(f) => Err(f)
    case Ok(timeout) => Ok(timeout.GetOr(DEFAULT_TIMEOUT_MS))
  }

  /** `parseOptionalBoolean(value, flagName) ?? false` */
  function Switch(options: Options, name: string, flagName: string): (r: Result<bool, Failure>)
    ensures r.Ok? <==> Utils.ParseOptionalBoolean(Opt(options, name), flagName).Ok?
    ensures r == Ok(true) <==> Utils.ParseOptionalBoolean(Opt(options, name), flagName) == Ok(Some(true))
    ensures Opt(options, name) == Undefined ==> r == Ok(false)
  {
    match Utils.ParseOptionalBoolean(Opt(options, name), flagName)
    case Err(f) => Err(f)
    case Ok(b) => Ok(b.GetOr(false))
  }

  /** Every global flag reads and no two of them conflict: exactly the
      condition under which context resolution gets as far as the token. */
  predicate FlagsValid(options: Options) {
    ResolveOutputMode(options).Ok? &&
    Switch(options, "quiet", "--quiet").Ok? &&
    Switch(options, "verbose", "--verbose").Ok? &&
    Switch(options, "dryRun", "--dry-run").Ok? &&
    ResolveTimeout(options).Ok? &&
    !(Switch(options, "quiet", "--quiet") == Ok(true) && Switch(options, "verbose", "--verbose") == Ok(true))
  }

  /** The context of a command. Flag errors are usage errors and come before
      the token check, so they win over a missing token; a missing or empty
      token is an authentication error. */
  function ResolveContext(options: Options, envToken: Option<string>): (r: Result<CommandContext, Failure>)
    ensures !FlagsValid(options) ==> r.Err? && r.error.code == USAGE
    ensures FlagsValid(options) && (envToken.None? || envToken.value == "") ==> r == Err(TOKEN_REQUIRED)
    ensures r.Ok? <==> FlagsValid(options) && envToken.Some? && envToken.value != ""
    ensures r.Ok? ==> Some(r.value.token) == envToken
    ensures r.Ok? ==> Ok(r.value.outputMode) == ResolveOutputMode(options)
    ensures r.Ok? ==> Ok(r.value.timeoutMs) == ResolveTimeout(options) && r.value.timeoutMs > 0
    ensures r.Ok? ==> Ok(r.value.quiet) == Switch(options, "quiet", "--quiet")
    ensures r.Ok? ==> Ok(r.value.verbose) == Switch(options, "verbose", "--verbose")
    ensures r.Ok? ==> Ok(r.value.dryRun) == Switch(options, "dryRun", "--dry-run")
    ensures r.Ok? ==> !(r.value.quiet && r.value.verbose)
  {
    match ResolveOutputMode(options)
    case Err(f) => Err(f)
    case Ok(outputMode) =>
      match Switch(options, "quiet", "--quiet")
      case Err(f) => Err(f)
      case Ok(quiet) =>
        match Switch(options, "verbose", "--verbose")
        case Err(f) => Err(f)
        case Ok(verbose) =>
          match Switch(options, "dryRun", "--dry-run")
          case Err(f) => Err(f)
          case Ok(dryRun) =>
            match ResolveTimeout(options)
            case Err(f) => Err(f)
            case Ok(timeoutMs) =>
              if quiet && verbose then Err(QUIET_AND_VERBOSE)
              else if envToken.None? || envToken.value == "" then Err(TOKEN_REQUIRED)
              else Ok(CommandContext(envToken.value, outputMode, quiet, verbose, dryRun, timeoutMs))
  }

  /** With no flags and a token, a command writes JSON, is neither quiet nor
      verbose, sends its requests and waits 30 seconds for each. */
  lemma DefaultContext(token: string)
    requires token != ""
    ensures ResolveContext(map[], Some(token)) == Ok(CommandContext(token, Json, false, false, false, DEFAULT_TIMEOUT_MS))
  {
    DefaultOutputModeIsJson(map[]);
  }

  /** The same flags without `--dry-run` give the same context, except that
      it sends its requests. */
  lemma ResolveContextWithoutDryRun(options: Options, envToken: Option<string>)
    requires ResolveContext(options, envToken).Ok?
    ensures ResolveContext(options["dryRun" := Bool(false)], envToken) ==
      Ok(ResolveContext(options, envToken).value.(dryRun := false))
  {
    var o := options["dryRun" := Bool(false)];
    assert Opt(o, "json") == Opt(options, "json") && Opt(o, "plain") == Opt(options, "plain");
    assert Opt(o, "quiet") == Opt(options, "quiet") && Opt(o, "verbose") == Opt(options, "verbose");
    assert Opt(o, "timeout") == Opt(options, "timeout");
    Utils.ParseOptionalBooleanCases(Bool(false), "--dry-run");
    assert Switch(o, "dryRun", "--dry-run") == Ok(false);
  }
}
