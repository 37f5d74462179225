/** The command-line entry point kept inside ezoutlet/ez_outlet.py (lines 147-239):
    a two-way command factory whose commands return nothing, and a `main` whose
    handlers end the process with `sys.exit`. Its `except` clauses do not name
    `SystemExit`, so an argparse exit passes through `main` unchanged. */
module OutletScript {
  import opened Results
  import opened Exceptions
  import opened Arguments
  import opened Outlet
  import opened ResetCommands
  import opened ErrorHandling
  import Constants

  /** `_ResetCommand` (built only after `_check_args` accepted its arguments) and
      `_NoCommand`, which only prints the help. Neither `run` returns a value. */
  datatype ScriptCommand = ScriptReset(args: ParsedArgs) | ScriptNoCommand(args: ParsedArgs)
  {
    /** What `run` does: the reset of the outlet at `target` with the default
        timeout and interval and `reset_time` as the extra delay, or nothing. */
    function RunSpec(transport: HttpOutcome): (s: Step<()>)
      ensures ScriptNoCommand? ==> s == Step(Ok(()), [])
      ensures ScriptReset? ==>
        s.events == ResetSpec(args.target, DefaultTimeout, args.resetTime, DefaultResetInterval, transport).events
      ensures ScriptReset? ==> (s.result.Ok? <==> transport == Body(ExpectedResponseContents))
      ensures ScriptReset? && s.result.Err? ==>
        s.result.error == ResetSpec(args.target, DefaultTimeout, args.resetTime, DefaultResetInterval, transport).result.error
    {
      match this
      case ScriptNoCommand(_) => Step(Ok(()), [])
      case ScriptReset(_) =>
        var reset := ResetSpec(args.target, DefaultTimeout, args.resetTime, DefaultResetInterval, transport);
        match reset.result
        case Err(e) => Step(Err(e), reset.events)
        case Ok(_) => Step(Ok(()), reset.events)
    }
  }

  /** `run` of the chosen command. */
  method Run(cmd: ScriptCommand, transport: HttpOutcome, log: EffectLog) returns (r: Result<(), Exception>)
    modifies log
    ensures r == cmd.RunSpec(transport).result
    ensures log.events == old(log.events) + cmd.RunSpec(transport).events
  {
    match cmd
    case ScriptNoCommand(_) =>
      r := Ok(());
    case ScriptReset(args) =>
      var outlet := new EzOutlet(args.target, DefaultTimeout);
      var response := outlet.Reset(args.resetTime, DefaultResetInterval, transport, log);
      if response.Err? {
        r := Err(response.error);
      } else {
        r := Ok(());
      }
  }

  /** `_command_factory`: `reset` gives the reset command once `_check_args`
      accepts the reset time; every other subcommand gives the help command. */
  function CommandFactory(subcommand: Option<string>, args: ParsedArgs): (r: Result<ScriptCommand, Exception>)
    ensures r == Ok(ScriptReset(args)) <==> subcommand == Some("reset") && args.resetTime >= 0.0
    ensures r.Err? <==> subcommand == Some("reset") && args.resetTime < 0.0
    ensures r.Err? ==> r.error == EzOutletUsageError(Text(Constants.ResetTimeNegativeErrorMessage))
    ensures r == Ok(ScriptNoCommand(args)) <==> subcommand != Some("reset")
  {
    if subcommand == Some("reset") then
      match CheckArgs(args)
      case Fail(e) => Err(e)
      case Pass => Ok(ScriptReset(args))
    else
      Ok(ScriptNoCommand(args))
  }

  /** What `_parse_args_and_run` raises, if anything, and the effects it issues. */
  function ParseArgsAndRunSpec(parse: ParseOutcome, transport: HttpOutcome): (s: Step<()>)
    ensures parse.ParseRaised? ==> s == Step(Err(parse.error), [])
    ensures s.events != [] ==>
      parse.Parsed? && parse.args.subcommand == Some("reset") && parse.args.resetTime >= 0.0
    ensures parse.Parsed? && parse.args.subcommand == Some("reset") && parse.args.resetTime < 0.0 ==>
      s == Step(Err(EzOutletUsageError(Text(Constants.ResetTimeNegativeErrorMessage))), [])
    ensures parse.Parsed? && parse.args.subcommand == Some("reset") && parse.args.resetTime >= 0.0 ==>
      s == ScriptReset(parse.args).RunSpec(transport)
    ensures parse.Parsed? && parse.args.subcommand != Some("reset") ==> s == Step(Ok(()), [])
  {
    match parse
    case ParseRaised(e) => Step(Err(e), [])
    case Parsed(args) =>
      match CommandFactory(args.subcommand, args)
      case Err(e) => Step(Err(e), [])
      case Ok(cmd) => cmd.RunSpec(transport)
  }

  method ParseArgsAndRun(parse: ParseOutcome, transport: HttpOutcome, log: EffectLog)
    returns (r: Result<(), Exception>)
    modifies log
    ensures r == ParseArgsAndRunSpec(parse, transport).result
    ensures log.events == old(log.events) + ParseArgsAndRunSpec(parse, transport).events
  {
    match parse
    case ParseRaised(e) =>
      r := Err(e);
    case Parsed(args) =>
      var cmd := CommandFactory(args.subcommand, args);
      if cmd.Err? {
        r := Err(cmd.error);
        return;
      }
      r := Run(cmd.value, transport, log);
  }

  /** The `except` clauses of this `main`, in source order. */
  const ScriptHandlers: seq<ExceptionClass> := [EzOutletUsageErrorCls, EzOutletErrorCls, ExceptionCls]

  /** The clauses of this `main` catch exactly the `Exception`s: a `SystemExit`
      or another `BaseException` passes through. */
  lemma ScriptCatchesExceptions(e: Exception)
    ensures FirstMatchingHandler(ScriptHandlers, e).Some? <==> !e.SystemExit? && !e.OtherBaseException?
  {
    if e.SystemExit? || e.OtherBaseException? {
      forall j | 0 <= j < |ScriptHandlers|
        ensures !IsInstance(e, ScriptHandlers[j])
      {
      }
    } else {
      assert IsInstance(e, ScriptHandlers[2]);
    }
  }

  /** How the process ends after `main`: exit status 0 with no report when
      `main` returns; otherwise the clause that catches the exception reports it
      and passes its code to `sys.exit`; a `SystemExit` passes through uncaught
      and the process exits with its code. `Err` is any other `BaseException`,
      which escapes uncaught. */
  function ExitStatus(r: Result<(), Exception>): (x: Result<Exit, Exception>)
    ensures r.Ok? ==> x == Ok(Exit(Constants.ExitCodeOk, None))
    ensures r.Err? && r.error.EzOutletUsageError? ==>
      x == Ok(Exit(Constants.ExitCodeParserErr, Some(UsageThenError(r.error))))
    ensures r.Err? && r.error.EzOutletError? ==> x == Ok(Exit(Constants.ExitCodeErr, Some(ErrorLine(r.error))))
    ensures r.Err? && r.error.OtherException? ==>
      x == Ok(Exit(Constants.ExitCodeErr, Some(UnhandledErrorLine(r.error))))
    ensures r.Err? && r.error.SystemExit? ==> x == Ok(Exit(r.error.code, None))
    ensures r.Err? && r.error.OtherBaseException? ==> x == Err(r.error)
  {
    match r
    case Ok(_) => Ok(Exit(Constants.ExitCodeOk, None))
    case Err(e) =>
      ScriptCatchesExceptions(e);
      match FirstMatchingHandler(ScriptHandlers, e)
      case Some(clause) =>
        if clause == 0 then Ok(Reported(UsageError(e)))
        else if clause == 1 then Ok(Reported(RuntimeError(e)))
        else Ok(Reported(UnexpectedException(e)))
      case None =>
        if e.SystemExit? then Ok(Exit(e.code, None)) else Err(e)
  }

  /** `_print_error`: the line written to stderr for a report, given the text
      Python formats for it (`str(e)` for a usage or runtime error,
      `traceback.format_exc()` for an unhandled one): `constants.py: error: `
      followed by that text, or by the bug-report request and then that text. */
  function PrintedError(d: Diagnostic, formatted: string): (line: string)
    ensures !d.UnhandledErrorLine? ==> line == "constants.py: error: " + formatted
    ensures d.UnhandledErrorLine? ==>
      line == "constants.py: error: " + "Unhandled exception! Please file bug report.\n\n" + formatted
  {
    match d
    case UnhandledErrorLine(_) => Constants.ErrorString(Constants.ProgramName, Constants.UnhandledErrorMessage(formatted))
    case _ => Constants.ErrorString(Constants.ProgramName, formatted)
  }

  /** `main(argv)` followed by the end of the process. */
  method Execute(parse: ParseOutcome, transport: HttpOutcome, log: EffectLog) returns (x: Result<Exit, Exception>)
    modifies log
    ensures x == ExitStatus(ParseArgsAndRunSpec(parse, transport).result)
    ensures log.events == old(log.events) + ParseArgsAndRunSpec(parse, transport).events
  {
    var outcome := ParseArgsAndRun(parse, transport, log);
    x := ExitStatus(outcome);
  }

  /** How the process ends for each way a run can go. */
  function ScriptEnding(parse: ParseOutcome, transport: HttpOutcome): Result<Exit, Exception>
  {
    ExitStatus(ParseArgsAndRunSpec(parse, transport).result)
  }

  /** A `reset` command whose arguments pass `_check_args`. */
  predicate ValidReset(parse: ParseOutcome)
  {
    parse.Parsed? && parse.args.subcommand == Some("reset") && parse.args.resetTime >= 0.0
  }

  /** End to end: a valid reset exits 0 with no report exactly when the device
      answers `0,0`; a silent device or a wrong body exits 1 with the plain error
      line, any other transport failure 1 with the unhandled-error report; a
      negative reset time exits 2 with the usage report and no effect; any other
      subcommand exits 0 after the help; an argparse exit keeps its code. */
  lemma ScriptExitStatuses(parse: ParseOutcome, transport: HttpOutcome)
    ensures ValidReset(parse) ==>
      (ScriptEnding(parse, transport) == Ok(Exit(0, None)) <==> transport == Body("0,0"))
    ensures ValidReset(parse) && transport == ConnectTimeout ==>
      ScriptEnding(parse, transport) == Ok(Exit(1, Some(ErrorLine(EzOutletError(NoResponse(10.0))))))
    ensures ValidReset(parse) && transport.Body? && transport.text != "0,0" ==>
      ScriptEnding(parse, transport) == Ok(Exit(1, Some(ErrorLine(EzOutletError(Text(UnexpectedResponseMsg(transport.text)))))))
    ensures ValidReset(parse) && transport.OtherFailure? ==>
      ScriptEnding(parse, transport) == Ok(Exit(1, Some(UnhandledErrorLine(OtherException(transport.description)))))
    ensures parse.Parsed? && parse.args.subcommand == Some("reset") && parse.args.resetTime < 0.0 ==>
      ScriptEnding(parse, transport) ==
        Ok(Exit(2, Some(UsageThenError(EzOutletUsageError(Text(Constants.ResetTimeNegativeErrorMessage)))))) &&
      ParseArgsAndRunSpec(parse, transport).events == []
    ensures parse.Parsed? && parse.args.subcommand != Some("reset") ==>
      ScriptEnding(parse, transport) == Ok(Exit(0, None)) && ParseArgsAndRunSpec(parse, transport).events == []
    ensures parse.ParseRaised? && parse.error.SystemExit? ==> ScriptEnding(parse, transport) == Ok(Exit(parse.error.code, None))
    ensures parse.ParseRaised? && parse.error.OtherBaseException? ==> ScriptEnding(parse, transport) == Err(parse.error)
  {
  }
}
