/** The entry point of ezoutlet/__init__.py: parse the arguments, build the
    command, run it, and turn every exception into an exit code, trying the
    `except` clauses of `main` in their source order. */
module App {
  import opened Results
  import opened Exceptions
  import opened Arguments
  import opened Outlet
  import opened ResetCommands
  import opened Commands
  import opened ErrorHandling
  import Constants

  /** The `except` clauses of `main`, in source order. */
  const MainHandlers: seq<ExceptionClass> := [EzOutletUsageErrorCls, EzOutletErrorCls, ExceptionCls, SystemExitCls]

  /** What `_parse_args_and_run` returns or raises and the effects it issues. */
  function ParseArgsAndRunSpec(parse: ParseOutcome, transport: HttpOutcome): (s: Step<int>)
    ensures parse.ParseRaised? ==> s == Step(Err(parse.error), [])
    // the outlet is contacted only for a reset command with valid arguments
    ensures s.events != [] ==>
      parse.Parsed? && parse.args.subcommand == Some("reset") && parse.args.resetTime >= 0.0
    ensures parse.Parsed? && parse.args.subcommand == Some("reset") && parse.args.resetTime < 0.0 ==>
      s == Step(Err(EzOutletUsageError(Text(Constants.ResetTimeNegativeErrorMessage))), [])
    ensures parse.Parsed? && parse.args.subcommand == Some("reset") && parse.args.resetTime >= 0.0 ==>
      s == ResetCommand(parse.args).RunSpec(transport)
    ensures parse.Parsed? && parse.args.subcommand == Some("version") ==>
      s == Step(Ok(Constants.ExitCodeOk), [])
    ensures parse.Parsed? && parse.args.subcommand != Some("reset") && parse.args.subcommand != Some("version") ==>
      s == Step(Ok(Constants.ExitCodeParserErr), [])
  {
    match parse
    case ParseRaised(e) => Step(Err(e), [])
    case Parsed(args) =>
      match ParseCommand(args.subcommand, args)
      case Err(e) => Step(Err(e), [])
      case Ok(cmd) => cmd.RunSpec(transport)
  }

  /** `_parse_args_and_run`: the parse outcome stands in for `parse_args(argv)`. */
  method ParseArgsAndRun(parse: ParseOutcome, transport: HttpOutcome, log: EffectLog)
    returns (r: Result<int, Exception>)
    modifies log
    ensures r == ParseArgsAndRunSpec(parse, transport).result
    ensures log.events == old(log.events) + ParseArgsAndRunSpec(parse, transport).events
  {
    match parse
    case ParseRaised(e) =>
      r := Err(e);
    case Parsed(args) =>
      var cmd := ParseCommand(args.subcommand, args);
      if cmd.Err? {
        r := Err(cmd.error);
        return;
      }
      r := Commands.Run(cmd.value, transport, log);
  }

  /** An exception is caught by one of the clauses of `main` exactly when it is
      an `Exception` or a `SystemExit`; any other `BaseException`, such as a
      `KeyboardInterrupt`, escapes it. */
  lemma MainCatchesEverything(e: Exception)
    ensures FirstMatchingHandler(MainHandlers, e).Some? <==> !e.OtherBaseException?
  {
    if e.SystemExit? {
      assert IsInstance(e, MainHandlers[3]);
    } else if e.OtherBaseException? {
      forall j | 0 <= j < |MainHandlers|
        ensures !IsInstance(e, MainHandlers[j])
      {
      }
    } else {
      assert IsInstance(e, MainHandlers[2]);
    }
  }

  /** The `try` statement of `main`: a returned value is passed through with no
      report; an exception is handled by the first `except` clause it is an
      instance of, so a usage error reaches its own clause before the
      `EzOutletError` clause it also matches, another `EzOutletError` gets the
      plain error line, any other `Exception` the unhandled-error report, and
      `SystemExit`, not being an `Exception`, the last clause. `Err` is an
      exception that escapes `main`. */
  function HandleOutcome(r: Result<int, Exception>): (x: Result<Exit, Exception>)
    ensures r.Ok? ==> x == Ok(Exit(r.value, None))
    ensures r.Err? && r.error.EzOutletUsageError? ==>
      x == Ok(Exit(Constants.ExitCodeParserErr, Some(ErrorHandling.UsageThenError(r.error))))
    ensures r.Err? && r.error.EzOutletError? ==>
      x == Ok(Exit(Constants.ExitCodeErr, Some(ErrorHandling.ErrorLine(r.error))))
    ensures r.Err? && r.error.OtherException? ==>
      x == Ok(Exit(Constants.ExitCodeErr, Some(ErrorHandling.UnhandledErrorLine(r.error))))
    ensures r.Err? && r.error.SystemExit? ==> x == Ok(Exit(r.error.code, None))
    ensures r.Err? && r.error.OtherBaseException? ==> x == Err(r.error)
  {
    match r
    case Ok(v) => Ok(Exit(v, None))
    case Err(e) =>
      MainCatchesEverything(e);
      match FirstMatchingHandler(MainHandlers, e)
      case None => Err(e)
      case Some(clause) =>
        if clause == 0 then Ok(ErrorHandling.Reported(ErrorHandling.UsageError(e)))
        else if clause == 1 then Ok(ErrorHandling.Reported(ErrorHandling.RuntimeError(e)))
        else if clause == 2 then Ok(ErrorHandling.Reported(ErrorHandling.UnexpectedException(e)))
        else Ok(Exit(e.code, None))
  }

  /** `main(argv)`: what it returns and reports, or the exception escaping it. */
  method Execute(parse: ParseOutcome, transport: HttpOutcome, log: EffectLog)
    returns (x: Result<Exit, Exception>)
    modifies log
    ensures x == HandleOutcome(ParseArgsAndRunSpec(parse, transport).result)
    ensures log.events == old(log.events) + ParseArgsAndRunSpec(parse, transport).events
  {
    var outcome := ParseArgsAndRun(parse, transport, log);
    x := HandleOutcome(outcome);
  }

  /** How `main` ends for each way a run can go. */
  function MainEnding(parse: ParseOutcome, transport: HttpOutcome): Result<Exit, Exception>
  {
    HandleOutcome(ParseArgsAndRunSpec(parse, transport).result)
  }

  /** A `reset` command whose arguments pass validation. */
  predicate ValidReset(parse: ParseOutcome)
  {
    parse.Parsed? && parse.args.subcommand == Some("reset") && parse.args.resetTime >= 0.0
  }

  /** End to end: a valid reset returns 0 with no report exactly when the device
      answers `0,0`; a silent device or a wrong body gives 1 and the plain error
      line, any other transport failure 1 and the unhandled-error report; a
      negative reset time gives 2 and the usage report without contacting the
      device; `version` returns 0, no command 2, an argparse exit its own code,
      and any other `BaseException` escapes. */
  lemma MainExitCodes(parse: ParseOutcome, transport: HttpOutcome)
    ensures ValidReset(parse) ==>
      (MainEnding(parse, transport) == Ok(Exit(0, None)) <==> transport == Body("0,0"))
    ensures ValidReset(parse) && transport == ConnectTimeout ==>
      MainEnding(parse, transport) == Ok(Exit(1, Some(ErrorHandling.ErrorLine(EzOutletError(NoResponse(10.0))))))
    ensures ValidReset(parse) && transport.Body? && transport.text != "0,0" ==>
      MainEnding(parse, transport) ==
        Ok(Exit(1, Some(ErrorHandling.ErrorLine(EzOutletError(Text(UnexpectedResponseMsg(transport.text)))))))
    ensures ValidReset(parse) && transport.OtherFailure? ==>
      MainEnding(parse, transport) ==
        Ok(Exit(1, Some(ErrorHandling.UnhandledErrorLine(OtherException(transport.description)))))
    ensures parse.Parsed? && parse.args.subcommand == Some("reset") && parse.args.resetTime < 0.0 ==>
      MainEnding(parse, transport) ==
        Ok(Exit(2, Some(ErrorHandling.UsageThenError(EzOutletUsageError(Text(Constants.ResetTimeNegativeErrorMessage)))))) &&
      ParseArgsAndRunSpec(parse, transport).events == []
    ensures parse.Parsed? && parse.args.subcommand == Some("version") ==> MainEnding(parse, transport) == Ok(Exit(0, None))
    ensures parse.Parsed? && parse.args.subcommand == None ==> MainEnding(parse, transport) == Ok(Exit(2, None))
    ensures parse.ParseRaised? && parse.error.SystemExit? ==> MainEnding(parse, transport) == Ok(Exit(parse.error.code, None))
    ensures parse.ParseRaised? && parse.error.OtherBaseException? ==> MainEnding(parse, transport) == Err(parse.error)
  {
  }
}
