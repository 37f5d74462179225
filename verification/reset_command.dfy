/** The `reset` command of ezoutlet/reset_command.py: it keeps the parsed
    arguments, validates them when it is built, and runs one outlet reset. */
module ResetCommands {
  import opened Results
  import opened Exceptions
  import opened Arguments
  import opened Outlet
  import Constants

  /** `_check_args`: a negative reset time is a usage error; zero and every
      positive time are accepted. */
  function CheckArgs(args: ParsedArgs): (r: Outcome<Exception>)
    ensures r.Fail? <==> args.resetTime < 0.0
    ensures r.Fail? ==> r.error == EzOutletUsageError(Text(Constants.ResetTimeNegativeErrorMessage))
  {
    if args.resetTime < 0.0 then
      Fail(EzOutletUsageError(Text(Constants.ResetTimeNegativeErrorMessage)))
    else
      Pass
  }

  /** An accepted reset command. */
  datatype ResetCommand = ResetCommand(args: ParsedArgs)
  {
    /** What `run` does: reset the outlet at `target` with the default timeout,
        `reset_time` as the extra delay and the default reset interval, then
        return the success code; an error of the reset propagates unchanged. */
    function RunSpec(transport: HttpOutcome): (s: Step<int>)
      ensures s.events == ResetSpec(args.target, DefaultTimeout, args.resetTime, DefaultResetInterval, transport).events
      ensures s.result.Ok? <==> transport == Body(ExpectedResponseContents)
      ensures s.result.Ok? ==> s.result.value == Constants.ExitCodeOk
      ensures s.result.Err? ==>
        s.result.error == ResetSpec(args.target, DefaultTimeout, args.resetTime, DefaultResetInterval, transport).result.error
    {
      var reset := ResetSpec(args.target, DefaultTimeout, args.resetTime, DefaultResetInterval, transport);
      match reset.result
      case Err(e) => Step(Err(e), reset.events)
      case Ok(_) => Step(Ok(Constants.ExitCodeOk), reset.events)
    }
  }

  /** `run`. */
  method Run(cmd: ResetCommand, transport: HttpOutcome, log: EffectLog) returns (r: Result<int, Exception>)
    modifies log
    ensures r == cmd.RunSpec(transport).result
    ensures log.events == old(log.events) + cmd.RunSpec(transport).events
  {
    var outlet := new EzOutlet(cmd.args.target, DefaultTimeout);
    var response := outlet.Reset(cmd.args.resetTime, DefaultResetInterval, transport, log);
    if response.Err? {
      r := Err(response.error);
      return;
    }
    r := Ok(Constants.ExitCodeOk);
  }

  /** `ResetCommand(parsed_args)`: the constructor validates at once, so a
      negative reset time raises before any command exists. */
  function NewResetCommand(args: ParsedArgs): (r: Result<ResetCommand, Exception>)
    ensures r.Ok? <==> args.resetTime >= 0.0
    ensures r.Ok? ==> r.value.args == args
    ensures r.Err? ==> r.error == EzOutletUsageError(Text(Constants.ResetTimeNegativeErrorMessage))
  {
    match CheckArgs(args)
    case Fail(e) => Err(e)
    case Pass => Ok(ResetCommand(args))
  }

  /** The parser's default reset time passes validation, and running the command
      then sleeps for exactly the default reset interval after a `0,0` reply. */
  lemma DefaultResetTimeAccepted(target: string)
    ensures NewResetCommand(ParsedArgs(Some("reset"), target, DefaultResetTime)).Ok?
    ensures ResetCommand(ParsedArgs(Some("reset"), target, DefaultResetTime)).RunSpec(Body("0,0")).events
      == [Get("http://" + target + "/reset.cgi", 10.0, true), Sleep(3.05)]
  {
  }
}
