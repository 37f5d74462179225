/** The two-way dispatch of ezoutlet/parse_command.py: `reset` or no command.
    The `NoCommand` of ezoutlet/no_command.py prints the help and returns `None`. */
module TopLevelCommands {
  import opened Results
  import opened Exceptions
  import opened Arguments
  import opened Outlet
  import opened ResetCommands
  import Constants

  datatype Command = Reset(reset: ResetCommand) | NoCommand(args: ParsedArgs)
  {
    /** What `run` returns (`None` for the help-only command) and does. */
    function RunSpec(transport: HttpOutcome): (s: Step<Option<int>>)
      ensures NoCommand? ==> s == Step(Ok(None), [])
      ensures Reset? ==> s.events == reset.RunSpec(transport).events
      ensures Reset? ==> (s.result.Ok? <==> transport == Body(ExpectedResponseContents))
      ensures Reset? && s.result.Ok? ==> s.result.value == Some(Constants.ExitCodeOk)
      // `run` has no handler: the reset's error propagates unchanged
      ensures Reset? && s.result.Err? ==> s.result.error == reset.RunSpec(transport).result.error
    {
      match this
      case NoCommand(_) => Step(Ok(None), [])
      case Reset(cmd) =>
        var inner := cmd.RunSpec(transport);
        match inner.result
        case Err(e) => Step(Err(e), inner.events)
        case Ok(code) => Step(Ok(Some(code)), inner.events)
    }
  }

  /** `run` of the chosen command. */
  method Run(cmd: Command, transport: HttpOutcome, log: EffectLog) returns (r: Result<Option<int>, Exception>)
    modifies log
    ensures r == cmd.RunSpec(transport).result
    ensures log.events == old(log.events) + cmd.RunSpec(transport).events
  {
    match cmd
    case NoCommand(_) =>
      r := Ok(None);
    case Reset(reset) =>
      var code := ResetCommands.Run(reset, transport, log);
      if code.Err? {
        r := Err(code.error);
      } else {
        r := Ok(Some(code.value));
      }
  }

  /** `parse_command`: `reset` gives a validated reset command (a negative reset
      time raises a usage error); every other subcommand, `version` and none
      included, gives the help-only command. */
  function ParseCommand(subcommand: Option<string>, args: ParsedArgs): (r: Result<Command, Exception>)
    ensures r.Ok? && r.value.Reset? <==> subcommand == Some("reset") && args.resetTime >= 0.0
    ensures r.Ok? && r.value.Reset? ==> r.value.reset.args == args
    ensures r.Err? <==> subcommand == Some("reset") && args.resetTime < 0.0
    ensures r.Err? ==> r.error == EzOutletUsageError(Text(Constants.ResetTimeNegativeErrorMessage))
    ensures r == Ok(NoCommand(args)) <==> subcommand != Some("reset")
  {
    if subcommand == Some("reset") then
      match NewResetCommand(args)
      case Err(e) => Err(e)
      case Ok(cmd) => Ok(Reset(cmd))
    else
      Ok(NoCommand(args))
  }
}
