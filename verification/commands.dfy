/** The three-way dispatch of ezoutlet/commands/parse_command.py and the exit
    codes of its commands: `reset`, `version` (prints the version, returns
    `EXIT_CODE_OK`) and no command (prints the help, returns `EXIT_CODE_PARSER_ERR`). */
module Commands {
  import opened Results
  import opened Exceptions
  import opened Arguments
  import opened Outlet
  import opened ResetCommands
  import Constants

  datatype Command = Reset(reset: ResetCommand) | Version(args: ParsedArgs) | NoCommand(args: ParsedArgs)
  {
    /** What `run` returns or raises and the effects it issues. */
    function RunSpec(transport: HttpOutcome): (s: Step<int>)
      ensures Version? ==> s == Step(Ok(Constants.ExitCodeOk), [])
      ensures NoCommand? ==> s == Step(Ok(Constants.ExitCodeParserErr), [])
      ensures Reset? ==> s == reset.RunSpec(transport)
    {
      match this
      case Reset(cmd) => cmd.RunSpec(transport)
      case Version(_) => Step(Ok(Constants.ExitCodeOk), [])
      case NoCommand(_) => Step(Ok(Constants.ExitCodeParserErr), [])
    }
  }

  /** `run` of the chosen command. */
  method Run(cmd: Command, transport: HttpOutcome, log: EffectLog) returns (r: Result<int, Exception>)
    modifies log
    ensures r == cmd.RunSpec(transport).result
    ensures log.events == old(log.events) + cmd.RunSpec(transport).events
  {
    match cmd
    case Reset(reset) =>
      r := ResetCommands.Run(reset, transport, log);
    case Version(_) =>
      r := Ok(Constants.ExitCodeOk);
    case NoCommand(_) =>
      r := Ok(Constants.ExitCodeParserErr);
  }

  /** `parse_command`: exactly one of the three commands, chosen by the
      subcommand; only the reset command can fail to be built. */
  function ParseCommand(subcommand: Option<string>, args: ParsedArgs): (r: Result<Command, Exception>)
    ensures r.Ok? && r.value.Reset? <==> subcommand == Some("reset") && args.resetTime >= 0.0
    ensures r.Ok? && r.value.Reset? ==> r.value.reset.args == args
    ensures r.Err? <==> subcommand == Some("reset") && args.resetTime < 0.0
    ensures r.Err? ==> r.error == EzOutletUsageError(Text(Constants.ResetTimeNegativeErrorMessage))
    ensures r == Ok(Version(args)) <==> subcommand == Some("version")
    ensures r == Ok(NoCommand(args)) <==> subcommand != Some("reset") && subcommand != Some("version")
  {
    if subcommand == Some("reset") then
      match NewResetCommand(args)
      case Err(e) => Err(e)
      case Ok(cmd) => Ok(Reset(cmd))
    else if subcommand == Some("version") then
      Ok(Version(args))
    else
      Ok(NoCommand(args))
  }
}
