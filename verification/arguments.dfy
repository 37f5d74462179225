/** What argparse hands to the commands: the parsed arguments, or the exception
    that parsing raised (argparse itself signals its errors with `SystemExit`). */
module Arguments {
  import opened Results
  import opened Exceptions

  /** The namespace of parsed arguments. `subcommand` is `None` when no subcommand
      was given; `target` and `resetTime` belong to the `reset` subcommand. */
  datatype ParsedArgs = ParsedArgs(subcommand: Option<string>, target: string, resetTime: real)

  /** The default of `--reset-time` / `-t`. */
  const DefaultResetTime: real := 0.0

  datatype ParseOutcome = Parsed(args: ParsedArgs) | ParseRaised(error: Exception)
}
