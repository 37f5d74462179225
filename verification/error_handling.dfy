/** The three handlers of ezoutlet/error_handling.py: each reports the error on
    stderr and returns the exit code for its kind of error. */
module ErrorHandling {
  import opened Results
  import opened Exceptions
  import Constants

  /** What a handler writes to stderr, as a value: the usage line, and an error
      line `<prog>: error: <text>` whose text is `str(e)` or the unhandled-error
      message wrapping the traceback of `e`. */
  datatype Diagnostic =
    | UsageThenError(shown: Exception)
    | ErrorLine(shown: Exception)
    | UnhandledErrorLine(raised: Exception)

  datatype Handled = Handled(code: int, diagnostic: Diagnostic)

  /** How a `main` ends normally: the exit code, and what a handler reported on
      the way, `None` when no handler ran. */
  datatype Exit = Exit(code: int, report: Option<Diagnostic>)

  /** The ending after a handler ran: its code and its report. */
  function Reported(h: Handled): Exit
  {
    Exit(h.code, Some(h.diagnostic))
  }

  /** `usage_error`: an error in the command-line arguments. */
  function UsageError(e: Exception): (h: Handled)
    ensures h.code == Constants.ExitCodeParserErr
    ensures h.diagnostic == UsageThenError(e)
  {
    Handled(Constants.ExitCodeParserErr, UsageThenError(e))
  }

  /** `runtime_error`: an expected failure at run time, e.g. a silent device. */
  function RuntimeError(e: Exception): (h: Handled)
    ensures h.code == Constants.ExitCodeErr
    ensures h.diagnostic == ErrorLine(e)
  {
    Handled(Constants.ExitCodeErr, ErrorLine(e))
  }

  /** `unexpected_exception`: anything else, reported with its traceback. */
  function UnexpectedException(e: Exception): (h: Handled)
    ensures h.code == Constants.ExitCodeErr
    ensures h.diagnostic == UnhandledErrorLine(e)
  {
    Handled(Constants.ExitCodeErr, UnhandledErrorLine(e))
  }

  /** Runtime and unexpected errors share the failure code, which differs from
      the usage-error code; no handler returns the success code. */
  lemma HandlerCodes(e: Exception)
    ensures RuntimeError(e).code == UnexpectedException(e).code == 1
    ensures UsageError(e).code == 2
    ensures UsageError(e).code != RuntimeError(e).code
    ensures UsageError(e).code != Constants.ExitCodeOk && RuntimeError(e).code != Constants.ExitCodeOk
  {
  }
}
