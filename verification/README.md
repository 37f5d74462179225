# ezoutlet, modelled in Dafny

ezoutlet is a command-line tool that resets an ezOutlet EZ-11b, a remote power switch on the local network. It sends one HTTP GET to `http://<host>/reset.cgi` with proxies disabled. It accepts only the exact reply `0,0`. After that reply it waits for the outlet's own off/on cycle (3.05 s by default) plus any extra delay the caller asked for. Around this sequence sit the command dispatch (`reset`, `version`, no command), the validation of `--reset-time`, and the mapping of exceptions to exit codes: 0 for success, 1 for a runtime or unexpected error, 2 for a usage error.

The model has one module per source file:

- `Results`: Option, Result and Outcome values. They stand in for Python's `None`, for a returned value or a raised exception, and for "returned normally or raised".
- `Constants` (`ezoutlet/constants.py`): exit codes, the default interval, and the message templates.
- `Exceptions` (`ezoutlet/exceptions.py`):
  - the exceptions that reach the handlers, as a datatype;
  - the class hierarchy, as a method resolution order;
  - `FirstMatchingHandler`, which states Python's rule that an exception is handled by the first `except` clause, in source order, whose class it is an instance of.
- `Outlet` (`ezoutlet/ez_outlet.py`, lines 29-144):
  - `EzOutlet` is a class whose host and timeout are set once by its constructor.
  - The network is an input `HttpOutcome`: `Body(text)`, `ConnectTimeout` or `OtherFailure`.
  - The GET and the sleep are recorded as `Get(url, timeout, noProxy)` and `Sleep(seconds)` events in a ghost `EffectLog`.
  - `EzOutlet.Reset` is proved against the pure `ResetSpec`, which gives the result and the events of one reset.
- `ErrorHandling` (`ezoutlet/error_handling.py`): the three handlers. Each returns its exit code and, as a value, what it reports.
- `Arguments`: the parsed-argument record that argparse hands over, or the exception it raised.
- `ResetCommands` (`ezoutlet/reset_command.py`): validation when the command is built, and `run`.
- `TopLevelCommands` (`ezoutlet/parse_command.py`): the two-way dispatch.
- `Commands` (`ezoutlet/commands/parse_command.py`): the three-way dispatch, including the exit codes of the `version` and no-command commands.
- `App` (`ezoutlet/__init__.py`): `_parse_args_and_run` and `main`.
- `OutletScript` (`ezoutlet/ez_outlet.py`, lines 147-239): the older entry point in the same file, where `main` ends the process with `sys.exit`.

Every effectful method (`Reset`, each command's `Run`, each `ParseArgsAndRun`, each `Execute`) promises two things:
- its result equals the `result` of a pure specification function;
- the log afterwards is the old log followed by that function's `events`.

The properties of each step are stated on those functions.

Command objects only keep the arguments they were built with, so they are immutable datatypes. A Python constructor that raises becomes a function returning `Result`.

Facts about the code that the model keeps:
- The messages name the outlet as "EzOutlet": `No response from EzOutlet after {0} seconds.` and `Unexpected response from EzOutlet. ...` (ezoutlet/ez_outlet.py:49-52).
- Only `requests.exceptions.ConnectTimeout` (ezoutlet/ez_outlet.py:117) becomes a no-response `EzOutletError`. A read timeout or any other transport failure propagates unchanged. It reaches `main`'s generic `Exception` clause, which returns 1 and reports the unhandled-error message.
- The host name is not checked for being non-empty.
- The exceptions that can reach `main` include `BaseException`s that are not `Exception`s, such as a `KeyboardInterrupt` (Ctrl-C during the wait). Apart from `SystemExit`, no clause of either `main` catches them, and they escape.
- `ezoutlet/parser.py:20-30` registers only the `reset` subcommand. With that parser, `version` is an invalid choice: argparse exits with code 2, and `parse_command` never sees `version`. The tests in test/test_main.py:304-321 expect `version` to print the version and exit 0. The `version` branch of `Commands.ParseCommand`, `App.ParseArgsAndRunSpec` and `App.MainExitCodes` is reached only with a parser that offers `version`.

## Model

| member | source | states |
|---|---|---|
| `Constants.ErrorString` | ezoutlet/constants.py:39 | the error line is the program name, `: error: `, then the message unchanged |
| `Constants.UnhandledErrorMessage` | ezoutlet/constants.py:40 | the unhandled-error text is the fixed bug-report request and a blank line, followed by the detail unchanged |
| `Constants.ConstantValues` | ezoutlet/constants.py:14-42 | version string `ezoutlet 1.0`; the negative-reset-time message spelled out; exit codes 0, 1, 2, pairwise distinct |
| `Exceptions.Mro` | ezoutlet/exceptions.py:10-15 | every class's ancestry starts with itself and ends with `BaseException` |
| `Exceptions.Hierarchy` | ezoutlet/exceptions.py:10-15 | a usage error is also an `EzOutletError` and an `Exception`; an `EzOutletError` is not a usage error; neither `SystemExit` nor any other non-`Exception` `BaseException` is an `Exception` |
| `Exceptions.FirstMatchingHandler` | ezoutlet/__init__.py:23-32 | the chosen clause matches the exception and no earlier clause does; `None` exactly when no clause matches |
| `Exceptions.HandlerOrderMatters` | ezoutlet/__init__.py:25-28 | with the usage clause first, a usage error takes it; with the clauses swapped, the `EzOutletError` clause would take it |
| `Outlet.GetUrl` | ezoutlet/ez_outlet.py:29-30 | the URL always has scheme `http`; with a non-empty host it starts with `http://` |
| `Outlet.ResetUrlShape` | ezoutlet/ez_outlet.py:29-30 | for the reset path the URL is exactly `http://` + host + `/reset.cgi`, for every host |
| `Outlet.ResetUrlHost` | ezoutlet/ez_outlet.py:47 | inverse of the reset URL: an accepted URL is `http://`, the host, then `/reset.cgi` |
| `Outlet.ResetUrlHostOfGetUrl` | ezoutlet/ez_outlet.py:64-66 | the reset URL gives back the host it was built from, so distinct hosts get distinct URLs |
| `Outlet.GetUrlOfResetUrlHost` | ezoutlet/ez_outlet.py:64-66 | every URL the inverse accepts is the reset URL of the host it returns |
| `Outlet.UnexpectedResponseMsg` | ezoutlet/ez_outlet.py:50-52 | the message is the fixed prefix followed by the actual body unchanged |
| `Outlet.UnexpectedResponsePrefixText` | ezoutlet/ez_outlet.py:48-52 | the fixed prefix is `Unexpected response from EzOutlet. Expected: '0,0' Actual: ` |
| `Outlet.CheckResponse` | ezoutlet/ez_outlet.py:122-136 | passes if and only if the body is exactly `0,0`; otherwise raises `EzOutletError` carrying the body in the unexpected-response message |
| `Outlet.ResetSpec` | ezoutlet/ez_outlet.py:68-99 | exactly one GET, issued first, to `http://<host>/reset.cgi`, with the outlet's timeout and proxies off; success if and only if the body is `0,0`, which is then returned after exactly one sleep of `post_reset_delay + interval`; on every failure no sleep; a connect timeout gives `EzOutletError(NoResponse(timeout))`; any other transport failure propagates unchanged; a wrong body gives the unexpected-response error |
| `Outlet.EzOutlet.constructor` | ezoutlet/ez_outlet.py:55-62 | stores the host and the timeout |
| `Outlet.EzOutlet.Url` | ezoutlet/ez_outlet.py:64-66 | `url` is `http://` + host + `/reset.cgi`, with no `?` or `#` unless the host contains one |
| `Outlet.EzOutlet.Reset` | ezoutlet/ez_outlet.py:93-99 | returns or raises what `ResetSpec` gives, and appends exactly its events to the log |
| `Outlet.EzOutlet.HttpGet` | ezoutlet/ez_outlet.py:113-120 | logs one GET of the URL with the outlet's timeout and proxies disabled; returns the body only when there is one |
| `Outlet.EzOutlet.WaitForReset` | ezoutlet/ez_outlet.py:138-144 | logs exactly one sleep of the given total |
| `ErrorHandling.UsageError` | ezoutlet/error_handling.py:14-22 | returns `EXIT_CODE_PARSER_ERR` and reports usage, then the error |
| `ErrorHandling.RuntimeError` | ezoutlet/error_handling.py:25-32 | returns `EXIT_CODE_ERR` and reports the error |
| `ErrorHandling.UnexpectedException` | ezoutlet/error_handling.py:35-43 | returns `EXIT_CODE_ERR` and reports the unhandled-error message for the exception |
| `ErrorHandling.HandlerCodes` | ezoutlet/error_handling.py:22-43 | runtime and unexpected errors share code 1, which differs from the usage code 2; no handler returns 0 |
| `ResetCommands.CheckArgs` | ezoutlet/reset_command.py:20-22 | raises a usage error with `RESET_TIME_NEGATIVE_ERROR_MESSAGE` if and only if the reset time is negative, so 0 is accepted |
| `ResetCommands.NewResetCommand` | ezoutlet/reset_command.py:16-22 | a command exists if and only if the reset time is non-negative; it keeps the arguments unchanged |
| `ResetCommands.ResetCommand.RunSpec` | ezoutlet/reset_command.py:24-27 | the effects are those of a reset of `target` with timeout 10, delay `reset_time` and interval 3.05; returns `EXIT_CODE_OK` if and only if the device answers `0,0`; otherwise the reset's error propagates unchanged |
| `ResetCommands.Run` | ezoutlet/reset_command.py:24-27 | returns or raises what `RunSpec` gives and appends exactly its events |
| `ResetCommands.DefaultResetTimeAccepted` | ezoutlet/parser.py:27-30 | the parser's default reset time 0 passes validation; the reset then sleeps exactly the 3.05 s interval |
| `TopLevelCommands.ParseCommand` | ezoutlet/parse_command.py:13-19 | `reset` gives the reset command (or the usage error for a negative time); every other subcommand, `version` and none included, gives the help command; one command for any input |
| `TopLevelCommands.Command.RunSpec` | ezoutlet/no_command.py:17-18 | the help command returns `None` with no effect; the reset command returns `Some(0)` exactly on a `0,0` reply, with the reset's effects, and otherwise propagates the reset's error unchanged |
| `TopLevelCommands.Run` | ezoutlet/parse_command.py:13-19 | returns or raises what `RunSpec` gives and appends exactly its events |
| `Commands.ParseCommand` | ezoutlet/commands/parse_command.py:14-22 | exactly one of three commands: reset exactly for `reset` with a non-negative time (usage error for a negative one), version exactly for `version`, the help command for anything else including none |
| `Commands.Command.RunSpec` | ezoutlet/commands/version_command.py:18-24 | `version` returns `EXIT_CODE_OK` and the no-command command `EXIT_CODE_PARSER_ERR`, both with no effect; reset behaves as `ResetCommand.RunSpec` |
| `Commands.Run` | ezoutlet/commands/no_command.py:14-20 | returns or raises what `RunSpec` gives and appends exactly its events |
| `App.ParseArgsAndRunSpec` | ezoutlet/__init__.py:35-38 | a parse exception propagates with no effect; the outlet is contacted only for `reset` with a non-negative time; a negative time raises the usage error before any effect; `version` gives 0, anything else 2 |
| `App.ParseArgsAndRun` | ezoutlet/__init__.py:35-38 | returns or raises what `ParseArgsAndRunSpec` gives and appends exactly its events |
| `App.MainCatchesEverything` | ezoutlet/__init__.py:23-32 | an exception is caught by one of `main`'s four clauses if and only if it is an `Exception` or a `SystemExit`; any other `BaseException` escapes |
| `App.HandleOutcome` | ezoutlet/__init__.py:22-32 | a returned value passes through with no report; a usage error returns 2 with the usage report (it is caught before the `EzOutletError` clause); another `EzOutletError` returns 1 with the plain error line; any other `Exception` returns 1 with the unhandled-error report; `SystemExit` returns its own code with no report; any other `BaseException` escapes `main` |
| `App.Execute` | ezoutlet/__init__.py:22-32 | `main` returns the code and report that `HandleOutcome` gives for `_parse_args_and_run`'s outcome, or lets the escaping exception through, and has exactly that run's effects |
| `App.MainExitCodes` | ezoutlet/__init__.py:22-38 | a valid reset returns 0 with no report if and only if the reply is `0,0`; a connect timeout or a wrong body returns 1 with the plain error line; any other transport failure returns 1 with the unhandled-error report; a negative time returns 2 with the usage report and no effect; `version` returns 0; no subcommand returns 2; an argparse exit returns its own code; any other `BaseException` escapes |
| `OutletScript.ScriptCommand.RunSpec` | ezoutlet/ez_outlet.py:167-177 | the help command does nothing; `_ResetCommand.run` has the effects of a default reset of `target` with delay `reset_time`, succeeds if and only if the reply is `0,0`, and otherwise propagates the reset's error |
| `OutletScript.Run` | ezoutlet/ez_outlet.py:167-169 | returns or raises what `RunSpec` gives and appends exactly its events |
| `OutletScript.CommandFactory` | ezoutlet/ez_outlet.py:158-186 | `reset` with a non-negative time gives the reset command, a negative time the usage error; anything else the help command |
| `OutletScript.ParseArgsAndRunSpec` | ezoutlet/ez_outlet.py:221-224 | a parse exception propagates with no effect; the outlet is contacted only for a valid reset; a valid reset behaves as `_ResetCommand.run`; a negative time raises the usage error before any effect; any other subcommand does nothing |
| `OutletScript.ParseArgsAndRun` | ezoutlet/ez_outlet.py:221-224 | returns or raises what `ParseArgsAndRunSpec` gives and appends exactly its events |
| `OutletScript.ScriptCatchesExceptions` | ezoutlet/ez_outlet.py:227-235 | the clauses of this `main` catch an exception if and only if it is an `Exception` |
| `OutletScript.ExitStatus` | ezoutlet/ez_outlet.py:204-235 | exit status 0 with no report on return; `sys.exit(2)` with the usage report for a usage error, which is checked first; `sys.exit(1)` with the plain error line for another `EzOutletError`; `sys.exit(1)` with the unhandled-error report for any other `Exception`; an uncaught `SystemExit` exits with its own code; any other `BaseException` escapes |
| `OutletScript.PrintedError` | ezoutlet/ez_outlet.py:200-218 | the stderr line is `constants.py: error: ` and the formatted exception; for an unhandled error, the bug-report request and a blank line come before the formatted traceback |
| `OutletScript.Execute` | ezoutlet/ez_outlet.py:227-235 | how the process ends after `main` (`ExitStatus` of `_parse_args_and_run`'s outcome), with exactly that run's effects |
| `OutletScript.ScriptExitStatuses` | ezoutlet/ez_outlet.py:221-235 | a valid reset exits 0 with no report if and only if the reply is `0,0`; a connect timeout or a wrong body exits 1 with the plain error line; any other transport failure exits 1 with the unhandled-error report; a negative time exits 2 with the usage report and no effect; any other subcommand exits 0 with no effect; an argparse exit keeps its code; any other `BaseException` escapes |

## Left out

- Real HTTP and the clock. `requests.get` and `time.sleep` are replaced by the `HttpOutcome` input and the `Get`/`Sleep` events. `time.sleep` raises `ValueError` for a negative length, which only a direct caller of `EzOutlet.reset` can reach. The model records the sleep request as issued and does not model the clock's own check.
- Floating point. Timeouts and delays are exact `real`s, so rounding in `post_reset_delay + ez_outlet_reset_interval` is not modelled. A NaN or infinite `--reset-time` (which argparse's `float` accepts) is not representable.
- Rendering numbers as text. The no-response message keeps the timeout as a number (`NoResponse(timeout)`) instead of the formatted `No response from EzOutlet after {0} seconds.`. Python 2's `repr` giving `u'0,0'` is not modelled; the Python 3 text `'0,0'` is used.
- Argument parsing (`ezoutlet/parser.py`, argparse). `parse_args` drops `argv[0]` and parses the rest. The model takes its result as input: the parsed record, or the exception parsing raised. Argparse's own errors (missing target, unknown argument, unknown subcommand) arrive only as `SystemExit(code)`. A `KeyboardInterrupt` or other non-`Exception` `BaseException` enters the model only as such a parse outcome; an interrupt during the GET or the sleep is not modelled.
- Printing. Usage, help, version text, and stderr/stdout in general are not modelled. The handlers' reports are `Diagnostic` values. `OutletScript.PrintedError` renders one through `Constants.ErrorString` and `Constants.UnhandledErrorMessage`, taking the text that `str(e)` or `traceback.format_exc()` produces as an input, because neither formatting is modelled.
- `parser.print_error`: error_handling.py lines 21, 31 and 42 call it, but `ezoutlet/parser.py` does not define it. As written, each handler would raise `AttributeError` inside an `except` clause, and that exception would escape `main`. The model follows the documented and tested return codes instead.
- `ezoutlet/commands/reset_command.py` and the `icommand` modules are not part of this model. The three-way dispatch uses `ResetCommand` of `ezoutlet/reset_command.py` in their place.
- The version and no-command classes only print. Their return codes are part of `Commands.Command.RunSpec` and `TopLevelCommands.Command.RunSpec`.
- Default arguments. `EzOutlet(hostname, timeout=10)` and `reset(post_reset_delay=0, ez_outlet_reset_interval=3.05)` are explicit parameters here. The commands pass `DefaultTimeout` and `DefaultResetInterval` and give `reset_time` as the delay, so the `post_reset_delay=0` default is never used and is not modelled.
- `sys.exit` in `OutletScript`: it is modelled as the exit status that `OutletScript.ExitStatus` returns. How the interpreter ends for an escaping non-`Exception` `BaseException` (traceback, signal status) is not modelled: the model returns the escaping exception.
- `setup.py`: version lookup by file reading, for packaging.
