/** The module-level constants of ezoutlet/constants.py and the package version. */
module Constants {

  /** `__name__` of the package and `__version__` from ezoutlet/__init__.py. */
  const PackageName: string := "ezoutlet"
  const Version: string := "1.0"

  /** `os.path.basename(__file__)` evaluated inside constants.py. */
  const ProgramName: string := "constants.py"

  const VersionString: string := PackageName + " " + Version

  /** Seconds the ezOutlet itself takes to switch off and on again. */
  const DefaultEzOutletResetInterval: real := 3.05

  const ExitCodeOk: int := 0
  const ExitCodeErr: int := 1
  const ExitCodeParserErr: int := 2

  const ResetTimeArgShort: string := "-t"
  const ResetTimeArgLong: string := "--reset-time"

  const ErrorSeparator: string := ": error: "
  const UnhandledErrorPrefix: string := "Unhandled exception! Please file bug report.\n\n"

  const ResetTimeNegativeErrorMessage: string :=
    "argument" + ResetTimeArgLong + "/" + ResetTimeArgShort + ": value must be non-negative."

  /** `ERROR_STRING.format(prog, msg)`: the line written to stderr for an error. */
  function ErrorString(prog: string, msg: string): (line: string)
    ensures |line| == |prog| + |ErrorSeparator| + |msg|
    ensures line[..|prog|] == prog
    ensures line[|prog|..|prog| + |ErrorSeparator|] == ": error: "
    ensures line[|prog| + |ErrorSeparator|..] == msg
  {
    prog + ErrorSeparator + msg
  }

  /** `UNHANDLED_ERROR_MESSAGE.format(detail)`: the fixed request for a bug report,
      a blank line, then the detail (the traceback text) unchanged. */
  function UnhandledErrorMessage(detail: string): (msg: string)
    ensures |msg| == |UnhandledErrorPrefix| + |detail|
    ensures msg[..|UnhandledErrorPrefix|] == "Unhandled exception! Please file bug report.\n\n"
    ensures msg[|UnhandledErrorPrefix|..] == detail
  {
    UnhandledErrorPrefix + detail
  }

  /** The rendered texts and the three exit codes, as the program and its tests use them. */
  lemma ConstantValues()
    ensures VersionString == "ezoutlet 1.0"
    ensures ResetTimeNegativeErrorMessage == "argument--reset-time/-t: value must be non-negative."
    ensures ExitCodeOk == 0 && ExitCodeErr == 1 && ExitCodeParserErr == 2
    ensures ExitCodeOk != ExitCodeErr && ExitCodeErr != ExitCodeParserErr && ExitCodeOk != ExitCodeParserErr
  {
    var head := "argument" + ResetTimeArgLong;
    assert head == "argument--reset-time";
    var flag := head + "/" + ResetTimeArgShort;
    assert flag == "argument--reset-time/-t";
  }
}
