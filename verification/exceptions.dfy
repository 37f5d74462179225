/** The exceptions of ezoutlet/exceptions.py, the other exceptions that reach the
    program's handlers, and how Python picks the `except` clause that catches one. */
module Exceptions {
  import opened Results

  /** The text an exception carries. The no-response message keeps the timeout it
      reports as a number, since rendering a float as text is not modelled. */
  datatype Message = Text(text: string) | NoResponse(timeout: real)

  datatype Exception =
    | EzOutletUsageError(message: Message)
    | EzOutletError(message: Message)
      /** any `Exception` outside ezoutlet's own two classes, e.g. a transport
          failure of `requests` other than a connect timeout */
    | OtherException(description: string)
      /** raised by argparse (or `sys.exit`); a `BaseException`, not an `Exception` */
    | SystemExit(code: int)
      /** any other `BaseException` that is not an `Exception`, e.g. the
          `KeyboardInterrupt` of a Ctrl-C during the wait */
    | OtherBaseException(description: string)

  datatype ExceptionClass =
    | BaseExceptionCls
    | ExceptionCls
    | EzOutletErrorCls
    | EzOutletUsageErrorCls
    | SystemExitCls
    | OtherBaseExceptionCls

  function ClassOf(e: Exception): ExceptionClass
  {
    match e
    case EzOutletUsageError(_) => EzOutletUsageErrorCls
    case EzOutletError(_) => EzOutletErrorCls
    case OtherException(_) => ExceptionCls
    case SystemExit(_) => SystemExitCls
    case OtherBaseException(_) => OtherBaseExceptionCls
  }

  /** A class followed by its base classes, nearest first: `EzOutletUsageError`
      derives from `EzOutletError`, which derives from `Exception`. */
  function Mro(c: ExceptionClass): (m: seq<ExceptionClass>)
    ensures |m| >= 1 && m[0] == c && m[|m| - 1] == BaseExceptionCls
  {
    match c
    case BaseExceptionCls => [BaseExceptionCls]
    case ExceptionCls => [ExceptionCls, BaseExceptionCls]
    case EzOutletErrorCls => [EzOutletErrorCls, ExceptionCls, BaseExceptionCls]
    case EzOutletUsageErrorCls => [EzOutletUsageErrorCls, EzOutletErrorCls, ExceptionCls, BaseExceptionCls]
    case SystemExitCls => [SystemExitCls, BaseExceptionCls]
    case OtherBaseExceptionCls => [OtherBaseExceptionCls, BaseExceptionCls]
  }

  /** `isinstance(e, c)`: what an `except c:` clause tests. */
  predicate IsInstance(e: Exception, c: ExceptionClass)
  {
    c in Mro(ClassOf(e))
  }

  /** The index of the `except` clause of a `try` statement that catches `e`: the
      first, in source order, whose class `e` is an instance of; `None` when no
      clause matches and `e` propagates out of the statement. */
  function FirstMatchingHandler(handlers: seq<ExceptionClass>, e: Exception): (r: Option<nat>)
    ensures r.Some? ==> r.value < |handlers| && IsInstance(e, handlers[r.value])
    ensures r.Some? ==> forall j :: 0 <= j < r.value ==> !IsInstance(e, handlers[j])
    ensures r.None? ==> forall j :: 0 <= j < |handlers| ==> !IsInstance(e, handlers[j])
  {
    if handlers == [] then None
    else if IsInstance(e, handlers[0]) then Some(0)
    else
      match FirstMatchingHandler(handlers[1..], e)
      case None => None
      case Some(i) => Some(i + 1)
  }

  /** The subclass relation of ezoutlet/exceptions.py: a usage error is also an
      `EzOutletError` and an `Exception`; `SystemExit` and the other direct
      subclasses of `BaseException` are not `Exception`s. */
  lemma Hierarchy(m: Message, code: int, d: string)
    ensures IsInstance(EzOutletUsageError(m), EzOutletErrorCls)
    ensures IsInstance(EzOutletUsageError(m), ExceptionCls)
    ensures !IsInstance(EzOutletError(m), EzOutletUsageErrorCls)
    ensures IsInstance(EzOutletError(m), ExceptionCls)
    ensures !IsInstance(SystemExit(code), ExceptionCls)
    ensures !IsInstance(OtherBaseException(d), ExceptionCls) && !IsInstance(OtherBaseException(d), SystemExitCls)
  {
  }

  /** Why a handler for the subclass must come first: with the `EzOutletError`
      clause ahead of the `EzOutletUsageError` clause, a usage error would be
      caught by the `EzOutletError` clause. */
  lemma HandlerOrderMatters(m: Message)
    ensures FirstMatchingHandler([EzOutletUsageErrorCls, EzOutletErrorCls], EzOutletUsageError(m)) == Some(0)
    ensures FirstMatchingHandler([EzOutletErrorCls, EzOutletUsageErrorCls], EzOutletUsageError(m)) == Some(0)
    ensures FirstMatchingHandler([EzOutletUsageErrorCls, EzOutletErrorCls], EzOutletError(m)) == Some(1)
  {
  }
}
