/** The reset sequence of ezoutlet/ez_outlet.py (lines 29-144): build the URL, one
    HTTP GET, an exact check of the body, then one sleep. The network and the clock
    are replaced by an input (`HttpOutcome`) and a ghost log of the effects issued. */
module Outlet {
  import opened Results
  import opened Exceptions
  import Constants

  const DefaultTimeout: real := 10.0
  const DefaultResetInterval: real := Constants.DefaultEzOutletResetInterval
  const ResetUrlPath: string := "/reset.cgi"
  const ExpectedResponseContents: string := "0,0"

  /** Python 3's `repr` of a string holding no quote, backslash or control character. */
  function Repr(s: string): string
  {
    "'" + s + "'"
  }

  const UnexpectedResponsePrefix: string :=
    "Unexpected response from EzOutlet. Expected: " + Repr(ExpectedResponseContents) + " Actual: "

  /** What the transport yields for the GET: the text of the response, a connect
      timeout, or any other failure of the HTTP library. */
  datatype HttpOutcome = Body(text: string) | ConnectTimeout | OtherFailure(description: string)

  /** An effect on the outside world: a GET (with proxies disabled or not) or a sleep. */
  datatype Event = Get(url: string, timeout: real, noProxy: bool) | Sleep(seconds: real)

  /** What one call does: what it returns or raises, and the effects it issues, in order. */
  datatype Step<T> = Step(result: Result<T, Exception>, events: seq<Event>)

  /** The outside world as the program sees it: the effects issued so far. */
  class EffectLog {
    ghost var events: seq<Event>

    constructor ()
      ensures events == []
    {
      events := [];
    }
  }

  /** `urlunparse(('http', hostname, path, '', '', ''))`: Python's urlunsplit puts
      `//` and the authority in front of the path (adding a `/` before a path that
      lacks one) unless the authority is empty and the path already starts with `//`. */
  function GetUrl(hostname: string, path: string): (url: string)
    ensures |url| >= 5 && url[..5] == "http:"
    ensures hostname != [] ==> |url| >= 7 && url[..7] == "http://"
  {
    var hierarchical :=
      if hostname != [] || !(|path| >= 2 && path[..2] == "//") then
        "//" + hostname + (if path != [] && path[0] != '/' then "/" + path else path)
      else
        path;
    "http:" + hierarchical
  }

  /** For the reset path the URL is the scheme, the host and the path, whatever the host. */
  lemma ResetUrlShape(hostname: string)
    ensures GetUrl(hostname, ResetUrlPath) == "http://" + hostname + ResetUrlPath
  {
    assert ResetUrlPath[..2] == "/r";
  }

  /** The partner of `GetUrl` for the reset path: the host of a URL of the form
      `http://<host>/reset.cgi`, or `None` for any other text. */
  function ResetUrlHost(url: string): (host: Option<string>)
    ensures host.Some? ==> |url| == 7 + |host.value| + |ResetUrlPath|
  {
    if |url| >= 7 + |ResetUrlPath| && url[..7] == "http://" && url[|url| - |ResetUrlPath|..] == ResetUrlPath
    then Some(url[7..|url| - |ResetUrlPath|])
    else None
  }

  /** Every reset URL gives back the host it was built from, so distinct hosts
      get distinct URLs. */
  lemma ResetUrlHostOfGetUrl(hostname: string)
    ensures ResetUrlHost(GetUrl(hostname, ResetUrlPath)) == Some(hostname)
  {
    ResetUrlShape(hostname);
    var u := "http://" + hostname + ResetUrlPath;
    assert u[..7] == "http://";
    assert u[7..|u| - |ResetUrlPath|] == hostname;
    assert u[|u| - |ResetUrlPath|..] == ResetUrlPath;
  }

  /** Every URL that `ResetUrlHost` accepts is the reset URL of the host it returns. */
  lemma GetUrlOfResetUrlHost(url: string)
    requires ResetUrlHost(url).Some?
    ensures GetUrl(ResetUrlHost(url).value, ResetUrlPath) == url
  {
    var h := ResetUrlHost(url).value;
    ResetUrlShape(h);
    assert url == url[..7] + url[7..|url| - |ResetUrlPath|] + url[|url| - |ResetUrlPath|..];
  }

  /** `UNEXPECTED_RESPONSE_MSG.format(actual)`: the fixed text naming the expected
      body, followed by the actual body unchanged. */
  function UnexpectedResponseMsg(actual: string): (msg: string)
    ensures |msg| == |UnexpectedResponsePrefix| + |actual|
    ensures msg[..|UnexpectedResponsePrefix|] == UnexpectedResponsePrefix
    ensures msg[|UnexpectedResponsePrefix|..] == actual
  {
    UnexpectedResponsePrefix + actual
  }

  /** The fixed part of the unexpected-response message, spelled out. */
  lemma UnexpectedResponsePrefixText()
    ensures UnexpectedResponsePrefix == "Unexpected response from EzOutlet. Expected: '0,0' Actual: "
  {
    assert Repr(ExpectedResponseContents) == "'0,0'";
  }

  /** `_check_response_raise_if_unexpected`: passes exactly when the body is `0,0`,
      and otherwise raises an `EzOutletError` whose message carries the body. */
  function CheckResponse(response: string): (r: Outcome<Exception>)
    ensures r.Pass? <==> response == ExpectedResponseContents
    ensures r.Fail? ==> r.error == EzOutletError(Text(UnexpectedResponseMsg(response)))
  {
    if response != ExpectedResponseContents then
      Fail(EzOutletError(Text(UnexpectedResponseMsg(response))))
    else
      Pass
  }

  /** What `_http_get` returns or raises: the body text; a connect timeout becomes
      an `EzOutletError` reporting the timeout; any other failure is not caught. */
  function HttpGetResult(timeout: real, transport: HttpOutcome): (r: Result<string, Exception>)
    ensures r.Ok? <==> transport.Body?
  {
    match transport
    case Body(text) => Ok(text)
    case ConnectTimeout => Err(EzOutletError(NoResponse(timeout)))
    case OtherFailure(description) => Err(OtherException(description))
  }

  /** What `EzOutlet(hostname, timeout).reset(postResetDelay, interval)` returns or
      raises and the effects it issues, given what the transport yields. */
  function ResetSpec(hostname: string, timeout: real, postResetDelay: real, interval: real,
                     transport: HttpOutcome): (s: Step<string>)
    // exactly one GET, first, to the reset URL, with the timeout and no proxies
    ensures |s.events| >= 1
    ensures s.events[0] == Get("http://" + hostname + "/reset.cgi", timeout, true)
    ensures forall i :: 1 <= i < |s.events| ==> s.events[i].Sleep?
    // success exactly on the body `0,0`, which is returned after one sleep of the sum
    ensures s.result.Ok? <==> transport == Body(ExpectedResponseContents)
    ensures s.result.Ok? ==> s.result.value == "0,0"
    ensures s.result.Ok? ==> |s.events| == 2 && s.events[1] == Sleep(postResetDelay + interval)
    // every failure happens before the sleep
    ensures s.result.Err? ==> |s.events| == 1
    ensures transport == ConnectTimeout ==> s.result == Err(EzOutletError(NoResponse(timeout)))
    ensures transport.OtherFailure? ==> s.result == Err(OtherException(transport.description))
    ensures transport.Body? && transport.text != "0,0" ==>
      s.result == Err(EzOutletError(Text(UnexpectedResponseMsg(transport.text))))
  {
    var get := Get(GetUrl(hostname, ResetUrlPath), timeout, true);
    ResetUrlShape(hostname);
    match HttpGetResult(timeout, transport)
    case Err(e) => Step(Err(e), [get])
    case Ok(response) =>
      match CheckResponse(response)
      case Fail(e) => Step(Err(e), [get])
      case Pass => Step(Ok(response), [get, Sleep(postResetDelay + interval)])
  }

  /** The EzOutlet of ez_outlet.py: the host and the timeout are set once, when it
      is built; `Reset` issues its effects on the log it is given. */
  class EzOutlet {
    const hostname: string
    const timeout: real

    constructor (hostname: string, timeout: real)
      ensures this.hostname == hostname && this.timeout == timeout
    {
      this.hostname := hostname;
      this.timeout := timeout;
    }

    /** The `url` property: the reset CGI on the device, with no query or fragment. */
    function Url(): (url: string)
      ensures url == "http://" + hostname + "/reset.cgi"
      ensures '?' !in hostname && '#' !in hostname ==> '?' !in url && '#' !in url
    {
      ResetUrlShape(hostname);
      GetUrl(hostname, ResetUrlPath)
    }

    /** `reset`: GET, check, then wait; on success returns the body. */
    method Reset(postResetDelay: real, interval: real, transport: HttpOutcome, log: EffectLog)
      returns (r: Result<string, Exception>)
      modifies log
      ensures r == ResetSpec(hostname, timeout, postResetDelay, interval, transport).result
      ensures log.events == old(log.events) + ResetSpec(hostname, timeout, postResetDelay, interval, transport).events
    {
      var url := Url();
      var response := HttpGet(url, transport, log);
      if response.Err? {
        r := Err(response.error);
        return;
      }
      var check := CheckResponse(response.value);
      if check.Fail? {
        r := Err(check.error);
        return;
      }
      WaitForReset(postResetDelay + interval, log);
      r := Ok(response.value);
    }

    /** `_http_get`: one GET with this outlet's timeout and proxies disabled for
        http and https. */
    method HttpGet(url: string, transport: HttpOutcome, log: EffectLog) returns (r: Result<string, Exception>)
      modifies log
      ensures r == HttpGetResult(timeout, transport)
      ensures log.events == old(log.events) + [Get(url, timeout, true)]
    {
      log.events := log.events + [Get(url, timeout, true)];
      match transport
      case Body(text) => r := Ok(text);
      case ConnectTimeout => r := Err(EzOutletError(NoResponse(timeout)));
      case OtherFailure(description) => r := Err(OtherException(description));
    }

    /** `_wait_for_reset`: one sleep of the given length. */
    static method WaitForReset(totalDelay: real, log: EffectLog)
      modifies log
      ensures log.events == old(log.events) + [Sleep(totalDelay)]
    {
      log.events := log.events + [Sleep(totalDelay)];
    }
  }
}
