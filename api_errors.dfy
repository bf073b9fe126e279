/** Errors of internal/api/errors.go: the server's `APIError`, its text, and
    the process exit code chosen for an error. */
module ApiErrors {
  import opened Wrappers
  import opened GoStrings

  /** `api.APIError`: HTTP status, optional error code, message. */
  datatype APIError = APIError(status: int, code: string, message: string)

  /** A Go `error` value as far as `ExitCode` can tell it apart: an
      `*APIError` itself, an error wrapping another one (`%w`), or any other
      error. */
  datatype Error =
    | Api(e: APIError)
    | Wrapped(message: string, inner: Error)
    | Other(message: string)

  /** `(*APIError).Error()`: `api error (<status>): <msg>`, with `/<code>`
      after the status when the code is set. */
  function ErrorText(e: APIError): (r: string)
    ensures "api error (" + Itoa(e.status) <= r
    ensures var tail := "): " + e.message; |tail| <= |r| && r[|r| - |tail|..] == tail
    ensures e.code == "" ==> |r| == |"api error ("| + |Itoa(e.status)| + |"): "| + |e.message|
    ensures |"api error (" + Itoa(e.status)| < |r|
    ensures e.code != "" ==> r[|"api error (" + Itoa(e.status)|] == '/'
    ensures var k := |"api error (" + Itoa(e.status)|;
            e.code != "" ==> |r| == k + 1 + |e.code| + |"): "| + |e.message| && r[k + 1..k + 1 + |e.code|] == e.code
  {
    var head := "api error (" + Itoa(e.status);
    var mid := if e.code == "" then "" else "/" + e.code;
    var tail := "): " + e.message;
    assert head + mid + tail == head + (mid + tail);
    head + mid + tail
  }

  /** What the text of an API error gives back: the status, read as a
      decimal from the text between "(" and the end of the status, and
      whether a code is shown, since the character after the status is `/`
      exactly when the code is set (the status prints as digits with an
      optional `-`, never `/`). */
  lemma ErrorTextShowsCode(e: APIError)
    ensures var r := ErrorText(e);
            var k := |"api error (" + Itoa(e.status)|;
            k < |r| && SignedDecimal(r[|"api error ("|..k]) == Some(e.status) && (r[k] == '/' <==> e.code != "")
  {
    var r := ErrorText(e);
    var k := |"api error (" + Itoa(e.status)|;
    assert r[|"api error ("|..k] == Itoa(e.status);
    if e.code == "" {
      assert r == "api error (" + Itoa(e.status) + ("): " + e.message);
      assert r[k] == ')';
    }
  }

  /** `ExitCode(err)`: 0 for no error, 1 for anything but an `*APIError`, and
      for an `*APIError` 10/11/12/13 for 401/403/422/429, 14 for another
      status of at least 500, 1 otherwise. */
  function ExitCode(err: Option<Error>): (r: int)
    ensures r in {0, 1, 10, 11, 12, 13, 14}
    ensures r == 0 <==> err.None?
    ensures err.Some? && !err.value.Api? ==> r == 1
  {
    match err
    case None => 0
    case Some(Api(e)) =>
      if e.status == 401 then 10
      else if e.status == 403 then 11
      else if e.status == 422 then 12
      else if e.status == 429 then 13
      else if e.status >= 500 then 14
      else 1
    case Some(_) => 1
  }

  /** The mapping from statuses: the four listed client errors each have their
      own code, every other server error shares 14, and everything else
      (including an error that merely wraps an `*APIError`) is 1. */
  lemma ExitCodeOfStatus(e: APIError, msg: string)
    ensures ExitCode(Some(Api(e))) == 10 <==> e.status == 401
    ensures ExitCode(Some(Api(e))) == 11 <==> e.status == 403
    ensures ExitCode(Some(Api(e))) == 12 <==> e.status == 422
    ensures ExitCode(Some(Api(e))) == 13 <==> e.status == 429
    ensures ExitCode(Some(Api(e))) == 14 <==> e.status >= 500
    ensures ExitCode(Some(Api(e))) == 1 <==> e.status < 500 && e.status !in {401, 403, 422, 429}
    ensures ExitCode(Some(Wrapped(msg, Api(e)))) == 1
  {
  }
}
