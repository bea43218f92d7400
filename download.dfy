/** Downloads: the `Download` record, its truthiness, the download and
    response event handlers, and how a failed navigation is classified as
    "a download started" (`_get_response_and_download`). */
module Downloads {
  import opened Common

  /** The `Download` dataclass, filled in place by the event handlers. */
  datatype Download = Download(
    body: seq<bv8>,
    url: string,
    suggestedFilename: string,
    exception: Option<Error>,
    responseStatus: int,
    headers: map<string, string>
  )

  /** `Download()` with its field defaults. */
  const Fresh: Download := Download([], "", "", None, 200, map[])

  /** `Download.__bool__`: a download counts when it has a body or an exception. */
  predicate Truthy(d: Download)
  {
    d.body != [] || d.exception.Some?
  }

  /** `_handle_response`: records the status and headers of the response that
      came with the download. */
  function HandleResponse(d: Download, status: int, headers: map<string, string>): (r: Download)
    ensures r.responseStatus == status && r.headers == headers
    ensures r.body == d.body && r.url == d.url && r.suggestedFilename == d.suggestedFilename
    ensures r.exception == d.exception
    ensures Truthy(r) == Truthy(d)
  {
    d.(responseStatus := status, headers := headers)
  }

  /** Python truthiness of what `dwnld.failure()` returned. */
  predicate FailureReported(failure: Option<string>)
  {
    failure.Some? && failure.value != ""
  }

  /** `_handle_download`: `failure` is what `dwnld.failure()` gives, `saved`
      the bytes read from `dwnld.path()` or the error reading them.  Any
      exception, including the RuntimeError raised for a reported failure, is
      stored in the record instead of being raised. */
  function HandleDownload(d: Download, url: string, suggestedFilename: string,
                          failure: Option<string>, saved: Result<seq<bv8>>): (r: Download)
    ensures Truthy(r) <==>
              FailureReported(failure) || saved.Err? || saved.value != [] || d.exception.Some?
    ensures FailureReported(failure) ==>
              && r.exception == Some(OtherError("Failed to download " + url + ": " + failure.value))
              && r.body == d.body && r.url == d.url && r.suggestedFilename == d.suggestedFilename
    ensures !FailureReported(failure) && saved.Err? ==>
              && r.exception == Some(saved.error)
              && r.body == d.body && r.url == d.url && r.suggestedFilename == d.suggestedFilename
    ensures !FailureReported(failure) && saved.Ok? ==>
              && r.body == saved.value && r.url == url && r.suggestedFilename == suggestedFilename
              && r.exception == d.exception
    ensures r.responseStatus == d.responseStatus && r.headers == d.headers
  {
    if FailureReported(failure) then
      d.(exception := Some(OtherError("Failed to download " + url + ": " + failure.value)))
    else
      match saved
      case Err(e) => d.(exception := Some(e))
      case Ok(bytes) => d.(body := bytes, url := url, suggestedFilename := suggestedFilename)
  }

  /** The browser-specific test of the error `page.goto` raised: does it mean
      a download started instead of a navigation? */
  predicate StartsDownload(browserTypeName: string, message: string)
    ensures StartsDownload(browserTypeName, message) ==>
              browserTypeName == "firefox" || browserTypeName == "webkit" || browserTypeName == "chromium"
    ensures browserTypeName == "firefox" || browserTypeName == "webkit" ==>
              (StartsDownload(browserTypeName, message) <==>
                 exists i: nat :: OccursAt(message, "Download is starting", i))
    ensures browserTypeName == "chromium" ==>
              (StartsDownload(browserTypeName, message) <==>
                 exists i: nat :: OccursAt(message, "net::ERR_ABORTED", i))
  {
    || ((browserTypeName == "firefox" || browserTypeName == "webkit")
        && Contains(message, "Download is starting"))
    || (browserTypeName == "chromium" && Contains(message, "net::ERR_ABORTED"))
  }

  /** What `_get_response_and_download` returns. */
  datatype Navigation<+Resp> = Navigation(response: Option<Resp>, download: Option<Download>)

  /** The decision part of `_get_response_and_download`.  `goto` is how
      `page.goto` ended; `d` is the download record once the event handlers
      have run (once `download_ready` is set, on the download path). */
  function ResolveNavigation<Resp>(browserTypeName: string, goto: Result<Option<Resp>>, d: Download)
    : (r: Result<Navigation<Resp>>)
    ensures r.Err? <==>
              goto.Err? && (!goto.error.IsPlaywright()
                            || !StartsDownload(browserTypeName, goto.error.message)
                            || d.responseStatus == 204)
    ensures r.Err? ==> r.error == goto.error
    ensures r.Ok? ==> r.value.download == (if Truthy(d) then Some(d) else None)
    ensures r.Ok? ==> r.value.response == (if goto.Ok? then goto.value else None)
  {
    match goto
    case Ok(response) =>
      Ok(Navigation(response, if Truthy(d) then Some(d) else None))
    case Err(err) =>
      if !err.IsPlaywright() then
        Err(err)
      else if !StartsDownload(browserTypeName, err.message) then
        Err(err)
      else if d.responseStatus == 204 then
        Err(err)
      else
        Ok(Navigation(None, if Truthy(d) then Some(d) else None))
  }

  /** A navigation that succeeds without a download event returns no
      download: the record the response handler fills in stays falsy. */
  lemma PlainNavigationHasNoDownload<Resp>(browserTypeName: string, response: Option<Resp>,
                                           status: int, headers: map<string, string>)
    ensures !Truthy(Fresh)
    ensures var d := HandleResponse(Fresh, status, headers);
            ResolveNavigation(browserTypeName, Ok(response), d) == Ok(Navigation(response, None))
  {
  }
}
