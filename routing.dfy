/** The route handler installed for every Scrapy request
    (`_make_request_handler`): it aborts a Playwright request when asked to,
    and otherwise continues it, overriding the headers, the method and the
    body of the one request that stands for the Scrapy request. */
module Routing {
  import opened Common

  type Headers = map<string, string>

  /** What the handler reads of a Playwright request. */
  datatype PlaywrightRequest = PlaywrightRequest(
    url: string,
    httpMethod: string,
    isNavigation: bool,   // is_navigation_request()
    allHeaders: Headers   // await all_headers()
  )

  /** The Scrapy request's method, URL and body captured by the closure. */
  datatype ScrapyRequest = ScrapyRequest(url: string, httpMethod: string, body: Option<seq<bv8>>)

  /** The keyword arguments passed to `route.continue_`. */
  datatype Overrides = Overrides(headers: Option<Headers>, httpMethod: Option<string>, postData: Option<seq<bv8>>)

  datatype Action = Abort | Continue(overrides: Overrides)

  /** One call of the handler: the Playwright request, the awaited result of
      the abort predicate (None when no predicate is configured) and the
      headers the header processor returned (None when none is configured). */
  datatype Routed = Routed(request: PlaywrightRequest, shouldAbort: Option<Value>, processed: Option<Headers>)

  /** What one call decides: the action, whether the request was taken as the
      initial one, and the headers the Scrapy request must carry if so. */
  datatype Decision = Decision(action: Action, initial: bool, finalHeaders: Headers)

  predicate Aborts(shouldAbort: Option<Value>)
  {
    shouldAbort.Some? && Truthy(shouldAbort.value)
  }

  /** The request is a navigation to the Scrapy URL, trailing slashes aside. */
  predicate SameNavigation(scrapy: ScrapyRequest, pw: PlaywrightRequest)
  {
    RStripSlash(pw.url) == RStripSlash(scrapy.url) && pw.isNavigation
  }

  /** A request that would be the initial one if none had been seen yet. */
  predicate Candidate(scrapy: ScrapyRequest, r: Routed)
  {
    !Aborts(r.shouldAbort) && SameNavigation(scrapy, r.request)
  }

  /** `_request_handler`'s decision, given whether `initial_request_done` was set. */
  function Decide(scrapy: ScrapyRequest, done: bool, r: Routed): (d: Decision)
    ensures d.action.Abort? <==> Aborts(r.shouldAbort)
    ensures d.initial <==> Candidate(scrapy, r) && !done
    ensures d.action.Continue? ==> d.action.overrides.headers == r.processed
    ensures d.action.Continue? ==>
              (d.action.overrides.httpMethod.Some? <==> d.initial && Upper(scrapy.httpMethod) != Upper(r.request.httpMethod))
    ensures d.action.Continue? && d.action.overrides.httpMethod.Some? ==> d.action.overrides.httpMethod.value == scrapy.httpMethod
    ensures d.action.Continue? ==>
              (d.action.overrides.postData.Some? <==> d.initial && scrapy.body.Some? && scrapy.body.value != [])
    ensures d.action.Continue? && d.action.overrides.postData.Some? ==>
              d.action.overrides.postData == scrapy.body
    ensures d.finalHeaders == if r.processed.Some? then r.processed.value else r.request.allHeaders
  {
    var finalHeaders := if r.processed.Some? then r.processed.value else r.request.allHeaders;
    if Aborts(r.shouldAbort) then
      Decision(Abort, false, finalHeaders)
    else
      var initial := SameNavigation(scrapy, r.request) && !done;
      var httpMethod := if initial && Upper(scrapy.httpMethod) != Upper(r.request.httpMethod) then Some(scrapy.httpMethod) else None;
      var postData := if initial && scrapy.body.Some? && scrapy.body.value != [] then scrapy.body else None;
      Decision(Continue(Overrides(r.processed, httpMethod, postData)), initial, finalHeaders)
  }

  /** The closure's state: the `initial_request_done` event, the Scrapy
      request's headers (replaced in place on the initial request) and the
      `playwright/request_count/aborted` counter. */
  class RequestHandler {
    const scrapy: ScrapyRequest
    var initialDone: bool
    var headers: Headers
    var aborted: nat

    constructor (scrapy: ScrapyRequest, headers: Headers)
      ensures this.scrapy == scrapy && this.headers == headers
      ensures !initialDone && aborted == 0
    {
      this.scrapy := scrapy;
      this.headers := headers;
      initialDone := false;
      aborted := 0;
    }

    /** `_request_handler`; `action` is the `route` call it makes. */
    method Handle(r: Routed) returns (action: Action)
      modifies this
      ensures var d := Decide(scrapy, old(initialDone), r);
              && action == d.action
              && initialDone == (old(initialDone) || d.initial)
              && headers == (if d.initial then d.finalHeaders else old(headers))
              && aborted == old(aborted) + (if action.Abort? then 1 else 0)
    {
      if r.shouldAbort.Some? && Truthy(r.shouldAbort.value) {
        aborted := aborted + 1;
        return Abort;
      }
      var headerOverride: Option<Headers> := None;
      var finalHeaders := r.request.allHeaders;
      if r.processed.Some? {
        headerOverride := r.processed;
        finalHeaders := r.processed.value;
      }
      var httpMethod: Option<string> := None;
      var postData: Option<seq<bv8>> := None;
      if RStripSlash(r.request.url) == RStripSlash(scrapy.url) && r.request.isNavigation && !initialDone {
        initialDone := true;
        if Upper(scrapy.httpMethod) != Upper(r.request.httpMethod) {
          httpMethod := Some(scrapy.httpMethod);
        }
        if scrapy.body.Some? && scrapy.body.value != [] {
          postData := scrapy.body;
        }
        headers := finalHeaders;
      }
      action := Continue(Overrides(headerOverride, httpMethod, postData));
    }
  }

  /** Which of a sequence of handler calls were taken as the initial request. */
  function InitialFlags(scrapy: ScrapyRequest, done: bool, calls: seq<Routed>): (flags: seq<bool>)
    ensures |flags| == |calls|
    decreases |calls|
  {
    if calls == [] then []
    else
      var d := Decide(scrapy, done, calls[0]);
      [d.initial] + InitialFlags(scrapy, done || d.initial, calls[1..])
  }

  /** Over the handler's lifetime exactly the first candidate request is
      taken as the initial one; every later call leaves the Scrapy request
      alone. */
  lemma {:induction false} OnlyFirstCandidate(scrapy: ScrapyRequest, done: bool, calls: seq<Routed>)
    ensures forall i :: 0 <= i < |calls| ==>
              (InitialFlags(scrapy, done, calls)[i] <==>
                 !done && Candidate(scrapy, calls[i]) && forall j :: 0 <= j < i ==> !Candidate(scrapy, calls[j]))
    decreases |calls|
  {
    if calls != [] {
      var d := Decide(scrapy, done, calls[0]);
      var flags := InitialFlags(scrapy, done, calls);
      OnlyFirstCandidate(scrapy, done || d.initial, calls[1..]);
      forall i | 0 < i < |calls|
        ensures flags[i] <==> !done && Candidate(scrapy, calls[i]) && forall j :: 0 <= j < i ==> !Candidate(scrapy, calls[j])
      {
        assert flags[i] == InitialFlags(scrapy, done || d.initial, calls[1..])[i - 1];
        assert calls[i] == calls[1..][i - 1];
        if !done && !d.initial {
          forall j | 0 < j < i ensures calls[j] == calls[1..][j - 1] {}
        }
      }
    }
  }

  /** At most one call is taken as the initial request. */
  lemma AtMostOneInitial(scrapy: ScrapyRequest, done: bool, calls: seq<Routed>, i: nat, k: nat)
    requires i < k < |calls|
    ensures !(InitialFlags(scrapy, done, calls)[i] && InitialFlags(scrapy, done, calls)[k])
  {
    OnlyFirstCandidate(scrapy, done, calls);
  }
}
