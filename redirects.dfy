/** `_set_redirect_meta`: the walk along the `redirected_from` links of the
    final Playwright request, and the redirect metadata it writes into the
    Scrapy request. */
module Redirects {
  import opened Common

  /** One request of the redirect chain: its URL and the status of its
      response (`redirected.response()`), None when it had no response. */
  datatype Hop = Hop(url: string, status: Option<int>)

  /** The Scrapy request whose `meta` dictionary is updated in place. */
  class Request {
    var meta: map<string, Value>

    constructor (meta: map<string, Value>)
      ensures this.meta == meta
    {
      this.meta := meta;
    }
  }

  const RedirectKeys: set<string> := {"redirect_times", "redirect_urls", "redirect_reasons"}

  /** The reason recorded for a hop: its status, or None without a response. */
  function Reason(h: Hop): (r: Value)
    ensures r == VNone <==> h.status.None?
    ensures h.status.Some? ==> r == VInt(h.status.value)
  {
    match h.status
    case None => VNone
    case Some(status) => VInt(status)
  }

  /** The URLs of `hops`, in the order they are listed. */
  function Urls(hops: seq<Hop>): (r: seq<Value>)
    ensures |r| == |hops|
    ensures forall k :: 0 <= k < |hops| ==> r[k] == VStr(hops[k].url)
  {
    if hops == [] then [] else Urls(hops[..|hops| - 1]) + [VStr(hops[|hops| - 1].url)]
  }

  /** The reasons of `hops`, in the order they are listed. */
  function Reasons(hops: seq<Hop>): (r: seq<Value>)
    ensures |r| == |hops|
    ensures forall k :: 0 <= k < |hops| ==> r[k] == Reason(hops[k])
  {
    if hops == [] then [] else Reasons(hops[..|hops| - 1]) + [Reason(hops[|hops| - 1])]
  }

  /** The walk.  `chain` lists the hops as the `redirected_from` links reach
      them: `chain[0]` is the request the final one was redirected from, the
      last hop is the original request.  The lists come out oldest first. */
  method CollectRedirects(chain: seq<Hop>) returns (times: nat, urls: seq<Value>, reasons: seq<Value>)
    ensures times == |chain| && |urls| == times && |reasons| == times
    ensures forall k :: 0 <= k < times ==> urls[k] == VStr(chain[times - 1 - k].url)
    ensures forall k :: 0 <= k < times ==> (reasons[k] == VNone <==> chain[times - 1 - k].status.None?)
    ensures urls == Reversed(Urls(chain)) && reasons == Reversed(Reasons(chain))
  {
    times := 0;
    var newestUrls: seq<Value> := [];
    var newestReasons: seq<Value> := [];
    while times < |chain|
      invariant times <= |chain|
      invariant newestUrls == Urls(chain[..times])
      invariant newestReasons == Reasons(chain[..times])
    {
      var redirected := chain[times];
      newestUrls := newestUrls + [VStr(redirected.url)];
      newestReasons := newestReasons + [Reason(redirected)];
      assert chain[..times + 1][..times] == chain[..times];
      times := times + 1;
    }
    assert chain[..times] == chain;
    urls := Reversed(newestUrls);
    reasons := Reversed(newestReasons);
  }

  /** The meta dictionary after the walk over `chain`. */
  function RedirectMeta(meta: map<string, Value>, chain: seq<Hop>): (r: map<string, Value>)
    ensures chain == [] ==> r == meta
    ensures forall k :: k in meta && k !in RedirectKeys ==> k in r && r[k] == meta[k]
    ensures chain != [] ==> r.Keys == meta.Keys + RedirectKeys
    ensures chain != [] ==> r["redirect_times"] == VInt(|chain|)
    ensures chain != [] ==> r["redirect_urls"].VList? && |r["redirect_urls"].items| == |chain|
    ensures chain != [] ==> r["redirect_reasons"].VList? && |r["redirect_reasons"].items| == |chain|
    ensures chain != [] ==>
              forall k :: 0 <= k < |chain| ==>
                && r["redirect_urls"].items[k] == VStr(chain[|chain| - 1 - k].url)
                && r["redirect_reasons"].items[k] == Reason(chain[|chain| - 1 - k])
  {
    if chain == [] then meta
    else meta["redirect_times" := VInt(|chain|)]
             ["redirect_urls" := VList(Reversed(Urls(chain)))]
             ["redirect_reasons" := VList(Reversed(Reasons(chain)))]
  }

  /** `_set_redirect_meta`, on the chain of the response's request. */
  method SetRedirectMeta(request: Request, chain: seq<Hop>)
    modifies request
    ensures request.meta == RedirectMeta(old(request.meta), chain)
  {
    var times, urls, reasons := CollectRedirects(chain);
    if times != 0 {
      request.meta := request.meta["redirect_times" := VInt(times)];
      request.meta := request.meta["redirect_urls" := VList(urls)];
      request.meta := request.meta["redirect_reasons" := VList(reasons)];
    }
  }

  /** One more redirect in front of a chain appends its URL at the end of
      the oldest-first list: the metadata of a longer chain extends that of
      the shorter one. */
  lemma RedirectUrlsAppend(newest: Hop, chain: seq<Hop>)
    ensures Reversed(Urls([newest] + chain)) == Reversed(Urls(chain)) + [VStr(newest.url)]
  {
  }

  /** The same for the reasons. */
  lemma RedirectReasonsAppend(newest: Hop, chain: seq<Hop>)
    ensures Reversed(Reasons([newest] + chain)) == Reversed(Reasons(chain)) + [Reason(newest)]
  {
  }

  /** The first URL in the metadata is the original request's, the last is
      the one the final request was redirected from. */
  lemma RedirectEnds(meta: map<string, Value>, chain: seq<Hop>)
    requires chain != []
    ensures RedirectMeta(meta, chain)["redirect_urls"].items[0] == VStr(chain[|chain| - 1].url)
    ensures RedirectMeta(meta, chain)["redirect_urls"].items[|chain| - 1] == VStr(chain[0].url)
  {
  }
}
