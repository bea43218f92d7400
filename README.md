# scrapy-patchright download handler, modelled in Dafny

This project models the decision logic of `ScrapyPlaywrightDownloadHandler`
in `scrapy_playwright/handler.py`. That class is the Scrapy download handler
that renders requests in a patchright (Playwright) browser. The browser,
pages, routes and requests are abstract inputs. What remains is the
handler's own sequential logic:

- `common.dfy` (`Common`): the values, errors and string helpers shared by
  the other modules. These are Python truthiness, `in` on strings,
  `rstrip("/")`, `upper()` and `reversed`.
- `config.dfy` (`Config`): `Config.from_settings`. It rejects two remote
  endpoints, fills in defaults and fallbacks, and strips reserved keys.
- `retry.dfy` (`Retry`): the `_download_request` loop. It retries only on
  TargetClosedError, up to `target_closed_max_retries` times.
- `download.dfy` (`Downloads`): the `Download` record and its truthiness, the
  download and response event handlers, and the browser-specific test that
  turns a failed `page.goto` into "a download started".
- `page_methods.dfy` (`PageMethods`): `_apply_page_methods`. It walks the
  request's page methods in place over an array of entries. The walk is
  proved equal to a recursive specification, and the specification's
  properties are proved as lemmas.
- `redirects.dfy` (`Redirects`): `_set_redirect_meta`. It walks the
  `redirected_from` chain and writes the redirect metadata into the Scrapy
  request.
- `registry.dfy` (`Registry`): the `context_wrappers` registry as a class.
  It covers insert, pop, clear, the total page count, the stats counters and
  the max-concurrent high-water marks.
- `routing.dfy` (`Routing`): the route handler of `_make_request_handler`.
  It decides whether to abort, decides the overrides passed to
  `route.continue_`, and keeps the one-shot "initial request" flag.

A callable page method is called with the page prepended to its stored
arguments. The code builds `partial(pm.method, page)` and calls it with
`*pm.args, **pm.kwargs` (handler.py:603-604 and 621). See
`PageMethods.Invoke` and `PageMethods.CallResultStored`.

## Model

| member | source | states |
|---|---|---|
| Common.RStripSlash | scrapy_playwright/handler.py:765 | the result is the longest prefix that does not end in "/", and what it drops is all slashes |
| Common.Contains | scrapy_playwright/handler.py:557-559 | `needle in haystack` holds exactly when the needle occurs at some index of the haystack |
| Common.UpperChar | scrapy_playwright/handler.py:770 | the result is never a lower-case ASCII letter; a lower-case letter moves to its upper-case code point, anything else is unchanged |
| Common.Upper | scrapy_playwright/handler.py:770 | same length; no lower-case ASCII letter is left; characters outside 'a'..'z' are unchanged, letters inside it become their upper-case forms |
| Common.UpperEqualIff | scrapy_playwright/handler.py:770 | two methods compare equal after `upper()` exactly when they have the same length and agree at each position up to ASCII letter case |
| Common.Reversed | scrapy_playwright/handler.py:865-866 | same length; element i is element n-1-i of the input |
| Config.FromSettings | scrapy_playwright/handler.py:102-131 | NotSupported, and no config, exactly when both CDP and connect URLs are set; otherwise the config is normalised: browser type defaults to "chromium", a zero max_contexts becomes None, a zero max_pages_per_context falls back to CONCURRENT_REQUESTS, `endpoint_url`/`ws_endpoint` are removed, restart defaults to True, threaded loop on Windows or when asked, 3 retries; CDP/connect URLs, launch options, startup contexts and the navigation timeout are copied unchanged |
| Config.FromSettingsRoundTrip | scrapy_playwright/handler.py:102-131 | every normalised config is rebuilt exactly from its own settings, so normalisation loses nothing |
| Config.FromSettingsIdempotent | scrapy_playwright/handler.py:102-131 | normalising the settings of a built config gives the same config |
| Retry.DownloadRequest | scrapy_playwright/handler.py:370-388 | between 1 and max_retries+1 attempts (at most 4 for a normalised config); every attempt but the last raised TargetClosedError; the outcome is that of the last attempt; it stops early exactly when an attempt returns or raises anything else |
| Downloads.HandleResponse | scrapy_playwright/handler.py:543-546 | status and headers are recorded; body, URL, name and exception are unchanged, and so is truthiness |
| Downloads.HandleDownload | scrapy_playwright/handler.py:529-541 | a truthy (non-empty) failure stores the "Failed to download <url>: <failure>" error; otherwise a read error is stored as is; in both cases body, URL and file name stay as they were; otherwise body, URL and suggested file name are stored and the exception is kept; the record is truthy exactly in those error cases, on a non-empty body or with an earlier exception; status and headers are unchanged |
| Downloads.StartsDownload | scrapy_playwright/handler.py:555-560 | only firefox, webkit and chromium ever match; firefox and webkit match exactly when the message contains "Download is starting", chromium exactly when it contains "net::ERR_ABORTED" |
| Downloads.PlainNavigationHasNoDownload | scrapy_playwright/handler.py:73-83 | a new `Download()` is falsy, and after only the response handler ran a successful navigation returns its response and no download (line 593) |
| Downloads.ResolveNavigation | scrapy_playwright/handler.py:554-593 | the goto error is re-raised exactly when it is not a Playwright error, is not the browser's download message, or the response status is 204; otherwise the result carries the download iff it is truthy, and the goto response |
| PageMethods.NewPageMethod | tests/tests_asyncio/test_page_methods.py:28-32 | a new descriptor keeps its method, args and kwargs, and its result is None |
| PageMethods.Invoke | scrapy_playwright/handler.py:601-621 | a name resolves iff it is an attribute of the page, and the call gets the stored args/kwargs; a callable is called with the page followed by the stored args/kwargs |
| PageMethods.HandleEntry | scrapy_playwright/handler.py:600-634 | one loop iteration: writes into the array exactly the specified entry, logs that step's warning, and reports that step's exception |
| PageMethods.ApplyPageMethods | scrapy_playwright/handler.py:595-634 | the array after the loop, the warnings and the escaping exception equal the recursive specification `ApplyAll` of the original entries |
| PageMethods.Walked | scrapy_playwright/handler.py:597-599 | a missing or falsy value walks nothing, a list walks its items, a dict walks its values in order |
| PageMethods.ApplyRequestPageMethods | scrapy_playwright/handler.py:595-600 | the container keeps its kind: a list stays a list, a dict stays a dict with the same keys, and no page methods gives no warnings and no error; the result matches the specification |
| PageMethods.ApplyAllShape | scrapy_playwright/handler.py:600-634 | the walk keeps every entry in place, changes nothing but `result` slots, and logs at most one warning per entry |
| PageMethods.ApplyAllEntries | scrapy_playwright/handler.py:600-634 | entries before the first raising one are handled; the raising one keeps what was written before the exception; the entries after it are untouched |
| PageMethods.ApplyAllReport | scrapy_playwright/handler.py:600-634 | the escaping exception is that of the first raising entry, and the warnings are exactly those of the entries skipped before it, in order |
| PageMethods.SkippedEntryTransparent | scrapy_playwright/handler.py:605-634 | a skipped entry does not abort the batch: the walk with it treats every other entry exactly as the walk without it and ends with the same exception |
| PageMethods.CallResultStored | scrapy_playwright/handler.py:601-622 | a reached, resolvable descriptor gets the call's return value as its `result`; a callable receives the page and then the stored args/kwargs |
| PageMethods.SkippedEntryUntouched | scrapy_playwright/handler.py:605-634 | a non-PageMethod entry or an unknown name is left as is, logs "expected PageMethod" / "could not find method", and never stops the walk |
| Redirects.Reason | scrapy_playwright/handler.py:859-860 | a reason is None exactly when the hop had no response, and otherwise is that response's status |
| Redirects.CollectRedirects | scrapy_playwright/handler.py:852-862 | `redirect_times` is the chain's length; the URLs and reasons have that length, oldest first |
| Redirects.RedirectMeta | scrapy_playwright/handler.py:863-866 | no redirect leaves the meta untouched; otherwise exactly the three redirect keys are added or replaced, the URL and reason lists hold the hops oldest first, the original request's URL and reason first, and every other key is kept |
| Redirects.SetRedirectMeta | scrapy_playwright/handler.py:850-866 | the request's meta becomes `RedirectMeta` of the old meta |
| Redirects.RedirectUrlsAppend | scrapy_playwright/handler.py:856-866 | one more redirect appends its URL at the end of the oldest-first list |
| Redirects.RedirectReasonsAppend | scrapy_playwright/handler.py:856-866 | one more redirect appends its reason at the end of the oldest-first list |
| Redirects.RedirectEnds | scrapy_playwright/handler.py:865 | the first URL is the original request's, the last is the one the final request came from |
| Registry.ContextKind | scrapy_playwright/handler.py:243-257 | persistent iff `user_data_dir` is truthy; remote iff not persistent and a CDP or connect URL is set; never both |
| Registry.Get | scrapy_playwright/handler.py:336 | `stats.get_value(key)` is None exactly for a key never set, otherwise the stored value |
| Registry.Inc | scrapy_playwright/handler.py:260-262 | `stats.inc_value(key)` adds one to the key, counting from 0 when unset, and changes no other key |
| Registry.Watermark | scrapy_playwright/handler.py:334-343 | the new stat is at least the count and at least the old stat, and is one of them |
| Registry.WatermarkIsMaximum | scrapy_playwright/handler.py:334-343 | after a history of updates the stat is the maximum of the counts reported (or the earlier value), so it never decreases |
| Registry.PageSumWithout | scrapy_playwright/handler.py:331-332 | removing any one context from the sum removes exactly its page count |
| Registry.PageSumBounds | scrapy_playwright/handler.py:331-332 | every context's pages are included in the total, and the total is 0 exactly when no context has a page |
| Registry.Handler.TotalPageCount | scrapy_playwright/handler.py:331-332 | every registered context's page count is at most the total; the total is 0 exactly when no registered context has a page, in particular with no context |
| Registry.PopRegistered | scrapy_playwright/handler.py:669-670 | popping a key keeps the other keys, in order and distinct, and takes that context's pages out of the total |
| Registry.PutRegistered | scrapy_playwright/handler.py:277-281 | storing a wrapper adds a new key last or keeps an existing key in place, and changes the total by the difference in pages |
| Registry.Handler.SetMaxConcurrentPageCount | scrapy_playwright/handler.py:334-338 | the page high-water mark becomes `Watermark` of its old value and the total page count; nothing else changes |
| Registry.Handler.SetMaxConcurrentContextCount | scrapy_playwright/handler.py:340-343 | the context high-water mark becomes `Watermark` of its old value and the number of contexts; nothing else changes |
| Registry.Handler.CountContext | scrapy_playwright/handler.py:260-262 | the context counter and its persistent/True-False and remote/True-False counters each go up by one |
| Registry.Handler.StoreContext | scrapy_playwright/handler.py:277-281 | the registry maps the name to the new wrapper, in insertion order; the total changes by the difference in pages |
| Registry.Handler.RegisterContext | scrapy_playwright/handler.py:243-283 | the context is classified by `ContextKind`; the three counters are incremented with that classification; the wrapper, with the persistent flag and a semaphore of `max_pages_per_context`, is stored in insertion order; the context high-water mark is taken over the new number of contexts; the total changes by the new context's pages |
| Registry.Handler.CloseContext | scrapy_playwright/handler.py:669-670 | `pop(name, None)`: the name is gone, the others keep their order, the total loses its pages, and a missing name changes nothing |
| Registry.Handler.Close | scrapy_playwright/handler.py:353-356 | the registry is empty and the total page count is 0 |
| Registry.Handler.BrowserDisconnected | scrapy_playwright/handler.py:650-657 | the registry is empty, and the browser is dropped exactly when restarting is configured |
| Routing.Decide | scrapy_playwright/handler.py:699-776 | abort exactly when the predicate's result is truthy; initial exactly for an unaborted navigation whose URL equals the Scrapy URL (trailing "/" aside) before the flag is set; the method override only on an upper-case mismatch, and it is the Scrapy method; post_data only for a non-empty body; headers overridden exactly when a processor is configured |
| Routing.RequestHandler.Handle | scrapy_playwright/handler.py:699-776 | the route action is `Decide`'s; the flag is set by the initial request; the Scrapy headers become the final headers only then; the aborted counter goes up by one per abort |
| Routing.OnlyFirstCandidate | scrapy_playwright/handler.py:764-776 | over any sequence of calls, a call is taken as initial iff it is the first unaborted matching navigation |
| Routing.AtMostOneInitial | scrapy_playwright/handler.py:764-769 | no two calls are both taken as initial |

## Left out

- Browser launch, CDP and remote connection, `new_context`, `new_page`, `page.goto`, `route.abort`/`route.continue_` and `wait_for_load_state` are patchright calls. They are inputs (`Routed`, `Page`, `Attempt`, the `goto` result) or outputs (`Action`).
- asyncio and Twisted are not modelled: locks, the context and page semaphores and their release callbacks, `asyncio.Event` waits, `gather` and the threaded loop adapter. Each handler is one sequential call.
- The `_utils` routines (`_maybe_await`, `_get_float_setting`, `_encode_body`, `_get_page_content`) are not part of this model. A value that "may be awaited" is its awaited value, and the navigation timeout is an already coerced `Option<real>`.
- The `PageMethod` class is not part of this model beyond a datatype with a name-or-callable target, args, kwargs and a `result` that starts as None.
- Log messages, `extra` dicts, the deprecation warning and the `inspect.signature` dispatch of the header processor are not modelled. A processor is the headers it returned, whichever way it was called.
- PageMethods.Invoke: each call is a function of the page and the arguments only. A page method's effect on later calls (navigation, DOM changes) is not captured.
- PageMethods.Walked: page methods given as an arbitrary iterable other than a list, tuple or dict (a string, a generator) are not modelled. A truthy value that is not iterable (a bare `PageMethod`, an int) makes `for pm in page_methods` raise TypeError; `PageMethodsMeta` cannot express such a value, so that error is not modelled.
- Routing.Decide: `post_data` is kept as bytes; `body.decode(encoding)` and the case-insensitive normalisation of Scrapy `Headers` are not modelled.
- Routing.RequestHandler.Handle: `route.abort()` is assumed to succeed. In the source, an error it raises leaves the handler before `playwright/request_count/aborted` is incremented, so the counter stays as it was.
- Registry.Handler.Close: every `context.close()` is assumed to succeed or to raise TargetClosedError. In the source, any other error escapes the `suppress`, and `context_wrappers.clear()` does not run.
- Registry.Handler.BrowserDisconnected: the same assumption is made about the context closes. In the source, any other error skips `del self.browser`, so the browser stays even when restarting is configured.
- PageMethods.ApplyPageMethods: entries are values, so aliasing is not captured. In the source, one `PageMethod` object listed twice, or under two dict keys, is a single `result` slot, and every position shows the last result written to it. The model gives each position its own result. For example, if `wait_for_load_state` raises after the first call's result is written, the later position keeps its old result in the model but shows the new one in the source.
- Routing.RequestHandler.Handle: a failure of `route.continue_` is not modelled. In the source, a PlaywrightError that passes `_is_safe_close_error` is logged, and any other error propagates out of the handler after the flag and the Scrapy headers have already changed.
- Common.Upper only upper-cases ASCII letters. HTTP method names are ASCII.
- Redirects.CollectRedirects: the `redirected_from` links arrive as a finite list, newest first, and `redirected.response()` is the hop's status. The model does not follow a possibly cyclic linked structure.
- Downloads.ResolveNavigation receives the download record after the event handlers have run. Blocking on `download_started`/`download_ready` is not modelled, and neither is a download that never starts.
- Registry.Handler.TotalPageCount: a context's page count is fixed when its wrapper is stored. Pages opened by `new_page` or closed later change `len(context.pages)` in the source, but no operation here changes it, so the page high-water mark only moves when the registry changes.
- The `playwright/page_count` and `download_count` counters and the per-request and per-response counters are not modelled. The only request counter modelled is `playwright/request_count/aborted`, as `Routing.RequestHandler.aborted`. Neither are the download latency clock, IP address parsing and response class selection.
- Config.FromSettings takes each setting through the Scrapy getter the source uses, already typed. The getters' own string parsing is not modelled.
