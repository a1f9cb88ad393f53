# nodriver_api downloader, modelled in Dafny

The service fetches the rendered HTML of a URL by driving a browser through
`nodriver`. Its core is `dl_with_nodriver` in `app/downloader.py`. It starts a
browser and opens the URL. It applies the request's cookie policy (load a
cookie file, push caller cookies, reload). It then waits, either for a CSS
selector under a retry policy or for a fixed time. It reads the page content,
and it can save and return cookies. On every path it closes the page if one
was opened and stops the browser if one was started.

The model has five modules:

- `Models` (`models.dfy`): the pydantic records of `app/models.py` as
  datatypes. Each field keeps its declared default, written as a
  constructor default (`OnError()` is the default policy).
- `Browser` (`browser.dfy`): the browser seen from outside. Every call the
  downloader makes is a `Call` in a trace. A `Provider` value fixes in advance
  what each call answers or which exception it raises, so that one download is
  a function of its request and its provider. `Page.waitFor(i)` and
  `Page.select(i)` answer `wait_for` and `select` on attempt `i`.
- `Cookies` (`cookies.dfy`): `_cookie_to_param`, `_add_cookies`,
  `_set_cookies` and `get_cookie_filepath`.
- `SelectorWait` (`selector_wait.dfy`): `_wait_css_selector`. `Run` and
  `Attempts` specify it, `WaitCssSelector` is its loop, proved equal to `Run`,
  and lemmas state the properties of the retry policy.
- `Downloader` (`downloader.dfy`): `dl_with_nodriver`. `Download` specifies it
  by phases (cookie policy, wait, content, cleanup). `DlWithNodriver` is the
  imperative version, with `browser` and `page` as the locals its `try` sets,
  proved equal to `Download`. Lemmas state the promises of the control flow.

Some facts about the code that the model keeps:

- The default `max_retries` is 0, which gives one attempt.
- `_set_cookies` falls back to the root connection when no tab is open, so
  only the send itself can raise.
- `page.select` can raise inside the `except` block of the wait. When it does,
  that exception leaves the wait, not the selector's error.

## Model

| member | source | states |
|---|---|---|
| Models.DefaultResponseIsEmpty | app/models.py:39-42 | a default response has empty content, no cookies and an `ErrorDetail` with empty message and type |
| SelectorWait.MaxRetry | app/downloader.py:52-59 | the attempt budget is exactly `max_retries` when a policy is given and its `max_retries` is positive, and exactly one otherwise (no policy, or zero or negative `max_retries`) |
| SelectorWait.WaitCssSelector | app/downloader.py:49-113 | the loop returns exactly the outcome and makes exactly the calls of the specification `Run` |
| SelectorWait.AttemptsDecided | app/downloader.py:60-108 | from any attempt on, between one and the remaining budget of `wait_for` calls are made; every attempt before the last failed; the last call decides the outcome (a successful or raising `wait_for`, or a `select` that found a truthy element, nothing, or raised); a falsy element never ends the wait, so the loop never runs out |
| SelectorWait.RunOutcome | app/downloader.py:49-113 | the whole wait calls `wait_for` at least once and at most `max_retry` times; it returns normally if and only if the last selector appeared or the last escape-hatch tag was truthy; a raised error is exactly the one the escape-hatch `select` raised if it did, and the last attempt's selector error otherwise |
| SelectorWait.FirstFailureRaisesWithoutRetry | app/downloader.py:52-113 | with no `on_error`, `"raise"` or an unrecognised action, exactly one `wait_for` is made and its failure is re-raised |
| SelectorWait.FinalFailureRaises | app/downloader.py:71-75 | a failure on the last attempt re-raises that error with no `select`, whatever the action type, because the last-attempt test comes first |
| SelectorWait.RetryWithoutHatch | app/downloader.py:81-108 | under `"retry"` with no usable escape hatch, attempts follow each other with no pause and no `select`; the wait stops at the first success, or after exactly `max_retry` attempts re-raising the last error |
| SelectorWait.EscapeHatch | app/downloader.py:87-104 | on a failed attempt that is not the last: no element re-raises the selector error, a truthy element returns with no further `wait_for`, a falsy one goes on to the next attempt |
| SelectorWait.DefaultPolicySingleAttempt | app/models.py:18-29 | a `WaitCSSSelector` with only a selector has budget one, no pre-wait pause and a ten-second `wait_for`, made once |
| SelectorWait.RunCallsOnly | app/downloader.py:49-113 | the wait makes no calls other than the pre-wait sleep, `wait_for` and `select` |
| Cookies.Present | app/downloader.py:20 | the kept cookies are at most as many as the entries, each comes from a truthy entry, and every truthy entry is kept |
| Cookies.CookieToParam | app/downloader.py:15-20 | an absent or empty list gives `[]`; otherwise the truthy entries are kept |
| Cookies.PresentAppend | app/downloader.py:20 | dropping falsy entries keeps order: it distributes over concatenation |
| Cookies.PresentKeepsTruthy | app/downloader.py:20 | when no entry is falsy, every cookie is kept at its own position |
| Cookies.AddCookies | app/downloader.py:23-32 | the result is the base followed by the additions, in order, of length the sum, with no deduplication; no additions give the base back |
| Cookies.FirstOpenFrom | app/downloader.py:38-45 | the chosen connection is the first tab not closed, and the root connection exactly when every tab is closed or there are none |
| Cookies.SetCookies | app/downloader.py:35-46 | one `set_cookies` carrying the given cookies, sent on the first open tab if there is one and on the root connection if not |
| Cookies.CookieFilepath | app/downloader.py:121-125 | every path is the cookie directory joined with a name; a truthy filename is used as given; otherwise the name is the URL's netloc plus `_cookies.dat`, and a URL parse error is passed on |
| Cookies.DerivedFileNamesDistinct | app/downloader.py:121-125 | without a filename, two URLs share a cookie file if and only if their netlocs are equal |
| Downloader.CookiesToJson | app/downloader.py:177-179 | every cookie is converted, in order, when no entry is falsy; a falsy entry raises `AttributeError` |
| Downloader.DlWithNodriver | app/downloader.py:128-196 | the method returns exactly the outcome and makes exactly the calls of the specification `Download` |
| Downloader.TryBody | app/downloader.py:132-185 | the `try` block ends with the outcome, calls and acquired resources of `TryBlock` |
| Downloader.ApplyCookiePolicy | app/downloader.py:137-155 | the cookie part makes the calls of `CookieStage` and ends the download only where that stage does |
| Downloader.LoadCookieFile | app/downloader.py:138-145 | the load is the single `cookies.load` on the resolved path, or no call when the path cannot be resolved |
| Downloader.MergeAndPush | app/downloader.py:147-152 | `get_all`, then the one `set_cookies` of the merged cookies; a failing `get_all` or send ends the download with its error |
| Downloader.WaitForPage | app/downloader.py:157-164 | the wait part makes the calls of `WaitStage` and ends the download only on a selector failure |
| Downloader.ReadContent | app/downloader.py:166-181 | the content part makes the calls of `ContentStage` and always decides the outcome |
| Downloader.WithOpenPage | app/downloader.py:137-181 | the `try` block after navigation makes the calls and gives the outcome of `OnPage` |
| Downloader.StartFailure | app/downloader.py:183-196 | if `uc.start()` raises, that error is returned and nothing else is called, not even cleanup |
| Downloader.NavigationFailure | app/downloader.py:183-196 | if `browser.get` raises, its error is returned, no page is closed and the browser is stopped |
| Downloader.CleanupAlwaysRuns | app/downloader.py:186-196 | on every path the page is closed if and only if it was opened, and the browser stopped if and only if it was started; each happens at most once, page first, and they are the last calls |
| Downloader.CleanupErrorsIgnored | app/downloader.py:186-196 | errors from `page.close()` and `browser.stop()` change neither the outcome nor the calls made; a failing close does not skip the stop |
| Downloader.ReloadExactlyWhen | app/downloader.py:137-155 | once the page is open, `reload` is called if and only if there is a cookie policy with `load` set or non-empty `cookie_dict_list`, and, when cookies are pushed, neither `get_all` nor the send raised |
| Downloader.SelectorTakesPrecedence | app/downloader.py:157-164 | with a selector wait, `page_wait_time` makes no difference to the outcome or the calls |
| Downloader.SelectorFailureEndsDownload | app/downloader.py:157-166 | a raising selector wait ends the download with `(False, e, [])`, and `get_content` is never called |
| Downloader.CookiesOnlyWhenAsked | app/downloader.py:167-181 | a successful download returns `[]` unless `return_cookies` is set, and then exactly the browser's cookies in order |
| Downloader.CookieFileErrorsIgnored | app/downloader.py:138-175 | the cookie path, and whether it can be resolved at all, never changes the outcome |
| Downloader.FetchWithoutPolicies | app/downloader.py:157-181 | once the browser starts and the URL opens, with no cookie policy and no selector wait, the calls are start, get, a pause for a non-zero `page_wait_time`, `get_content`, close and stop, and the result is the content with no cookies, or the content error |
| Downloader.DefaultRequestFetches | app/models.py:32-36 | once the browser starts and the URL opens, a request with only a URL makes no wait, and returns the page content with no cookies or the error of `get_content` |
| Downloader.DefaultCookiePolicyDoesNothing | app/models.py:10-15 | a `Cookie()` with every default downloads exactly as no cookie policy: no load, no push, no reload, no save, no cookies returned |
| Downloader.MergeFailureEndsDownload | app/downloader.py:147-148 | a raising `get_all` before the push returns `(False, e, [])`, and the trace ends with that `get_all`, the page close and the browser stop |
| Downloader.SendFailureEndsDownload | app/downloader.py:149-152 | a raising `set_cookies` send returns its error, and the trace ends with the send, the page close and the browser stop |
| Downloader.ReloadFailureEndsDownload | app/downloader.py:154-155 | when the reload is reached and raises, its error is returned and the trace ends with the reload, the page close and the browser stop |
| Downloader.ContentFailureEndsDownload | app/downloader.py:166 | after the cookie part and the wait, a raising `get_content` returns its error, and the trace ends with it, the page close and the browser stop |
| Downloader.ReturnCookiesFailureEndsDownload | app/downloader.py:177-179 | after the content is read, a raising `get_all` or a falsy cookie whose `to_json` raises returns that error, and the trace ends with the `get_all`, the page close and the browser stop |
| Downloader.CookiesPushedOnce | app/downloader.py:147-152 | once the page is open and the first `get_all` answers, caller cookies lead to exactly one `set_cookies` in the whole download, on the connection `_set_cookies` chooses, carrying the browser's truthy cookies followed by the caller's |

## Left out

- `app/main.py`, the HTTP endpoint, is not part of this model. At line 9 it
  unpacks two values, but `dl_with_nodriver` returns three (lines 162, 181
  and 185 of `app/downloader.py`). As written, the endpoint fails at that line
  for every request.
- `get_domain_from_url`: `urlparse` is not modelled. Its netloc, or the
  `ValueError` it can raise, is the provider's `urlNetloc` function.
- The nodriver internals (`uc.start`, `browser.get`, `wait_for`, `select`,
  `get_content`, `cookies.load/save/get_all`, `connection.send`) are oracle
  answers in `Provider`. These answers do not depend on earlier calls: a
  loaded cookie file does not feed the later `get_all`. The provider ranges
  over every possible answer instead.
- `CookieParam.from_json` and `Cookie.to_json` are the identity on
  `CookieDict`. A cookie's fields are kept as strings and never interpreted,
  so saving and then loading a cookie file cannot be stated. The model only
  shows that the load and the save resolve their path with the same
  `CookieFilepath`.
- Downloader.CookiesPushedOnce: assumes that every caller dict is a
  well-formed cookie. `CookieParam.from_json` failing on a malformed dict is
  not modelled. In Python that failure would end the download with `Failure`
  before any `set_cookies`.
- Downloader.ReloadExactlyWhen: assumes well-formed caller dicts for the
  same reason. A failing `from_json` would skip the reload.
- Downloader.CookieFileErrorsIgnored: varies only the path resolution, since
  `cookies.load` and `cookies.save` have no answer in `Provider`. Whatever
  they raise is caught and only logged (app/downloader.py lines 144-145 and
  174-175), so neither the outcome nor the calls depend on it.
- `pathlib` joining is not modelled. A path is a directory and a name. An
  absolute `filename` would escape the cookie directory in Python, and the
  model makes no claim about containment on disk.
- `Cookies.AddCookies`: with no additions, Python returns the very same list
  object. A Dafny sequence is a value, so that aliasing cannot be stated.
  Non-mutation of the base list holds trivially.
- `asyncio.sleep` and real timeouts: sleeps are `Sleep` calls and times are
  `real`s, only compared with zero or passed on. Float NaN is not modelled.
- Logging, pydantic validation and coercion, and the `async`/`await`
  suspension are not modelled; everything runs in sequence.
- Only `Exception`s are modelled. A `BaseException` such as a cancellation,
  which `except Exception` does not catch, is not.
- A started browser and an opened page are taken to be truthy objects, for
  `if page:` and `if browser:` in the cleanup.
