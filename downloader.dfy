/** The download orchestration (`dl_with_nodriver`): start a browser, open
    the URL, apply the cookie policy, wait, read the page, optionally save and
    return cookies, and close the page if one was opened and stop the browser
    if one was started. Every browser call is answered by a `Provider`; the result is the outcome the
    coroutine returns together with the calls it made, in order. */
module Downloader {
  import opened Models
  import opened Browser
  import opened Cookies
  import opened SelectorWait

  /** What `dl_with_nodriver` returns: `(True, html, cookies)` or `(False, e, [])`. */
  datatype Outcome = Success(html: string, cookies: seq<CookieDict>) | Failure(error: Error)

  /** The exception `c.to_json()` raises on a falsy (`None`) list entry. */
  const NoneToJson: Error := Error("AttributeError", "'NoneType' object has no attribute 'to_json'")

  /** `[c.to_json() for c in uc_cookies]`: every entry in order, or the
      error of the first falsy entry. */
  function CookiesToJson(entries: seq<Option<CookieDict>>): (r: Result<seq<CookieDict>>)
    ensures r.Ok? <==> forall i :: 0 <= i < |entries| ==> entries[i].Some?
    ensures r.Ok? ==> |r.value| == |entries| && forall i :: 0 <= i < |entries| ==> r.value[i] == entries[i].value
    ensures r.Err? ==> r.error == NoneToJson
  {
    if entries == [] then Ok([])
    else if entries[0].None? then Err(NoneToJson)
    else
      match CookiesToJson(entries[1..])
      case Ok(rest) => Ok([entries[0].value] + rest)
      case Err(e) => Err(e)
  }

  /** A part of the `try` block: the calls it makes, and the outcome when it
      ends the download there (an exception caught by the outer handler, the
      failed selector wait, or the final `return`). */
  datatype Stage = Stage(calls: seq<Call>, exit: Option<Outcome>)

  /** One call that raises `failure` when that is `Some`. */
  function Raising(calls: seq<Call>, failure: Option<Error>): Stage
  {
    Stage(calls, if failure.Some? then Some(Failure(failure.value)) else None)
  }

  /** Running stage `a` and, unless it ended the download, stage `b` after it. */
  function Then(a: Stage, b: Stage): (r: Stage)
    ensures b.exit.Some? ==> r.exit.Some?
  {
    if a.exit.Some? then a else Stage(a.calls + b.calls, b.exit)
  }

  /** Loading or saving the cookie file: if the path cannot be resolved the
      call is never made, and any error is logged and dropped. */
  function CookieFileCall(c: Cookie, url: string, p: Provider, save: bool): seq<Call>
  {
    match CookieFilepath(c.filename, url, p.urlNetloc)
    case Ok(path) => [if save then SaveCookies(path) else LoadCookies(path)]
    case Err(_) => []
  }

  /** Merging `cookie_dict_list` into the browser's cookies and pushing them. */
  function PushCookies(c: Cookie, p: Provider): Stage
    requires HasEntries(c.cookieDictList)
  {
    match p.cookiesToMerge
    case Err(e) => Stage([GetAllCookies], Some(Failure(e)))
    case Ok(current) =>
      var merged := CookieToParam(Some(current)) + c.cookieDictList.value;
      Raising([GetAllCookies, SetCookiesSent(ConnectionFor(p.tabsClosed), merged)], p.send)
  }

  /** The cookie policy before the wait: load, push, then reload if either applied. */
  function CookieStage(req: DownloadRequest, p: Provider): Stage
  {
    if req.cookie.None? then Stage([], None)
    else
      var c := req.cookie.value;
      var load := Stage(if IsSet(c.load) then CookieFileCall(c, req.url, p, false) else [], None);
      var push := if HasEntries(c.cookieDictList) then PushCookies(c, p) else Stage([], None);
      var reload := if IsSet(c.load) || HasEntries(c.cookieDictList) then Raising([Reload], p.reload) else Stage([], None);
      Then(load, Then(push, reload))
  }

  /** The wait: the selector wait when one is given (its failure ends the
      download), otherwise a fixed pause when `page_wait_time` is non-zero. */
  function WaitStage(req: DownloadRequest, p: Provider): Stage
  {
    if req.waitCssSelector.Some? then
      var r := Run(p.page, req.waitCssSelector.value);
      Stage(r.1, if r.0.Raised? then Some(Failure(r.0.error)) else None)
    else if req.pageWaitTime.Some? && req.pageWaitTime.value != 0.0 then Stage([Sleep(req.pageWaitTime.value)], None)
    else Stage([], None)
  }

  /** Reading the content, saving cookies if asked, and collecting them if asked. */
  function ContentStage(req: DownloadRequest, p: Provider): (r: Stage)
    ensures r.exit.Some?
  {
    match p.content
    case Err(e) => Stage([GetContent], Some(Failure(e)))
    case Ok(html) =>
      var saved := if req.cookie.Some? && IsSet(req.cookie.value.save)
                   then CookieFileCall(req.cookie.value, req.url, p, true) else [];
      var calls := [GetContent] + saved;
      if req.cookie.Some? && IsSet(req.cookie.value.returnCookies) then
        match p.cookiesToReturn
        case Err(e) => Stage(calls + [GetAllCookies], Some(Failure(e)))
        case Ok(all) =>
          match CookiesToJson(all)
          case Err(e) => Stage(calls + [GetAllCookies], Some(Failure(e)))
          case Ok(cookies) => Stage(calls + [GetAllCookies], Some(Success(html, cookies)))
      else Stage(calls, Some(Success(html, [])))
  }

  /** How the `try` block ends: the outcome, the calls made, and whether a
      browser and a page were obtained. */
  datatype Body = Body(outcome: Outcome, calls: seq<Call>, browserStarted: bool, pageOpened: bool)

  /** Everything the `try` block does once the page is open. */
  function OnPage(req: DownloadRequest, p: Provider): (r: Stage)
    ensures r.exit.Some?
  {
    Then(CookieStage(req, p), Then(WaitStage(req, p), ContentStage(req, p)))
  }

  function TryBlock(req: DownloadRequest, p: Provider): Body
  {
    if p.start.Some? then Body(Failure(p.start.value), [Start], false, false)
    else if p.get.Some? then Body(Failure(p.get.value), [Start, Get(req.url)], true, false)
    else Body(OnPage(req, p).exit.value, [Start, Get(req.url)] + OnPage(req, p).calls, true, true)
  }

  /** The `finally` block: close the page if one was obtained, then stop the
      browser if one was started. */
  function Cleanup(b: Body): seq<Call>
  {
    (if b.pageOpened then [ClosePage] else []) + (if b.browserStarted then [StopBrowser] else [])
  }

  /** The whole download: its outcome and every call it makes. */
  function Download(req: DownloadRequest, p: Provider): (Outcome, seq<Call>)
  {
    var b := TryBlock(req, p);
    (b.outcome, b.calls + Cleanup(b))
  }

  /** Loading the cookie file when `load` is set (app/downloader.py:138-145); a failing load is logged and dropped. */
  method LoadCookieFile(c: Cookie, url: string, p: Provider) returns (trace: seq<Call>)
    ensures trace == CookieFileCall(c, url, p, false)
  {
    trace := [];
    var cookieFpath := CookieFilepath(c.filename, url, p.urlNetloc);
    if cookieFpath.Ok? {
      trace := [LoadCookies(cookieFpath.value)];
    }
  }

  /** Merging and pushing `cookie_dict_list` (app/downloader.py:147-152). */
  method MergeAndPush(c: Cookie, p: Provider) returns (trace: seq<Call>, exit: Option<Outcome>)
    requires HasEntries(c.cookieDictList)
    ensures Stage(trace, exit) == PushCookies(c, p)
  {
    trace, exit := [GetAllCookies], None;
    if p.cookiesToMerge.Err? {
      return trace, Some(Failure(p.cookiesToMerge.error));
    }
    var brCookies := CookieToParam(Some(p.cookiesToMerge.value));
    var includedCookies := AddCookies(c.cookieDictList.value, brCookies);
    var sent := SetCookies(p.tabsClosed, includedCookies);
    trace := trace + [sent];
    if p.send.Some? {
      exit := Some(Failure(p.send.value));
    }
  }

  /** The cookie part of the `try` block (app/downloader.py:137-155). */
  method ApplyCookiePolicy(req: DownloadRequest, p: Provider) returns (trace: seq<Call>, exit: Option<Outcome>)
    ensures Stage(trace, exit) == CookieStage(req, p)
  {
    trace, exit := [], None;
    if req.cookie.Some? {
      var cookie := req.cookie.value;
      if IsSet(cookie.load) {
        trace := LoadCookieFile(cookie, req.url, p);
      }
      if HasEntries(cookie.cookieDictList) {
        var pushed;
        pushed, exit := MergeAndPush(cookie, p);
        trace := trace + pushed;
        if exit.Some? {
          return;
        }
      }
      if IsSet(cookie.load) || HasEntries(cookie.cookieDictList) {
        trace := trace + [Reload];
        if p.reload.Some? {
          exit := Some(Failure(p.reload.value));
        }
      }
    }
  }

  /** The wait part of the `try` block (app/downloader.py:157-164). */
  method WaitForPage(req: DownloadRequest, p: Provider) returns (trace: seq<Call>, exit: Option<Outcome>)
    ensures Stage(trace, exit) == WaitStage(req, p)
  {
    trace, exit := [], None;
    if req.waitCssSelector.Some? {
      var waited, calls := WaitCssSelector(p.page, req.waitCssSelector.value);
      trace := calls;
      if waited.Raised? {
        return trace, Some(Failure(waited.error));
      }
    } else if req.pageWaitTime.Some? && req.pageWaitTime.value != 0.0 {
      trace := [Sleep(req.pageWaitTime.value)];
    }
  }

  /** The end of the `try` block (app/downloader.py:166-181), which always
      ends the download. */
  method ReadContent(req: DownloadRequest, p: Provider) returns (trace: seq<Call>, outcome: Outcome)
    ensures Stage(trace, Some(outcome)) == ContentStage(req, p)
  {
    trace := [GetContent];
    if p.content.Err? {
      return trace, Failure(p.content.error);
    }
    var htmlContent := p.content.value;
    var cookies: seq<CookieDict> := [];
    if req.cookie.Some? && IsSet(req.cookie.value.save) {
      var cookieFpath := CookieFilepath(req.cookie.value.filename, req.url, p.urlNetloc);
      if cookieFpath.Ok? {
        // a failing save is logged and dropped
        trace := trace + [SaveCookies(cookieFpath.value)];
      }
    }
    if req.cookie.Some? && IsSet(req.cookie.value.returnCookies) {
      trace := trace + [GetAllCookies];
      if p.cookiesToReturn.Err? {
        return trace, Failure(p.cookiesToReturn.error);
      }
      var asJson := CookiesToJson(p.cookiesToReturn.value);
      if asJson.Err? {
        return trace, Failure(asJson.error);
      }
      cookies := asJson.value;
    }
    outcome := Success(htmlContent, cookies);
  }

  /** The `try` block of `dl_with_nodriver`, with `browser` and `page` as the
      locals it sets. An exception caught by the outer handler is a `return`
      of `Failure(e)`. */
  method TryBody(req: DownloadRequest, p: Provider)
    returns (outcome: Outcome, trace: seq<Call>, browser: bool, page: bool)
    ensures Body(outcome, trace, browser, page) == TryBlock(req, p)
  {
    browser, page := false, false;
    trace := [Start];
    if p.start.Some? {
      return Failure(p.start.value), trace, browser, page;
    }
    browser := true;
    trace := trace + [Get(req.url)];
    if p.get.Some? {
      return Failure(p.get.value), trace, browser, page;
    }
    page := true;
    var calls;
    calls, outcome := WithOpenPage(req, p);
    trace := trace + calls;
  }

  /** The `try` block from the cookie policy on, once a page is open. */
  method WithOpenPage(req: DownloadRequest, p: Provider) returns (trace: seq<Call>, outcome: Outcome)
    ensures Stage(trace, Some(outcome)) == OnPage(req, p)
  {
    var cookieExit, waitExit;
    trace, cookieExit := ApplyCookiePolicy(req, p);
    if cookieExit.Some? {
      return trace, cookieExit.value;
    }
    ghost var cookieCalls := trace;
    var waitCalls;
    waitCalls, waitExit := WaitForPage(req, p);
    trace := trace + waitCalls;
    if waitExit.Some? {
      return trace, waitExit.value;
    }
    var contentCalls;
    contentCalls, outcome := ReadContent(req, p);
    trace := trace + contentCalls;
    assert trace == cookieCalls + (waitCalls + contentCalls);
  }

  /** `dl_with_nodriver`: the `try` block, then the `finally` block. A
      failing `page.close()` is logged and does not keep `browser.stop()`
      from running; a failing `browser.stop()` is logged too. Neither touches
      the outcome already decided. */
  method DlWithNodriver(req: DownloadRequest, p: Provider) returns (outcome: Outcome, trace: seq<Call>)
    ensures (outcome, trace) == Download(req, p)
  {
    var browser, page;
    outcome, trace, browser, page := TryBody(req, p);
    ghost var body := trace;
    if page {
      trace := trace + [ClosePage];
      if p.close.Some? {
        // `page.close()` raised: the error is logged, and the stop still runs
      }
    }
    if browser {
      trace := trace + [StopBrowser];
      if p.stop.Some? {
        // `browser.stop()` raised: the error is logged and dropped
      }
    }
    assert trace == body + Cleanup(Body(outcome, body, browser, page));
  }

  /** Which calls each part of the `try` block can make. */
  lemma StageCalls(req: DownloadRequest, p: Provider)
    ensures forall c :: c in CookieStage(req, p).calls ==> c.LoadCookies? || c.GetAllCookies? || c.SetCookiesSent? || c.Reload?
    ensures forall c :: c in WaitStage(req, p).calls ==> c.Sleep? || c.WaitFor? || c.Select?
    ensures forall c :: c in ContentStage(req, p).calls ==> c.GetContent? || c.SaveCookies? || c.GetAllCookies?
  {
    if req.cookie.Some? {
      var c := req.cookie.value;
      var load := Stage(if IsSet(c.load) then CookieFileCall(c, req.url, p, false) else [], None);
      var push := if HasEntries(c.cookieDictList) then PushCookies(c, p) else Stage([], None);
      var reload := if IsSet(c.load) || HasEntries(c.cookieDictList) then Raising([Reload], p.reload) else Stage([], None);
      ThenCalls(push, reload);
      ThenCalls(load, Then(push, reload));
    }
    if req.waitCssSelector.Some? {
      RunCallsOnly(p.page, req.waitCssSelector.value);
    }
  }

  /** The calls of two stages run in sequence come from one or the other. */
  lemma ThenCalls(a: Stage, b: Stage)
    ensures forall c :: c in Then(a, b).calls ==> c in a.calls || c in b.calls
  {
  }

  /** No part of the `try` block closes the page or stops the browser. */
  lemma TryBlockLeavesCleanup(req: DownloadRequest, p: Provider)
    ensures ClosePage !in TryBlock(req, p).calls && StopBrowser !in TryBlock(req, p).calls
  {
    if p.start.None? && p.get.None? {
      StageCalls(req, p);
      var later := Then(WaitStage(req, p), ContentStage(req, p));
      ThenCalls(WaitStage(req, p), ContentStage(req, p));
      ThenCalls(CookieStage(req, p), later);
      assert ClosePage !in OnPage(req, p).calls && StopBrowser !in OnPage(req, p).calls;
    }
  }

  /** When the browser does not start, nothing else is called and its error is returned. */
  lemma StartFailure(req: DownloadRequest, p: Provider, e: Error)
    requires p.start == Some(e)
    ensures Download(req, p) == (Failure(e), [Start])
  {
    assert [Start] + Cleanup(TryBlock(req, p)) == [Start];
  }

  /** When the URL cannot be opened, the browser is still stopped, no page is
      closed, and the navigation error is returned. */
  lemma NavigationFailure(req: DownloadRequest, p: Provider, e: Error)
    requires p.start.None? && p.get == Some(e)
    ensures Download(req, p) == (Failure(e), [Start, Get(req.url), StopBrowser])
  {
    assert Cleanup(TryBlock(req, p)) == [StopBrowser];
    assert [Start, Get(req.url)] + [StopBrowser] == [Start, Get(req.url), StopBrowser];
  }

  /** Cleanup runs on every path: the page is closed exactly when one was
      opened and the browser stopped exactly when one was started, each at
      most once, page before browser, and nothing is called after them. */
  lemma CleanupAlwaysRuns(req: DownloadRequest, p: Provider)
    ensures var t := Download(req, p).1;
      (ClosePage in t <==> p.start.None? && p.get.None?) &&
      (StopBrowser in t <==> p.start.None?) &&
      (forall i :: 0 <= i < |t| && t[i] == ClosePage ==> i == |t| - 2) &&
      (forall i :: 0 <= i < |t| && t[i] == StopBrowser ==> i == |t| - 1)
  {
    var b := TryBlock(req, p);
    TryBlockLeavesCleanup(req, p);
    var t := Download(req, p).1;
    assert t == b.calls + Cleanup(b);
    if p.start.Some? {
      assert t == [Start];
    } else if p.get.Some? {
      assert t == [Start, Get(req.url)] + [StopBrowser];
    } else {
      assert Cleanup(b) == [ClosePage, StopBrowser];
      assert t[|t| - 2] == ClosePage && t[|t| - 1] == StopBrowser;
      forall i | 0 <= i < |t| - 2
        ensures t[i] != ClosePage && t[i] != StopBrowser
      {
        assert t[i] == b.calls[i];
      }
    }
  }

  /** Errors from `page.close()` and `browser.stop()` change nothing: not the
      outcome and not the calls made. */
  lemma CleanupErrorsIgnored(req: DownloadRequest, p: Provider, close: Option<Error>, stop: Option<Error>)
    ensures Download(req, p.(close := close, stop := stop)) == Download(req, p)
  {
    var q := p.(close := close, stop := stop);
    assert CookieStage(req, q) == CookieStage(req, p);
    assert WaitStage(req, q) == WaitStage(req, p);
    assert ContentStage(req, q) == ContentStage(req, p);
  }

  /** Once the page is open, it is reloaded exactly when the cookie policy
      loads cookies or gives cookies to push, and the push (reading the
      browser's cookies and sending them) did not raise. */
  lemma ReloadExactlyWhen(req: DownloadRequest, p: Provider)
    requires p.start.None? && p.get.None?
    ensures Reload in Download(req, p).1 <==>
      req.cookie.Some? &&
      (IsSet(req.cookie.value.load) || HasEntries(req.cookie.value.cookieDictList)) &&
      (HasEntries(req.cookie.value.cookieDictList) ==> p.cookiesToMerge.Ok? && p.send.None?)
  {
    StageCalls(req, p);
  }

  /** A selector wait takes precedence: when one is given, `page_wait_time`
      makes no difference. */
  lemma SelectorTakesPrecedence(req: DownloadRequest, p: Provider, pageWaitTime: Option<real>)
    requires req.waitCssSelector.Some?
    ensures Download(req.(pageWaitTime := pageWaitTime), p) == Download(req, p)
  {
  }

  /** A selector wait that raises ends the download with its error, and the
      content is never read. */
  lemma SelectorFailureEndsDownload(req: DownloadRequest, p: Provider, e: Error)
    requires p.start.None? && p.get.None? && CookieStage(req, p).exit.None?
    requires req.waitCssSelector.Some? && Run(p.page, req.waitCssSelector.value).0 == Raised(e)
    ensures Download(req, p).0 == Failure(e)
    ensures GetContent !in Download(req, p).1
  {
    StageCalls(req, p);
  }

  /** A successful download returns cookies only when `return_cookies` is
      set, and then exactly the browser's cookies, in order. */
  lemma CookiesOnlyWhenAsked(req: DownloadRequest, p: Provider)
    requires Download(req, p).0.Success?
    ensures if req.cookie.Some? && IsSet(req.cookie.value.returnCookies)
            then p.cookiesToReturn.Ok? && Download(req, p).0.cookies == Present(p.cookiesToReturn.value)
            else Download(req, p).0.cookies == []
  {
    if req.cookie.Some? && IsSet(req.cookie.value.returnCookies) {
      var all := p.cookiesToReturn.value;
      PresentKeepsTruthy(all);
    }
  }

  /** Where the cookie file lies, and whether its path can be resolved at
      all, never changes the outcome of a download: the resolution sits in the
      same logged-and-dropped `try` as the load and the save. */
  lemma CookieFileErrorsIgnored(req: DownloadRequest, p: Provider, urlNetloc: string -> Result<string>)
    ensures Download(req, p.(urlNetloc := urlNetloc)).0 == Download(req, p).0
  {
  }
  /** Without a cookie policy and a selector wait, the download opens the
      page, pauses for a non-zero `page_wait_time`, and returns the content
      with no cookies, or the error of reading it; the page and the browser
      are released either way. */
  lemma FetchWithoutPolicies(req: DownloadRequest, p: Provider)
    requires req.cookie.None? && req.waitCssSelector.None?
    requires p.start.None? && p.get.None?
    ensures var pause := if req.pageWaitTime.Some? && req.pageWaitTime.value != 0.0 then [Sleep(req.pageWaitTime.value)] else [];
      Download(req, p) ==
        (match p.content case Ok(html) => Success(html, []) case Err(e) => Failure(e),
         [Start, Get(req.url)] + pause + [GetContent, ClosePage, StopBrowser])
  {
    var pause := if req.pageWaitTime.Some? && req.pageWaitTime.value != 0.0 then [Sleep(req.pageWaitTime.value)] else [];
    assert CookieStage(req, p) == Stage([], None);
    assert WaitStage(req, p) == Stage(pause, None);
    assert ContentStage(req, p).calls == [GetContent];
    assert OnPage(req, p).calls == [] + (pause + [GetContent]);
    assert Cleanup(TryBlock(req, p)) == [ClosePage, StopBrowser];
    assert ([Start, Get(req.url)] + ([] + (pause + [GetContent]))) + [ClosePage, StopBrowser]
        == [Start, Get(req.url)] + pause + [GetContent, ClosePage, StopBrowser];
  }

  /** A request with only a URL makes no wait at all. */
  lemma DefaultRequestFetches(url: string, p: Provider)
    requires p.start.None? && p.get.None?
    ensures Download(DownloadRequest(url), p) ==
      (match p.content case Ok(html) => Success(html, []) case Err(e) => Failure(e),
       [Start, Get(url), GetContent, ClosePage, StopBrowser])
  {
    FetchWithoutPolicies(DownloadRequest(url), p);
    assert [Start, Get(url)] + [] + [GetContent, ClosePage, StopBrowser] == [Start, Get(url), GetContent, ClosePage, StopBrowser];
  }

  /** A cookie policy with every default loads nothing, pushes nothing,
      reloads nothing, saves nothing and returns nothing: it is as if there
      were no policy. */
  lemma DefaultCookiePolicyDoesNothing(req: DownloadRequest, p: Provider)
    ensures Download(req.(cookie := Some(Cookie())), p) == Download(req.(cookie := None), p)
  {
    var withDefault, without := req.(cookie := Some(Cookie())), req.(cookie := None);
    assert CookieStage(withDefault, p) == Stage([] + ([] + []), None);
    assert CookieStage(withDefault, p) == CookieStage(without, p);
    assert ContentStage(withDefault, p) == ContentStage(without, p);
  }

  /** The cookie part pushes the merged cookies in exactly one `set_cookies`. */
  lemma CookieStagePushesOnce(req: DownloadRequest, p: Provider, current: seq<Option<CookieDict>>)
    requires req.cookie.Some? && HasEntries(req.cookie.value.cookieDictList)
    requires p.cookiesToMerge == Ok(current)
    ensures var sent := SetCookiesSent(ConnectionFor(p.tabsClosed), Present(current) + req.cookie.value.cookieDictList.value);
      sent in CookieStage(req, p).calls && Count(CookieStage(req, p).calls, IsSetCookies) == 1
  {
    var c := req.cookie.value;
    var sent := SetCookiesSent(ConnectionFor(p.tabsClosed), Present(current) + c.cookieDictList.value);
    var load := if IsSet(c.load) then CookieFileCall(c, req.url, p, false) else [];
    var push := [GetAllCookies, sent];
    var reload := if p.send.Some? then [] else [Reload];
    assert CookieStage(req, p).calls == load + (push + reload);
    CountPositive(load, IsSetCookies);
    CountPositive(reload, IsSetCookies);
    CountOne(GetAllCookies, IsSetCookies);
    CountOne(sent, IsSetCookies);
    CountAppend([GetAllCookies], [sent], IsSetCookies);
    assert [GetAllCookies] + [sent] == push;
    CountAppend(push, reload, IsSetCookies);
    CountAppend(load, push + reload, IsSetCookies);
  }

  /** Once the page is open, the calls are those of the cookie part, then
      calls that push no cookies, then the cleanup. */
  lemma OpenPageCalls(req: DownloadRequest, p: Provider) returns (rest: seq<Call>)
    requires p.start.None? && p.get.None?
    ensures Download(req, p).1 == [Start, Get(req.url)] + (CookieStage(req, p).calls + (rest + [ClosePage, StopBrowser]))
    ensures forall c :: c in rest ==> c.Sleep? || c.WaitFor? || c.Select? || c.GetContent? || c.SaveCookies? || c.GetAllCookies?
  {
    var cs, w, k := CookieStage(req, p), WaitStage(req, p), ContentStage(req, p);
    StageCalls(req, p);
    rest := if cs.exit.Some? then [] else if w.exit.Some? then w.calls else w.calls + k.calls;
    assert OnPage(req, p).calls == cs.calls + rest;
  }

  /** Caller cookies are pushed in a single `set_cookies`, on the connection
      `_set_cookies` chooses, carrying the browser's cookies followed by the
      caller's. */
  lemma CookiesPushedOnce(req: DownloadRequest, p: Provider, current: seq<Option<CookieDict>>)
    requires p.start.None? && p.get.None?
    requires req.cookie.Some? && HasEntries(req.cookie.value.cookieDictList)
    requires p.cookiesToMerge == Ok(current)
    ensures var sent := SetCookiesSent(ConnectionFor(p.tabsClosed), Present(current) + req.cookie.value.cookieDictList.value);
      var t := Download(req, p).1;
      sent in t && Count(t, IsSetCookies) == 1
  {
    var cookieCalls := CookieStage(req, p).calls;
    CookieStagePushesOnce(req, p, current);
    var rest := OpenPageCalls(req, p);
    var head, cleanup := [Start, Get(req.url)], [ClosePage, StopBrowser];
    assert forall c :: c in rest ==> !IsSetCookies(c);
    CountPositive(rest, IsSetCookies);
    CountPositive(head, IsSetCookies);
    CountPositive(cleanup, IsSetCookies);
    CountAppend(rest, cleanup, IsSetCookies);
    CountAppend(cookieCalls, rest + cleanup, IsSetCookies);
    CountAppend(head, cookieCalls + (rest + cleanup), IsSetCookies);
  }

  /** The calls `t` end with `tail`. */
  predicate EndsWith(t: seq<Call>, tail: seq<Call>)
  {
    |tail| <= |t| && t[|t| - |tail|..] == tail
  }

  /** Once the page is open, a download whose `try` block ends with the call
      `last` ends its trace with `last`, then the page close and the browser
      stop, and nothing else. */
  lemma OpenPageEndsWith(req: DownloadRequest, p: Provider, before: seq<Call>, last: Call)
    requires p.start.None? && p.get.None?
    requires OnPage(req, p).calls == before + [last]
    ensures Download(req, p).0 == OnPage(req, p).exit.value
    ensures EndsWith(Download(req, p).1, [last, ClosePage, StopBrowser])
  {
    var t := Download(req, p).1;
    assert t == ([Start, Get(req.url)] + before) + [last, ClosePage, StopBrowser];
  }

  /** A failing `get_all` before the cookies are pushed ends the download
      with its error, right after that call. */
  lemma MergeFailureEndsDownload(req: DownloadRequest, p: Provider, e: Error)
    requires p.start.None? && p.get.None?
    requires req.cookie.Some? && HasEntries(req.cookie.value.cookieDictList)
    requires p.cookiesToMerge == Err(e)
    ensures Download(req, p).0 == Failure(e)
    ensures EndsWith(Download(req, p).1, [GetAllCookies, ClosePage, StopBrowser])
  {
    var c := req.cookie.value;
    var load := if IsSet(c.load) then CookieFileCall(c, req.url, p, false) else [];
    assert CookieStage(req, p) == Stage(load + [GetAllCookies], Some(Failure(e)));
    OpenPageEndsWith(req, p, load, GetAllCookies);
  }

  /** A failing `set_cookies` send ends the download with its error, right
      after the send. */
  lemma SendFailureEndsDownload(req: DownloadRequest, p: Provider, current: seq<Option<CookieDict>>, e: Error)
    requires p.start.None? && p.get.None?
    requires req.cookie.Some? && HasEntries(req.cookie.value.cookieDictList)
    requires p.cookiesToMerge == Ok(current) && p.send == Some(e)
    ensures Download(req, p).0 == Failure(e)
    ensures EndsWith(Download(req, p).1,
      [SetCookiesSent(ConnectionFor(p.tabsClosed), Present(current) + req.cookie.value.cookieDictList.value), ClosePage, StopBrowser])
  {
    var c := req.cookie.value;
    var load := if IsSet(c.load) then CookieFileCall(c, req.url, p, false) else [];
    var sent := SetCookiesSent(ConnectionFor(p.tabsClosed), Present(current) + c.cookieDictList.value);
    assert CookieStage(req, p) == Stage(load + [GetAllCookies, sent], Some(Failure(e)));
    assert load + [GetAllCookies, sent] == (load + [GetAllCookies]) + [sent];
    OpenPageEndsWith(req, p, load + [GetAllCookies], sent);
  }

  /** A failing `page.reload()` ends the download with its error, right after
      the reload. */
  lemma ReloadFailureEndsDownload(req: DownloadRequest, p: Provider, e: Error)
    requires p.start.None? && p.get.None?
    requires req.cookie.Some? && (IsSet(req.cookie.value.load) || HasEntries(req.cookie.value.cookieDictList))
    requires HasEntries(req.cookie.value.cookieDictList) ==> p.cookiesToMerge.Ok? && p.send.None?
    requires p.reload == Some(e)
    ensures Download(req, p).0 == Failure(e)
    ensures EndsWith(Download(req, p).1, [Reload, ClosePage, StopBrowser])
  {
    var c := req.cookie.value;
    var load := if IsSet(c.load) then CookieFileCall(c, req.url, p, false) else [];
    var pushStage := if HasEntries(c.cookieDictList) then PushCookies(c, p) else Stage([], None);
    assert pushStage.exit.None?;
    var reloadStage := Raising([Reload], p.reload);
    assert reloadStage == Stage([Reload], Some(Failure(e)));
    assert Then(pushStage, reloadStage) == Stage(pushStage.calls + [Reload], Some(Failure(e)));
    assert CookieStage(req, p) == Then(Stage(load, None), Then(pushStage, reloadStage));
    assert load + (pushStage.calls + [Reload]) == (load + pushStage.calls) + [Reload];
    OpenPageEndsWith(req, p, load + pushStage.calls, Reload);
  }

  /** After the cookie part and the wait, the content part ends the download
      and its calls are the last ones of the `try` block. */
  lemma ContentPartEnds(req: DownloadRequest, p: Provider)
    requires CookieStage(req, p).exit.None? && WaitStage(req, p).exit.None?
    ensures OnPage(req, p) == Stage(CookieStage(req, p).calls + WaitStage(req, p).calls + ContentStage(req, p).calls, ContentStage(req, p).exit)
  {
    var cs, w, k := CookieStage(req, p), WaitStage(req, p), ContentStage(req, p);
    assert Then(w, k) == Stage(w.calls + k.calls, k.exit);
    assert cs.calls + (w.calls + k.calls) == cs.calls + w.calls + k.calls;
  }

  /** Once the cookie part and the wait have passed, a failing
      `get_content` ends the download with its error, right after it. */
  lemma ContentFailureEndsDownload(req: DownloadRequest, p: Provider, e: Error)
    requires p.start.None? && p.get.None?
    requires CookieStage(req, p).exit.None? && WaitStage(req, p).exit.None?
    requires p.content == Err(e)
    ensures Download(req, p).0 == Failure(e)
    ensures EndsWith(Download(req, p).1, [GetContent, ClosePage, StopBrowser])
  {
    ContentPartEnds(req, p);
    OpenPageEndsWith(req, p, CookieStage(req, p).calls + WaitStage(req, p).calls, GetContent);
  }

  /** Once the page content is read, a failing `get_all` for the returned
      cookies, or a falsy entry among them, ends the download with that
      error, right after the `get_all`. */
  lemma ReturnCookiesFailureEndsDownload(req: DownloadRequest, p: Provider, e: Error)
    requires p.start.None? && p.get.None?
    requires CookieStage(req, p).exit.None? && WaitStage(req, p).exit.None?
    requires p.content.Ok?
    requires req.cookie.Some? && IsSet(req.cookie.value.returnCookies)
    requires p.cookiesToReturn == Err(e) ||
      (p.cookiesToReturn.Ok? && e == NoneToJson && exists i :: 0 <= i < |p.cookiesToReturn.value| && p.cookiesToReturn.value[i].None?)
    ensures Download(req, p).0 == Failure(e)
    ensures EndsWith(Download(req, p).1, [GetAllCookies, ClosePage, StopBrowser])
  {
    var saved := if IsSet(req.cookie.value.save) then CookieFileCall(req.cookie.value, req.url, p, true) else [];
    assert ContentStage(req, p) == Stage([GetContent] + saved + [GetAllCookies], Some(Failure(e)));
    ContentPartEnds(req, p);
    var before := CookieStage(req, p).calls + WaitStage(req, p).calls + ([GetContent] + saved);
    assert OnPage(req, p).calls == before + [GetAllCookies];
    OpenPageEndsWith(req, p, before, GetAllCookies);
  }
}
