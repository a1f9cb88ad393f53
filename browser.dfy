/** The browser the downloader drives (the `nodriver` package), seen from the
    outside. Each call the downloader makes is recorded as a `Call`; what each
    call answers, or the exception it raises, is fixed in advance by a
    `Provider`, so that every run of the downloader is a function of its
    request and its provider. */
module Browser {
  import opened Models

  /** A Python exception: its class name and its message. */
  datatype Error = Error(errorType: string, message: string)

  datatype Result<+T> = Ok(value: T) | Err(error: Error)

  /** A file path: a directory and a name joined under it. */
  datatype Path = Path(dir: string, name: string)

  /** Where `set_cookies` is sent: the tab at the given index of the
      browser's tab list, or the browser's own root connection. */
  datatype Connection = TabConnection(index: nat) | RootConnection

  /** What `page.select(tag, timeout)` gives back: `None`, an element that is
      truthy, an element that is falsy, or an exception it raises. */
  datatype Element = NoElement | TruthyElement | FalsyElement | SelectFailed(error: Error)

  /** One call made to the browser, with the arguments that matter. */
  datatype Call =
    | Start
    | Get(url: string)
    | LoadCookies(path: Path)
    | GetAllCookies
    | SetCookiesSent(connection: Connection, cookies: seq<CookieDict>)
    | Reload
    | Sleep(seconds: real)
    | WaitFor(selector: string, timeout: Option<int>)
    | Select(tag: string, waitTime: real)
    | GetContent
    | SaveCookies(path: Path)
    | ClosePage
    | StopBrowser

  /** An open page, as the selector wait sees it. `waitFor(i)` is the outcome
      of `page.wait_for` on attempt `i` (`None`: the selector appeared;
      `Some(e)`: it raised `e`), and `select(i)` is what `page.select` gives
      back on attempt `i`. Each is called at most once per attempt. */
  datatype Page = Page(waitFor: nat -> Option<Error>, select: nat -> Element)

  /** The answers of every browser call one download makes. A field of type
      `Option<Error>` is `Some(e)` exactly when that call raises `e`.
      `cookiesToMerge` and `cookiesToReturn` answer the two `cookies.get_all`
      calls (the one before cookies are pushed and the one after the content
      is read); an entry `None` stands for a falsy list entry. `tabsClosed`
      gives the `closed` flag of each tab in `browser.tabs` when cookies are
      pushed. `urlNetloc` stands for `urlparse(url).netloc`, which can raise.
      What `cookies.load` and `cookies.save` do is not an answer here: the
      downloader catches and only logs whatever they raise, so nothing it
      returns depends on them. */
  datatype Provider = Provider(
    start: Option<Error>,
    get: Option<Error>,
    urlNetloc: string -> Result<string>,
    cookiesToMerge: Result<seq<Option<CookieDict>>>,
    tabsClosed: seq<bool>,
    send: Option<Error>,
    reload: Option<Error>,
    page: Page,
    content: Result<string>,
    cookiesToReturn: Result<seq<Option<CookieDict>>>,
    close: Option<Error>,
    stop: Option<Error>)

  predicate IsWaitFor(c: Call) { c.WaitFor? }

  predicate IsSetCookies(c: Call) { c.SetCookiesSent? }

  /** The number of calls of one kind in a trace. */
  function Count(t: seq<Call>, isKind: Call -> bool): nat
  {
    if t == [] then 0 else (if isKind(t[0]) then 1 else 0) + Count(t[1..], isKind)
  }

  lemma {:induction false} CountAppend(a: seq<Call>, b: seq<Call>, isKind: Call -> bool)
    ensures Count(a + b, isKind) == Count(a, isKind) + Count(b, isKind)
  {
    if a == [] {
      assert a + b == b;
    } else {
      assert (a + b)[0] == a[0];
      assert (a + b)[1..] == a[1..] + b;
      CountAppend(a[1..], b, isKind);
    }
  }

  lemma CountOne(c: Call, isKind: Call -> bool)
    ensures Count([c], isKind) == if isKind(c) then 1 else 0
  {
    assert [c][1..] == [];
  }

  /** A trace with no call of a kind counts none, and one with a call of
      that kind counts at least one. */
  lemma {:induction false} CountPositive(t: seq<Call>, isKind: Call -> bool)
    ensures Count(t, isKind) > 0 <==> exists c :: c in t && isKind(c)
  {
    if t != [] {
      CountPositive(t[1..], isKind);
      assert forall c :: c in t <==> c == t[0] || c in t[1..];
    }
  }
}
