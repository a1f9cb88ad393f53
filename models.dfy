/** The request and response records of the download service (app/models.py),
    with the default field values their declarations give. `Optional[...]`
    fields are `Option`s; a field that Python reads by truthiness is read
    through the predicates below. */
module Models {

  datatype Option<+T> = None | Some(value: T)

  /** A cookie in its JSON form: a dictionary of named fields. Field values are
      kept as strings; the record is passed through, never interpreted. */
  type CookieDict = map<string, string>

  /** Truthiness of an `Optional[bool]` field: only `True` counts. */
  predicate IsSet(flag: Option<bool>)
  {
    flag == Some(true)
  }

  /** Truthiness of an `Optional[str]` field: present and non-empty. */
  predicate IsNonEmpty(s: Option<string>)
  {
    s.Some? && s.value != ""
  }

  /** Truthiness of an `Optional[list]` field: present and non-empty. */
  predicate HasEntries<T>(list: Option<seq<T>>)
  {
    list.Some? && list.value != []
  }

  datatype ErrorDetail = ErrorDetail(errorMsg: string := "", errorType: string := "")

  /** The cookie policy of a request. */
  datatype Cookie = Cookie(
    cookieDictList: Option<seq<CookieDict>> := None,
    returnCookies: Option<bool> := Some(false),
    save: Option<bool> := Some(false),
    load: Option<bool> := Some(false),
    filename: Option<string> := None)

  /** What the selector wait does when the selector does not appear. */
  datatype OnError = OnError(
    actionType: string := "raise",
    maxRetries: int := 0,
    waitTime: real := 0.0,
    checkExistTag: string := "")

  /** A wait for a CSS selector; `selector` has no default. */
  datatype WaitCSSSelector = WaitCSSSelector(
    selector: string,
    timeout: Option<int> := Some(10),
    onError: Option<OnError> := Some(OnError()),
    preWaitTime: Option<real> := Some(0.0))

  /** A download request; only `url` has no default. */
  datatype DownloadRequest = DownloadRequest(
    url: string,
    cookie: Option<Cookie> := None,
    waitCssSelector: Option<WaitCSSSelector> := None,
    pageWaitTime: Option<real> := None)

  datatype DownloadResponse = DownloadResponse(
    result: string := "",
    cookies: seq<CookieDict> := [],
    error: ErrorDetail := ErrorDetail())

  /** A response built with every default is empty: no content, no cookies
      and an error whose message and type are both empty. */
  lemma DefaultResponseIsEmpty()
    ensures DownloadResponse().result == ""
    ensures DownloadResponse().cookies == []
    ensures DownloadResponse().error == ErrorDetail("", "")
  {
  }
}
