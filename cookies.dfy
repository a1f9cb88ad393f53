/** The cookie helpers of the downloader: converting the browser's cookies,
    merging caller cookies into them, choosing the connection that receives
    them, and naming the file they are kept in. The JSON conversions of nodriver
    (`to_json`, `from_json`) are taken as the identity on cookie records. */
module Cookies {
  import opened Models
  import opened Browser

  /** `COOKIE_PATH`, the directory that holds persisted cookie files. */
  const CookieDir: string := "/app/cookie"

  /** The suffix of a cookie file name derived from a domain. */
  const CookieFileSuffix: string := "_cookies.dat"

  /** The truthy entries of a list, in their order. */
  function Present<C>(entries: seq<Option<C>>): (r: seq<C>)
    ensures |r| <= |entries|
    ensures forall x :: x in r ==> Some(x) in entries
    ensures forall i :: 0 <= i < |entries| && entries[i].Some? ==> entries[i].value in r
  {
    if entries == [] then []
    else (if entries[0].Some? then [entries[0].value] else []) + Present(entries[1..])
  }

  /** `_cookie_to_param`: an absent or empty list gives no cookies; otherwise
      each truthy entry is converted, in order, and falsy entries are dropped. */
  function CookieToParam<C>(cookies: Option<seq<Option<C>>>): (r: seq<C>)
    ensures !HasEntries(cookies) ==> r == []
    ensures cookies.Some? ==> r == Present(cookies.value)
  {
    if !HasEntries(cookies) then [] else Present(cookies.value)
  }

  /** Dropping falsy entries keeps order: it distributes over concatenation. */
  lemma {:induction false} PresentAppend<C>(a: seq<Option<C>>, b: seq<Option<C>>)
    ensures Present(a + b) == Present(a) + Present(b)
  {
    if a == [] {
      assert a + b == b;
    } else {
      assert (a + b)[0] == a[0];
      assert (a + b)[1..] == a[1..] + b;
      PresentAppend(a[1..], b);
    }
  }

  /** When no entry is falsy, every cookie is kept, at its own position. */
  lemma {:induction false} PresentKeepsTruthy<C>(entries: seq<Option<C>>)
    requires forall i :: 0 <= i < |entries| ==> entries[i].Some?
    ensures |Present(entries)| == |entries|
    ensures forall i :: 0 <= i < |entries| ==> Present(entries)[i] == entries[i].value
  {
    if entries != [] {
      PresentKeepsTruthy(entries[1..]);
      assert Present(entries) == [entries[0].value] + Present(entries[1..]);
    }
  }

  /** `_add_cookies`: the base cookies followed by the additions, in order,
      with nothing merged away; no additions give the base back. A fresh list
      is built, so the base list is left as it was. */
  method AddCookies<C>(addCookies: seq<C>, baseCookies: seq<C>) returns (r: seq<C>)
    ensures addCookies == [] ==> r == baseCookies
    ensures |r| == |baseCookies| + |addCookies|
    ensures r == baseCookies + addCookies
  {
    if addCookies == [] {
      return baseCookies;
    }
    var results := baseCookies;
    for i := 0 to |addCookies|
      invariant results == baseCookies + addCookies[..i]
    {
      results := results + [addCookies[i]];
    }
    assert addCookies[..|addCookies|] == addCookies;
    r := results;
  }

  /** The connection `_set_cookies` sends on, looking from tab `i` on: the
      first tab that is not closed, or the root connection if there is none. */
  function FirstOpenFrom(tabsClosed: seq<bool>, i: nat): (c: Connection)
    requires i <= |tabsClosed|
    ensures c.TabConnection? ==>
      i <= c.index < |tabsClosed| && !tabsClosed[c.index] &&
      forall j :: i <= j < c.index ==> tabsClosed[j]
    ensures c.RootConnection? <==> forall j :: i <= j < |tabsClosed| ==> tabsClosed[j]
    decreases |tabsClosed| - i
  {
    if i == |tabsClosed| then RootConnection
    else if tabsClosed[i] then FirstOpenFrom(tabsClosed, i + 1)
    else TabConnection(i)
  }

  /** The connection `_set_cookies` sends on, for tabs with the given `closed` flags. */
  function ConnectionFor(tabsClosed: seq<bool>): (c: Connection)
  {
    FirstOpenFrom(tabsClosed, 0)
  }

  /** `_set_cookies`: scans the tabs for the first one not closed, falls back
      to the root connection when every tab is closed or there are none, and
      sends the cookies in one `set_cookies` message on it. */
  method SetCookies(tabsClosed: seq<bool>, cookies: seq<CookieDict>) returns (sent: Call)
    ensures sent == Call.SetCookiesSent(ConnectionFor(tabsClosed), cookies)
    ensures sent.connection.TabConnection? ==>
      sent.connection.index < |tabsClosed| && !tabsClosed[sent.connection.index] &&
      forall j :: 0 <= j < sent.connection.index ==> tabsClosed[j]
    ensures sent.connection.RootConnection? <==> forall j :: 0 <= j < |tabsClosed| ==> tabsClosed[j]
  {
    var connection: Option<Connection> := None;
    for i := 0 to |tabsClosed|
      invariant connection.None? ==> forall j :: 0 <= j < i ==> tabsClosed[j]
    {
      if tabsClosed[i] {
        continue;
      }
      connection := Some(TabConnection(i));
      break;
    }
    if connection.None? {
      connection := Some(RootConnection);
    }
    sent := Call.SetCookiesSent(connection.value, cookies);
  }

  /** `get_cookie_filepath`: a truthy `filename` is used as given under the
      cookie directory; otherwise the name is the URL's network location
      followed by `_cookies.dat`, and a failure to parse the URL is passed on. */
  function CookieFilepath(filename: Option<string>, url: string, urlNetloc: string -> Result<string>): (r: Result<Path>)
    ensures r.Ok? ==> r.value.dir == CookieDir
    ensures IsNonEmpty(filename) ==> r == Ok(Path(CookieDir, filename.value))
    ensures !IsNonEmpty(filename) ==>
      match urlNetloc(url)
      case Ok(domain) => r == Ok(Path(CookieDir, domain + CookieFileSuffix))
      case Err(e) => r == Err(e)
  {
    if IsNonEmpty(filename) then Ok(Path(CookieDir, filename.value))
    else
      match urlNetloc(url)
      case Ok(domain) => Ok(Path(CookieDir, domain + CookieFileSuffix))
      case Err(e) => Err(e)
  }

  /** A derived cookie file name gives its domain back: without a filename,
      two URLs share a cookie file exactly when they have the same network
      location. */
  lemma DerivedFileNamesDistinct(url1: string, url2: string, urlNetloc: string -> Result<string>)
    requires urlNetloc(url1).Ok? && urlNetloc(url2).Ok?
    ensures CookieFilepath(None, url1, urlNetloc) == CookieFilepath(None, url2, urlNetloc)
            <==> urlNetloc(url1).value == urlNetloc(url2).value
  {
    var d1, d2 := urlNetloc(url1).value, urlNetloc(url2).value;
    if d1 + CookieFileSuffix == d2 + CookieFileSuffix {
      assert |d1| == |d2|;
      assert d1 == (d1 + CookieFileSuffix)[..|d1|];
      assert d2 == (d2 + CookieFileSuffix)[..|d2|];
    }
  }
}
