/**
 * The pagination query string of the list endpoints: a `params` dict that gets
 * `page` and then `per_page` when they are not None, rendered as
 * `"&".join(f"{k}={v}" ...)` and appended after `?` only when the dict is non-empty.
 */
module Query {
  import opened Wrappers
  import opened Text

  const PageKey: string := "page"
  const PerPageKey: string := "per_page"

  /** One query parameter: a key and the integer printed after `=`. */
  type Param = (string, int)

  /** The `params` dict, in insertion order: `page` first, then `per_page`, each only when given. */
  function PageParams(page: Option<int>, perPage: Option<int>): (ps: seq<Param>)
    ensures |ps| == (if page.Some? then 1 else 0) + (if perPage.Some? then 1 else 0)
    ensures page.Some? ==> ps[0] == (PageKey, page.value)
    ensures perPage.Some? ==> ps[|ps| - 1] == (PerPageKey, perPage.value)
  {
    (if page.Some? then [(PageKey, page.value)] else [])
    + (if perPage.Some? then [(PerPageKey, perPage.value)] else [])
  }

  /** `f"{k}={v}"` for each parameter, in order. */
  function RenderParams(ps: seq<Param>): (items: seq<string>)
    ensures |items| == |ps|
  {
    seq(|ps|, i requires 0 <= i < |ps| => ps[i].0 + "=" + IntToString(ps[i].1))
  }

  function QueryString(ps: seq<Param>): string {
    Join(RenderParams(ps), '&')
  }

  /** The URL a list endpoint requests: `url` alone, or `url?query` when some parameter is given. */
  function WithQuery(url: string, page: Option<int>, perPage: Option<int>): (r: string)
    ensures page.None? && perPage.None? ==> r == url
    ensures page.Some? || perPage.Some? ==> |r| > |url| && r[..|url| + 1] == url + "?"
  {
    var ps := PageParams(page, perPage);
    if |ps| == 0 then url else url + "?" + QueryString(ps)
  }

  // ---- The server's reading of a query string, an independent inverse of the above ----

  function DecodeParam(item: string): Option<Param> {
    var kv := Split(item, '=');
    if |kv| != 2 then None
    else
      match ParseInt(kv[1])
      case None => None
      case Some(v) => Some((kv[0], v))
  }

  function DecodeParams(items: seq<string>): (r: Option<seq<Param>>)
    ensures r.Some? ==> |r.value| == |items|
  {
    if |items| == 0 then Some([])
    else
      match (DecodeParam(items[0]), DecodeParams(items[1..]))
      case (Some(p), Some(rest)) => Some([p] + rest)
      case _ => None
  }

  /** The value of the first parameter named `key`, if any. */
  function Lookup(ps: seq<Param>, key: string): Option<int> {
    if |ps| == 0 then None
    else if ps[0].0 == key then Some(ps[0].1)
    else Lookup(ps[1..], key)
  }

  /** The `page` and `per_page` a server reads off a requested URL; None if the URL does not parse. */
  function PagingOf(url: string): Option<(Option<int>, Option<int>)> {
    var parts := Split(url, '?');
    if |parts| == 1 then Some((None, None))
    else if |parts| > 2 then None
    else
      match DecodeParams(Split(parts[1], '&'))
      case None => None
      case Some(ps) => Some((Lookup(ps, PageKey), Lookup(ps, PerPageKey)))
  }

  predicate PlainKey(k: string) {
    '&' !in k && '=' !in k && '?' !in k
  }

  /** A printed integer holds only digits and a leading minus sign. */
  lemma NumeralAvoids(v: int, c: char)
    requires !IsDigit(c) && c != '-'
    ensures c !in IntToString(v)
  {
    var s := IntToString(v);
    forall i | 0 <= i < |s| ensures s[i] != c { }
  }

  lemma RenderedParamDecodes(k: string, v: int)
    requires PlainKey(k)
    ensures DecodeParam(k + "=" + IntToString(v)) == Some((k, v))
  {
    var s := IntToString(v);
    NumeralAvoids(v, '=');
    assert k + "=" + s == k + ['='] + s;
    SplitAtFirstSep(k, s, '=');
    SplitWithoutSep(s, '=');
    IntRoundTrip(v);
  }

  lemma {:induction false} RenderedParamsDecode(ps: seq<Param>)
    requires forall i :: 0 <= i < |ps| ==> PlainKey(ps[i].0)
    ensures DecodeParams(RenderParams(ps)) == Some(ps)
    decreases |ps|
  {
    if |ps| > 0 {
      RenderedParamDecodes(ps[0].0, ps[0].1);
      assert RenderParams(ps)[1..] == RenderParams(ps[1..]);
      RenderedParamsDecode(ps[1..]);
      assert [ps[0]] + ps[1..] == ps;
    }
  }

  lemma RenderedParamsPlain(ps: seq<Param>)
    requires forall i :: 0 <= i < |ps| ==> PlainKey(ps[i].0)
    ensures forall i :: 0 <= i < |ps| ==> '&' !in RenderParams(ps)[i] && '?' !in RenderParams(ps)[i]
  {
    forall i | 0 <= i < |ps|
      ensures '&' !in RenderParams(ps)[i] && '?' !in RenderParams(ps)[i]
    {
      NumeralAvoids(ps[i].1, '&');
      NumeralAvoids(ps[i].1, '?');
    }
  }

  /**
   * The page numbers survive the trip through the URL: a server that splits the
   * requested URL at `?` and `&` reads back exactly the `page` and `per_page`
   * that were passed, and reads "not given" for the ones that were None.
   */
  lemma PagingRoundTrip(url: string, page: Option<int>, perPage: Option<int>)
    requires '?' !in url
    ensures PagingOf(WithQuery(url, page, perPage)) == Some((page, perPage))
  {
    var ps := PageParams(page, perPage);
    if |ps| == 0 {
      SplitWithoutSep(url, '?');
    } else {
      var items := RenderParams(ps);
      RenderedParamsPlain(ps);
      var q := Join(items, '&');
      assert '?' !in q by {
        JoinAvoids(items, '&', '?');
      }
      assert url + "?" + q == url + ['?'] + q;
      SplitAtFirstSep(url, q, '?');
      SplitWithoutSep(q, '?');
      SplitJoin(items, '&');
      RenderedParamsDecode(ps);
      assert Split(WithQuery(url, page, perPage), '?') == [url, q];
      assert DecodeParams(Split(q, '&')) == Some(ps);
      assert Lookup(ps, PageKey) == page;
      assert Lookup(ps, PerPageKey) == perPage;
    }
  }

  /** A character that is in no part and is not the separator is not in the joined string. */
  lemma {:induction false} JoinAvoids(parts: seq<string>, sep: char, c: char)
    requires c != sep
    requires forall i :: 0 <= i < |parts| ==> c !in parts[i]
    ensures c !in Join(parts, sep)
    decreases |parts|
  {
    if |parts| > 1 {
      JoinAvoids(parts[1..], sep, c);
    }
  }

  /** With the defaults of most list endpoints the URL ends in `?page=1&per_page=100`. */
  lemma DefaultPaging(url: string)
    ensures WithQuery(url, Some(1), Some(100)) == url + "?page=1&per_page=100"
  {
    assert IntToString(1) == "1";
    assert NatToString(100) == NatToString(10) + "0";
    assert IntToString(100) == "100";
  }

  /**
   * The query string lists `page` before `per_page`, each as `key=value`, and
   * joins them with `&`.
   */
  lemma RenderedQuery(url: string, page: int, perPage: int)
    ensures WithQuery(url, Some(page), Some(perPage))
         == url + "?page=" + IntToString(page) + "&per_page=" + IntToString(perPage)
  {
    var first := PageKey + "=" + IntToString(page);
    var second := PerPageKey + "=" + IntToString(perPage);
    var items := RenderParams(PageParams(Some(page), Some(perPage)));
    assert items == [first, second];
    assert Join(items, '&') == first + ['&'] + Join(items[1..], '&');
    assert items[1..] == [second];
    QueryShape(url, IntToString(page), IntToString(perPage));
  }

  lemma QueryShape(url: string, a: string, b: string)
    ensures url + "?" + ((PageKey + "=" + a) + ['&'] + (PerPageKey + "=" + b))
         == url + "?page=" + a + "&per_page=" + b
  {
    assert "&per_page=" == ['&'] + PerPageKey + "=";
  }

  /** Only `page` given: the query string is `page=value` alone. */
  lemma RenderedPageOnly(url: string, page: int)
    ensures WithQuery(url, Some(page), None) == url + "?page=" + IntToString(page)
  {
    var ps := PageParams(Some(page), None);
    assert ps == [(PageKey, page)];
    assert RenderParams(ps) == [PageKey + "=" + IntToString(page)];
  }

  /** Only `per_page` given: the query string is `per_page=value` alone. */
  lemma RenderedPerPageOnly(url: string, perPage: int)
    ensures WithQuery(url, None, Some(perPage)) == url + "?per_page=" + IntToString(perPage)
  {
    var ps := PageParams(None, Some(perPage));
    assert ps == [(PerPageKey, perPage)];
    assert RenderParams(ps) == [PerPageKey + "=" + IntToString(perPage)];
  }

  /** With neither parameter (the defaults of `specifications`) the URL is left bare. */
  lemma NoPaging(url: string)
    ensures WithQuery(url, None, None) == url
  {
  }
}
