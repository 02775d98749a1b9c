/**
 * Pagination in the `jetbrains-junie` client (pagination.go): the `Link`
 * header read with the shared regular expression, the page count taken from
 * the `last` link, the record count, and the query string built from
 * `PageOptions`.
 */
module JuniePagination {
  import opened GoText
  import opened HttpModel
  import opened LinkPattern
  import opened Pagination
  import opened IdLists

  /**
   * `ParseLinkHeader`: no links (nil) when the response has no `Link`
   * header; otherwise the regular expression's matches recorded in order,
   * a later link of a known rel overwriting an earlier one.
   */
  method ParseLinkHeader(h: Header) returns (links: Option<Links>)
    ensures Get(h, "Link") == "" <==> links.None?
    ensures links.Some? ==> links.value == Recorded(FindAll(Get(h, "Link")), KeepAll)
  {
    var link := Get(h, "Link");
    if link == "" {
      return None;
    }
    var l := ParseLinkValues(link, KeepAll);
    links := Some(l);
  }

  /** A number read with `strconv.Atoi`; a failure carries the text that could not be read. */
  function ParseNumber(s: string): (r: Result<int, string>)
    ensures r.Ok? <==> Atoi(s).Some?
    ensures r.Ok? ==> r.value == Atoi(s).value
    ensures r.Err? ==> r.error == s
  {
    match Atoi(s)
    case Some(v) => Ok(v)
    case None => Err(s)
  }

  /**
   * `GetTotalPages` as written: 0 without links or without a `last` link,
   * otherwise the digits after the first "page=" anywhere in the `last` URL,
   * or 0 when there are none.
   */
  function TotalPagesAsWritten(links: Option<Links>): (r: Result<int, string>)
    ensures links.None? || links.value.last == "" ==> r == Ok(0)
    ensures r.Ok? && r.value != 0 ==> r.value > 0
  {
    if links.None? || links.value.last == "" then Ok(0)
    else
      match FindPageDigits(links.value.last)
      case None => Ok(0)
      case Some(d) => ParseNumber(d)
  }

  /**
   * `GetTotalPages` with the match anchored at a query separator, so that
   * only a parameter named `page` counts (`per_page` does not).
   */
  function TotalPages(links: Option<Links>): (r: Result<int, string>)
    ensures links.None? || links.value.last == "" ==> r == Ok(0)
    ensures r.Ok? && r.value != 0 ==> r.value > 0
  {
    if links.None? || links.value.last == "" then Ok(0)
    else
      match FindQueryPageDigits(links.value.last)
      case None => Ok(0)
      case Some(d) => ParseNumber(d)
  }

  /** A query parameter that `[&?]page=(\d+)` would match right after its separator. */
  predicate PageParam(x: string)
  {
    PageKey <= x && |x| > |PageKey| && IsDigit(x[|PageKey|])
  }

  /** The query text `pre[0]&pre[1]&…&page=n` followed by `post`. */
  function QueryWithPage(pre: seq<string>, n: nat, post: string): string
    decreases |pre|
  {
    if |pre| == 0 then PageKey + (Itoa(n) + post) else pre[0] + ("&" + QueryWithPage(pre[1..], n, post))
  }

  /** Text without a query separator cannot start a `[&?]page=` match. */
  lemma {:induction false} QuerySkipsPlain(x: string, rest: string)
    requires '&' !in x && '?' !in x
    requires |rest| > 0 && (rest[0] == '&' || rest[0] == '?')
    ensures FindQueryPageDigits(x + rest) == FindQueryPageDigits(rest)
  {
    if |x| > 0 {
      var s := x + rest;
      assert s[0] == x[0];
      assert s[1..] == x[1..] + rest;
      QuerySkipsPlain(x[1..], rest);
    } else {
      assert x + rest == rest;
    }
  }

  /** A separator before a parameter other than a numeric `page` does not match. */
  lemma SeparatorSkipsParam(c: char, x: string, rest: string)
    requires c == '&' || c == '?'
    requires !PageParam(x) && '&' !in x
    requires |rest| > 0 && rest[0] == '&'
    ensures FindQueryPageDigits([c] + x + rest) == FindQueryPageDigits(x + rest)
  {
    var s := [c] + x + rest;
    assert s[1..] == x + rest;
    if |x| >= |PageKey| {
      assert (x + rest)[..|PageKey|] == x[..|PageKey|];
      if |x| > |PageKey| {
        assert s[1 + |PageKey|] == x[|PageKey|];
      } else {
        assert s[1 + |PageKey|] == '&';
      }
    } else {
      assert (x + rest)[|x|] == '&';
      assert PageKey[|x|] != '&';
    }
  }

  /** The digits of a nonnegative number end where the following text starts with '&' or ends. */
  lemma PageValueFound(c: char, n: nat, post: string)
    requires c == '&' || c == '?'
    requires post == "" || post[0] == '&'
    ensures FindQueryPageDigits([c] + (PageKey + (Itoa(n) + post))) == Some(Itoa(n))
  {
    var s := [c] + (PageKey + (Itoa(n) + post));
    var d := Itoa(n);
    assert s[1..][..|PageKey|] == PageKey;
    assert s[1 + |PageKey|..] == d + post;
    assert IsDigit(s[1 + |PageKey|]);
    if post == "" {
      assert d + post == d;
      LeadingCountAll(d, IsDigit);
    } else {
      LeadingCountPrefix(d, post, IsDigit);
    }
    assert (d + post)[..|d|] == d;
  }

  /**
   * In a query whose parameters before `page` are neither a numeric `page`
   * nor hold a separator, the anchored pattern finds exactly the page value.
   */
  lemma {:induction false} QueryPageFound(c: char, pre: seq<string>, n: nat, post: string)
    requires c == '&' || c == '?'
    requires forall i :: 0 <= i < |pre| ==> '&' !in pre[i] && '?' !in pre[i] && !PageParam(pre[i])
    requires post == "" || post[0] == '&'
    ensures FindQueryPageDigits([c] + QueryWithPage(pre, n, post)) == Some(Itoa(n))
    decreases |pre|
  {
    if |pre| == 0 {
      PageValueFound(c, n, post);
    } else {
      var q := QueryWithPage(pre[1..], n, post);
      assert [c] + QueryWithPage(pre, n, post) == [c] + pre[0] + ("&" + q);
      SeparatorSkipsParam(c, pre[0], "&" + q);
      QuerySkipsPlain(pre[0], "&" + q);
      QueryPageFound('&', pre[1..], n, post);
      assert "&" + q == ['&'] + q;
    }
  }

  /**
   * The corrected page count reads the `page` parameter of the `last` URL,
   * wherever it stands in the query.
   */
  lemma TotalPagesReadsPageParam(links: Links, base: string, pre: seq<string>, n: nat, post: string)
    requires '&' !in base && '?' !in base
    requires forall i :: 0 <= i < |pre| ==> '&' !in pre[i] && '?' !in pre[i] && !PageParam(pre[i])
    requires post == "" || post[0] == '&'
    requires InInt64(n)
    requires links.last == base + "?" + QueryWithPage(pre, n, post)
    ensures TotalPages(Some(links)) == Ok(n)
  {
    var q := QueryWithPage(pre, n, post);
    assert links.last == base + ("?" + q);
    QuerySkipsPlain(base, "?" + q);
    QueryPageFound('?', pre, n, post);
    assert "?" + q == ['?'] + q;
    AtoiItoa(n);
  }

  /** A position that does not start with "pa" cannot start a `page=` match. */
  lemma NotPageStart(s: string)
    requires |s| > |PageKey| && (s[0] != 'p' || s[1] != 'a')
    ensures FindPageDigits(s) == FindPageDigits(s[1..])
  {
    assert s[..|PageKey|] != PageKey by {
      assert s[..|PageKey|][0] == s[0] && s[..|PageKey|][1] == s[1];
    }
  }

  /** With `page` first in the query of a URL without 'g' before it, the unanchored pattern finds its value. */
  lemma LeadingPageFound(base: string, n: nat, post: string)
    requires '&' !in base && '?' !in base && 'g' !in base
    requires post == "" || post[0] == '&'
    ensures FindPageDigits(base + "?" + QueryWithPage([], n, post)) == Some(Itoa(n))
  {
    var q := QueryWithPage([], n, post);
    var s := "?" + q;
    FindPageDigitsSkips(base, s);
    assert base + "?" + q == base + s;
    PageValueFound('?', n, post);
    assert s == ['?'] + (PageKey + (Itoa(n) + post));
    QueryPageAnchored(s);
    NotPageStart(s);
    assert s[1..] == q;
  }

  /**
   * When `page` is the first query parameter and the URL before the query
   * holds no 'g', the code as written agrees with the corrected count.
   */
  lemma TotalPagesAgreeWhenPageLeads(links: Links, base: string, n: nat, post: string)
    requires '&' !in base && '?' !in base && 'g' !in base
    requires post == "" || post[0] == '&'
    requires InInt64(n)
    requires links.last == base + "?" + QueryWithPage([], n, post)
    ensures TotalPagesAsWritten(Some(links)) == TotalPages(Some(links)) == Ok(n)
  {
    TotalPagesReadsPageParam(links, base, [], n, post);
    LeadingPageFound(base, n, post);
    AtoiItoa(n);
  }

  /** The digits of a nonnegative number after `page=`, followed by '&', are what the unanchored pattern captures. */
  lemma UnanchoredValueFound(n: nat, rest: string)
    requires |rest| > 0 && rest[0] == '&'
    ensures FindPageDigits(PageKey + (Itoa(n) + rest)) == Some(Itoa(n))
  {
    var s := PageKey + (Itoa(n) + rest);
    var d := Itoa(n);
    assert s[..|PageKey|] == PageKey;
    assert s[|PageKey|..] == d + rest;
    assert IsDigit(s[|PageKey|]);
    LeadingCountPrefix(d, rest, IsDigit);
    assert (d + rest)[..|d|] == d;
  }

  /**
   * The code as written reads a `per_page` value that comes before `page`
   * as the page count: for a `last` link such as
   * "/entries.json?per_page=50&page=3" it reports 50 pages where the
   * corrected count reports 3.
   */
  lemma PerPageReadAsPageCount(links: Links, base: string, perPage: nat, page: nat)
    requires '&' !in base && '?' !in base && 'g' !in base
    requires InInt64(perPage) && InInt64(page)
    requires links.last == base + "?" + QueryWithPage([PerPageKey + Itoa(perPage)], page, "")
    ensures TotalPagesAsWritten(Some(links)) == Ok(perPage)
    ensures TotalPages(Some(links)) == Ok(page)
  {
    PerPageMatchesFirst(links.last, base, perPage, page);
    AtoiItoa(perPage);
    var pre := [PerPageKey + Itoa(perPage)];
    PerPageIsPlain(pre[0], perPage);
    TotalPagesReadsPageParam(links, base, pre, page, "");
  }

  lemma PerPageMatchesFirst(last: string, base: string, perPage: nat, page: nat)
    requires 'g' !in base
    requires last == base + "?" + QueryWithPage([PerPageKey + Itoa(perPage)], page, "")
    ensures FindPageDigits(last) == Some(Itoa(perPage))
  {
    var rest := "&" + QueryWithPage([], page, "");
    var tail := PageKey + (Itoa(perPage) + rest);
    assert last == (base + "?" + "per_") + tail;
    FindPageDigitsSkips(base + "?" + "per_", tail);
    UnanchoredValueFound(perPage, rest);
  }

  lemma PerPageIsPlain(x: string, perPage: nat)
    requires x == PerPageKey + Itoa(perPage)
    ensures '&' !in x && '?' !in x && !PageParam(x)
  {
    assert x[1] == 'e';
    var r := Itoa(perPage);
    assert forall k :: 0 <= k < |r| ==> IsDigit(r[k]);
  }

  /** `GetTotalRecords`: 0 without an `X-Feedbin-Record-Count` header, otherwise its `Atoi` value. */
  function TotalRecords(h: Header): (r: Result<int, string>)
    ensures Get(h, "X-Feedbin-Record-Count") == "" ==> r == Ok(0)
    ensures Get(h, "X-Feedbin-Record-Count") != "" ==> r == ParseNumber(Get(h, "X-Feedbin-Record-Count"))
  {
    var count := Get(h, "X-Feedbin-Record-Count");
    if count == "" then Ok(0) else ParseNumber(count)
  }

  /** The record count of any 64-bit count the server writes in decimal is read back exactly. */
  lemma TotalRecordsRoundTrip(h: Header, n: int)
    requires InInt64(n)
    requires Get(h, "X-Feedbin-Record-Count") == Itoa(n)
    ensures TotalRecords(h) == Ok(n)
  {
    AtoiItoa(n);
  }

  const PerPageKey: string := "per_" + PageKey

  /** `PageOptions`. */
  datatype PageOptions = PageOptions(page: int, perPage: int, since: string)

  /** The parameters `PageOptions` contribute: `page` and `per_page` when positive, `since` when set. */
  function PageParams(page: int, perPage: int, since: string): seq<string>
  {
    (if page > 0 then ["page=" + Itoa(page)] else [])
    + (if perPage > 0 then [PerPageKey + Itoa(perPage)] else [])
    + (if since != "" then ["since=" + since] else [])
  }

  /**
   * A URL with parameters appended: unchanged when there are none, otherwise
   * joined with "&" after "&" when the URL already has a '?', after '?' when not.
   */
  function WithParams(url: string, params: seq<string>): (r: string)
    ensures |params| == 0 ==> r == url
    ensures |params| > 0 ==> |r| > |url| && r[..|url|] == url
  {
    if |params| == 0 then url
    else if '?' in url then url + "&" + Join(params, "&")
    else url + "?" + Join(params, "&")
  }

  /**
   * The part of a URL with parameters after the original URL: the separator
   * chosen by whether the URL has a query, then the parameters, which split
   * back at '&' when none of them contains one.
   */
  lemma WithParamsSplitsBack(url: string, params: seq<string>)
    requires |params| > 0
    requires forall i :: 0 <= i < |params| ==> '&' !in params[i]
    ensures WithParams(url, params)[|url|] == (if '?' in url then '&' else '?')
    ensures Split(WithParams(url, params)[|url| + 1..], '&') == params
  {
    var r := WithParams(url, params);
    assert r[|url| + 1..] == Join(params, "&");
    SplitJoin(params, '&');
  }

  /** The three `PageOptions` parameters, appended one by one in the order the source checks them. */
  method PageParamList(page: int, perPage: int, since: string) returns (params: seq<string>)
    ensures params == PageParams(page, perPage, since)
  {
    params := [];
    if page > 0 {
      params := params + ["page=" + Itoa(page)];
    }
    if perPage > 0 {
      params := params + [PerPageKey + Itoa(perPage)];
    }
    if since != "" {
      params := params + ["since=" + since];
    }
  }

  /** `AddPageParams`: the URL unchanged without options, else with their parameters appended. */
  method AddPageParams(url: string, options: Option<PageOptions>) returns (r: string)
    ensures options.None? ==> r == url
    ensures options.Some? ==> r == WithParams(url, PageParams(options.value.page, options.value.perPage, options.value.since))
  {
    if options.None? {
      return url;
    }
    var o := options.value;
    var params := PageParamList(o.page, o.perPage, o.since);
    if |params| == 0 {
      return url;
    }
    if '?' in url {
      return url + "&" + Join(params, "&");
    }
    return url + "?" + Join(params, "&");
  }

  /**
   * The corrected page count reads back the page `AddPageParams` writes
   * into a URL without a query, whatever follows it.
   */
  lemma PageParamsReadBack(base: string, o: PageOptions, links: Links)
    requires '&' !in base && '?' !in base
    requires 0 < o.page <= MaxInt64
    requires links.last == WithParams(base, PageParams(o.page, o.perPage, o.since))
    ensures TotalPages(Some(links)) == Ok(o.page)
  {
    var params := PageParams(o.page, o.perPage, o.since);
    var rest := params[1..];
    assert params == [params[0]] + rest;
    var post := if |rest| == 0 then "" else "&" + Join(rest, "&");
    assert Join(params, "&") == PageKey + (Itoa(o.page) + post);
    assert links.last == base + "?" + QueryWithPage([], o.page, post);
    TotalPagesReadsPageParam(links, base, [], o.page, post);
  }
}
