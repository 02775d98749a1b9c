/**
 * Entry listing in the `jetbrains-junie` client (entries.go): the query
 * string built from `EntryOptions`, the id guard of `GetEntriesByIDs`, and
 * the wrappers that set one option on the caller's options before listing.
 */
module JunieEntries {
  import opened GoText
  import opened HttpModel
  import opened IdLists
  import opened JuniePagination
  import opened JunieClient

  const MaxQueryIds: nat := 100
  const EntriesPath: string := "/entries.json"

  /** The fields of `EntryOptions` (with its embedded `PageOptions`) at one moment. */
  datatype OptionsValue = OptionsValue(
    page: int, perPage: int, since: string,
    read: Option<bool>, starred: Option<bool>, ids: seq<int>, mode: string,
    includeOriginal: bool, includeEnclosure: bool, includeContentDiff: bool)

  /** `EntryOptions{}`. */
  const ZeroOptions: OptionsValue := OptionsValue(0, 0, "", None, None, [], "", false, false, false)

  /** The filter parameters, after the page parameters: `read`, `starred`, then `ids` joined with ",". */
  function FilterParams(read: Option<bool>, starred: Option<bool>, ids: seq<int>): seq<string>
  {
    (if read.Some? then ["read=" + FormatBool(read.value)] else [])
    + (if starred.Some? then ["starred=" + FormatBool(starred.value)] else [])
    + (if |ids| > 0 then ["ids=" + IdsValue(ids)] else [])
  }

  /** The detail parameters, last: `mode`, then each `include_*` flag that is set. */
  function DetailParams(mode: string, original: bool, enclosure: bool, contentDiff: bool): seq<string>
  {
    (if mode != "" then ["mode=" + mode] else [])
    + (if original then ["include_original=true"] else [])
    + (if enclosure then ["include_enclosure=true"] else [])
    + (if contentDiff then ["include_content_diff=true"] else [])
  }

  /** Every parameter of the options, in the order `addEntryParams` appends them. */
  function EntryParams(v: OptionsValue): seq<string>
  {
    PageParams(v.page, v.perPage, v.since)
    + FilterParams(v.read, v.starred, v.ids)
    + DetailParams(v.mode, v.includeOriginal, v.includeEnclosure, v.includeContentDiff)
  }

  /** An option contributes nothing exactly when it holds its zero value (or, for numbers, is not positive). */
  predicate Unset(v: OptionsValue)
  {
    v.page <= 0 && v.perPage <= 0 && v.since == "" && v.read.None? && v.starred.None? && |v.ids| == 0
    && v.mode == "" && !v.includeOriginal && !v.includeEnclosure && !v.includeContentDiff
  }

  /** The options add no parameter, leaving the URL unchanged, exactly when none is set. */
  lemma NoParamsIffUnset(v: OptionsValue)
    ensures |EntryParams(v)| == 0 <==> Unset(v)
  {
  }

  /** No parameter holds '&'. */
  predicate Plain(ps: seq<string>)
  {
    forall i :: 0 <= i < |ps| ==> '&' !in ps[i]
  }

  lemma PlainConcat(a: seq<string>, b: seq<string>)
    requires Plain(a) && Plain(b)
    ensures Plain(a + b)
  {
    assert forall i :: |a| <= i < |a + b| ==> (a + b)[i] == b[i - |a|];
  }

  lemma ItoaPlain(n: int)
    ensures '&' !in Itoa(n)
  {
    var r := Itoa(n);
    assert forall j :: 0 <= j < |r| ==> r[j] == '-' || IsDigit(r[j]);
  }

  lemma PageParamsPlain(page: int, perPage: int, since: string)
    requires '&' !in since
    ensures Plain(PageParams(page, perPage, since))
  {
    ItoaPlain(page);
    ItoaPlain(perPage);
  }

  lemma FilterParamsPlain(read: Option<bool>, starred: Option<bool>, ids: seq<int>)
    ensures Plain(FilterParams(read, starred, ids))
  {
    var a := if read.Some? then ["read=" + FormatBool(read.value)] else [];
    var b := if starred.Some? then ["starred=" + FormatBool(starred.value)] else [];
    var c := if |ids| > 0 then ["ids=" + IdsValue(ids)] else [];
    BoolParamPlain("read=", read);
    BoolParamPlain("starred=", starred);
    IdsParamPlain(ids);
    PlainConcat(a, b);
    PlainConcat(a + b, c);
  }

  lemma BoolParamPlain(key: string, b: Option<bool>)
    requires '&' !in key
    ensures Plain(if b.Some? then [key + FormatBool(b.value)] else [])
  {
    if b.Some? {
      assert '&' !in FormatBool(b.value);
    }
  }

  lemma IdsParamPlain(ids: seq<int>)
    ensures Plain(if |ids| > 0 then ["ids=" + IdsValue(ids)] else [])
  {
    var d := Decimals(ids);
    forall k | 0 <= k < |d|
      ensures '&' !in d[k]
    {
      ItoaPlain(ids[k]);
    }
    JoinPlain(d, ",", '&');
  }

  lemma DetailParamsPlain(mode: string, original: bool, enclosure: bool, contentDiff: bool)
    requires '&' !in mode
    ensures Plain(DetailParams(mode, original, enclosure, contentDiff))
  {
  }

  lemma ParamsPlain(v: OptionsValue)
    requires '&' !in v.since && '&' !in v.mode
    ensures Plain(EntryParams(v))
  {
    var a := PageParams(v.page, v.perPage, v.since);
    var b := FilterParams(v.read, v.starred, v.ids);
    var c := DetailParams(v.mode, v.includeOriginal, v.includeEnclosure, v.includeContentDiff);
    PageParamsPlain(v.page, v.perPage, v.since);
    FilterParamsPlain(v.read, v.starred, v.ids);
    DetailParamsPlain(v.mode, v.includeOriginal, v.includeEnclosure, v.includeContentDiff);
    PlainConcat(a, b);
    PlainConcat(a + b, c);
  }

  lemma {:induction false} JoinPlain(parts: seq<string>, sep: string, c: char)
    requires c !in sep
    requires forall i :: 0 <= i < |parts| ==> c !in parts[i]
    ensures c !in Join(parts, sep)
  {
    if |parts| > 1 {
      JoinPlain(parts[1..], sep, c);
    }
  }

  /**
   * When neither `since` nor `mode` holds '&', the query written after the
   * URL splits back at '&' into the parameters, among them the `ids`
   * parameter, whose value `IdsValueRoundTrip` reads back into the ids.
   */
  lemma EntryQueryReadsBack(url: string, v: OptionsValue)
    requires !Unset(v)
    requires '&' !in v.since && '&' !in v.mode
    ensures Split(WithParams(url, EntryParams(v))[|url| + 1..], '&') == EntryParams(v)
    ensures |v.ids| > 0 ==> "ids=" + IdsValue(v.ids) in EntryParams(v)
  {
    NoParamsIffUnset(v);
    ParamsPlain(v);
    WithParamsSplitsBack(url, EntryParams(v));
    if |v.ids| > 0 {
      IdsParamPresent(v);
    }
  }

  lemma IdsParamPresent(v: OptionsValue)
    requires |v.ids| > 0
    ensures "ids=" + IdsValue(v.ids) in EntryParams(v)
  {
    var p := PageParams(v.page, v.perPage, v.since);
    var f := FilterParams(v.read, v.starred, v.ids);
    assert f[|f| - 1] == "ids=" + IdsValue(v.ids);
    assert EntryParams(v)[|p| + |f| - 1] == f[|f| - 1];
  }

  /** `read`, `starred` and `ids`, appended one by one; the ids rendered by the loop of entries.go. */
  method FilterParamList(read: Option<bool>, starred: Option<bool>, ids: seq<int>) returns (params: seq<string>)
    ensures params == FilterParams(read, starred, ids)
  {
    params := [];
    if read.Some? {
      params := params + ["read=" + FormatBool(read.value)];
    }
    if starred.Some? {
      params := params + ["starred=" + FormatBool(starred.value)];
    }
    if |ids| > 0 {
      var idStrs := FormatIds(ids);
      params := params + ["ids=" + Join(idStrs, ",")];
    }
  }

  /** `mode` and the three `include_*` flags, appended one by one. */
  method DetailParamList(mode: string, original: bool, enclosure: bool, contentDiff: bool) returns (params: seq<string>)
    ensures params == DetailParams(mode, original, enclosure, contentDiff)
  {
    params := [];
    if mode != "" {
      params := params + ["mode=" + mode];
    }
    if original {
      params := params + ["include_original=true"];
    }
    if enclosure {
      params := params + ["include_enclosure=true"];
    }
    if contentDiff {
      params := params + ["include_content_diff=true"];
    }
  }

  /** `EntryOptions`, which the wrappers below change in place. */
  class EntryOptions {
    var page: int
    var perPage: int
    var since: string
    var read: Option<bool>
    var starred: Option<bool>
    var ids: seq<int>
    var mode: string
    var includeOriginal: bool
    var includeEnclosure: bool
    var includeContentDiff: bool

    /** `&EntryOptions{}`. */
    constructor ()
      ensures Value() == ZeroOptions
    {
      page := 0;
      perPage := 0;
      since := "";
      read := None;
      starred := None;
      ids := [];
      mode := "";
      includeOriginal := false;
      includeEnclosure := false;
      includeContentDiff := false;
    }

    function Value(): OptionsValue
      reads this
    {
      OptionsValue(page, perPage, since, read, starred, ids, mode, includeOriginal, includeEnclosure, includeContentDiff)
    }
  }

  /** `addEntryParams`: the URL unchanged without options, else with their parameters appended. */
  method AddEntryParams(url: string, options: EntryOptions?) returns (r: string)
    ensures options == null ==> r == url
    ensures options != null ==> r == WithParams(url, EntryParams(options.Value()))
  {
    if options == null {
      return url;
    }
    var pageParams := PageParamList(options.page, options.perPage, options.since);
    var filterParams := FilterParamList(options.read, options.starred, options.ids);
    var detailParams := DetailParamList(options.mode, options.includeOriginal, options.includeEnclosure, options.includeContentDiff);
    var params := pageParams + filterParams + detailParams;
    if |params| == 0 {
      return url;
    }
    if '?' in url {
      return url + "&" + Join(params, "&");
    }
    return url + "?" + Join(params, "&");
  }

  /** `GetEntries` up to the request it sends: a GET of /entries.json with the options' query. */
  method GetEntries(client: Client, options: EntryOptions?) returns (req: Request)
    ensures req.verb == "GET" && req.body.None?
    ensures options == null ==> req.url == client.baseUrl + EntriesPath
    ensures options != null ==> req.url == client.baseUrl + WithParams(EntriesPath, EntryParams(options.Value()))
    ensures Get(req.header, "If-None-Match") == client.lastETag
  {
    var path := AddEntryParams(EntriesPath, options);
    req := client.NewRequest("GET", path, None);
  }

  /** The caller's options, or fresh zero options in their place when there are none. */
  method OptionsOrZero(options: EntryOptions?) returns (o: EntryOptions)
    ensures options != null ==> o == options
    ensures options == null ==> fresh(o) && o.Value() == ZeroOptions
  {
    if options == null {
      o := new EntryOptions();
    } else {
      o := options;
    }
  }

  /**
   * `GetEntriesByIDs` up to its request: no ids, or more than 100, is an
   * error before anything else happens; otherwise the ids are written into
   * the caller's options (or fresh ones) and the entries listed with them.
   */
  method GetEntriesByIds(client: Client, ids: seq<int>, options: EntryOptions?)
    returns (used: EntryOptions?, req: Result<Request, string>)
    modifies options
    ensures |ids| == 0 ==> req == Err("no entry IDs provided")
    ensures |ids| > MaxQueryIds ==> req == Err("maximum of 100 entry IDs allowed")
    ensures req.Err? ==> used == null && (options != null ==> options.Value() == old(options.Value()))
    ensures req.Ok? <==> 0 < |ids| <= MaxQueryIds
    ensures req.Ok? ==> used != null && (options != null ==> used == options) && (options == null ==> fresh(used))
    ensures req.Ok? ==> used.Value() == (if options == null then ZeroOptions else old(options.Value())).(ids := ids)
    ensures req.Ok? ==> req.value.url == client.baseUrl + WithParams(EntriesPath, EntryParams(used.Value()))
  {
    if |ids| == 0 {
      return null, Err("no entry IDs provided");
    }
    if |ids| > MaxQueryIds {
      return null, Err("maximum of 100 entry IDs allowed");
    }
    var o := OptionsOrZero(options);
    o.ids := ids;
    var r := GetEntries(client, o);
    return o, Ok(r);
  }

  /** `GetUnreadEntries`: `read` set to false on the caller's options (or fresh ones), then listed. */
  method GetUnreadEntries(client: Client, options: EntryOptions?) returns (used: EntryOptions, req: Request)
    modifies options
    ensures options != null ==> used == options
    ensures options == null ==> fresh(used)
    ensures used.Value() == (if options == null then ZeroOptions else old(options.Value())).(read := Some(false))
    ensures req.url == client.baseUrl + WithParams(EntriesPath, EntryParams(used.Value()))
  {
    used := OptionsOrZero(options);
    used.read := Some(false);
    req := GetEntries(client, used);
  }

  /** `GetStarredEntries`: `starred` set to true, then listed. */
  method GetStarredEntries(client: Client, options: EntryOptions?) returns (used: EntryOptions, req: Request)
    modifies options
    ensures options != null ==> used == options
    ensures options == null ==> fresh(used)
    ensures used.Value() == (if options == null then ZeroOptions else old(options.Value())).(starred := Some(true))
    ensures req.url == client.baseUrl + WithParams(EntriesPath, EntryParams(used.Value()))
  {
    used := OptionsOrZero(options);
    used.starred := Some(true);
    req := GetEntries(client, used);
  }

  /** `GetEntriesSince`, given the time already formatted: `since` set to it, then listed. */
  method GetEntriesSince(client: Client, since: string, options: EntryOptions?) returns (used: EntryOptions, req: Request)
    modifies options
    ensures options != null ==> used == options
    ensures options == null ==> fresh(used)
    ensures used.Value() == (if options == null then ZeroOptions else old(options.Value())).(since := since)
    ensures req.url == client.baseUrl + WithParams(EntriesPath, EntryParams(used.Value()))
  {
    used := OptionsOrZero(options);
    used.since := since;
    req := GetEntries(client, used);
  }

  /** `GetEntriesExtended`: `mode` set to "extended", then listed. */
  method GetEntriesExtended(client: Client, options: EntryOptions?) returns (used: EntryOptions, req: Request)
    modifies options
    ensures options != null ==> used == options
    ensures options == null ==> fresh(used)
    ensures used.Value() == (if options == null then ZeroOptions else old(options.Value())).(mode := "extended")
    ensures req.url == client.baseUrl + WithParams(EntriesPath, EntryParams(used.Value()))
  {
    used := OptionsOrZero(options);
    used.mode := "extended";
    req := GetEntries(client, used);
  }

  /** `GetEntriesWithOriginal`: `include_original` set, then listed. */
  method GetEntriesWithOriginal(client: Client, options: EntryOptions?) returns (used: EntryOptions, req: Request)
    modifies options
    ensures options != null ==> used == options
    ensures options == null ==> fresh(used)
    ensures used.Value() == (if options == null then ZeroOptions else old(options.Value())).(includeOriginal := true)
    ensures req.url == client.baseUrl + WithParams(EntriesPath, EntryParams(used.Value()))
  {
    used := OptionsOrZero(options);
    used.includeOriginal := true;
    req := GetEntries(client, used);
  }

  /** `GetEntriesWithEnclosure`: `include_enclosure` set, then listed. */
  method GetEntriesWithEnclosure(client: Client, options: EntryOptions?) returns (used: EntryOptions, req: Request)
    modifies options
    ensures options != null ==> used == options
    ensures options == null ==> fresh(used)
    ensures used.Value() == (if options == null then ZeroOptions else old(options.Value())).(includeEnclosure := true)
    ensures req.url == client.baseUrl + WithParams(EntriesPath, EntryParams(used.Value()))
  {
    used := OptionsOrZero(options);
    used.includeEnclosure := true;
    req := GetEntries(client, used);
  }

  /** `GetEntriesWithContentDiff`: `include_content_diff` set, then listed. */
  method GetEntriesWithContentDiff(client: Client, options: EntryOptions?) returns (used: EntryOptions, req: Request)
    modifies options
    ensures options != null ==> used == options
    ensures options == null ==> fresh(used)
    ensures used.Value() == (if options == null then ZeroOptions else old(options.Value())).(includeContentDiff := true)
    ensures req.url == client.baseUrl + WithParams(EntriesPath, EntryParams(used.Value()))
  {
    used := OptionsOrZero(options);
    used.includeContentDiff := true;
    req := GetEntries(client, used);
  }

  /**
   * What the wrappers promise about the query: `GetUnreadEntries` always
   * asks for `read=false` and `GetStarredEntries` for `starred=true`,
   * whatever else the options hold.
   */
  lemma ForcedFilters(v: OptionsValue)
    ensures "read=false" in EntryParams(v.(read := Some(false)))
    ensures "starred=true" in EntryParams(v.(starred := Some(true)))
  {
    var u := v.(read := Some(false));
    assert FilterParams(u.read, u.starred, u.ids)[0] == "read=false";
    InMiddle("read=false", PageParams(u.page, u.perPage, u.since), FilterParams(u.read, u.starred, u.ids),
      DetailParams(u.mode, u.includeOriginal, u.includeEnclosure, u.includeContentDiff));
    var s := v.(starred := Some(true));
    assert "starred=" + FormatBool(true) == "starred=true";
    InMiddle("starred=true", if s.read.Some? then ["read=" + FormatBool(s.read.value)] else [], ["starred=true"],
      if |s.ids| > 0 then ["ids=" + IdsValue(s.ids)] else []);
    InMiddle("starred=true", PageParams(s.page, s.perPage, s.since), FilterParams(s.read, s.starred, s.ids),
      DetailParams(s.mode, s.includeOriginal, s.includeEnclosure, s.includeContentDiff));
  }

  lemma InMiddle(x: string, a: seq<string>, b: seq<string>, c: seq<string>)
    requires x in b
    ensures x in a + b + c
  {
    var i :| 0 <= i < |b| && b[i] == x;
    assert (a + b + c)[|a| + i] == x;
  }
}
