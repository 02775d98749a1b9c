/**
 * The HTTP exchange as the clients see it: requests they build and responses
 * they classify. Transport, bodies as streams and JSON decoding are outside
 * the model; a response arrives as a record and a decoder is a function
 * supplied by the caller.
 */
module HttpModel {
  import opened GoText

  /** Header fields by canonical name; `Get` reads a missing field as "", as `http.Header.Get` does. */
  type Header = map<string, string>

  function Get(h: Header, name: string): string
  {
    if name in h then h[name] else ""
  }

  /** `http.Header.Set` followed by reading back: the field now holds exactly `value`. */
  function Set(h: Header, name: string, value: string): (r: Header)
    ensures Get(r, name) == value
    ensures forall n :: n != name ==> Get(r, n) == Get(h, n)
  {
    h[name := value]
  }

  /**
   * A received response: status code, status line, header, body text, and
   * whether reading the body failed.
   */
  datatype Response = Response(
    statusCode: int,
    status: string,
    header: Header,
    body: string,
    bodyReadFails: bool)

  predicate Is2xx(code: int) { 200 <= code <= 299 }

  /** The JSON documents the modelled operations send. */
  datatype Payload =
    | IdList(field: string, ids: seq<int>)   // {"<field>": [ids...]}
    | FeedUrl(feedUrl: string)               // {"feed_url": "..."}
    | OtherDocument                          // a body whose encoding is not modelled

  datatype Credentials = Credentials(username: string, password: string)

  /** An outgoing request: method, URL, header, basic-auth credential and body. */
  datatype Request = Request(
    verb: string,
    url: string,
    header: Header,
    auth: Option<Credentials>,
    body: Option<Payload>)

  /**
   * The outcome of `json.NewDecoder(body).Decode(v)`: a value, `io.EOF` (the
   * body held no JSON value at all), or another decoding error.
   */
  datatype Decoded<T> = Decoded(value: T) | DecodeEOF | DecodeFailed(reason: string)

  const AcceptJson: string := "application/json"

  /**
   * A parsed URL as the query builders see it: everything before the query,
   * and the decoded query (`u.Query()`).
   */
  datatype Url = Url(base: string, query: Values)

  /** The `url.Values` of a query string: each key maps to its list of values. */
  type Values = map<string, seq<string>>

  /** The values of `key`, or `None` when the query lacks it. */
  function Lookup(q: Values, key: string): Option<seq<string>>
  {
    if key in q then Some(q[key]) else None
  }

  /** `url.Values.Set`: the key now holds exactly one value. */
  function SetValue(q: Values, key: string, value: string): (r: Values)
    ensures key in r && r[key] == [value]
    ensures forall k :: k != key ==> (k in r <==> k in q) && (k in q ==> r[k] == q[k])
  {
    q[key := [value]]
  }

  /** `if v != nil { q.Set(key, *v) }`: the key holds `v` when present, and nothing else changes. */
  function SetIfPresent(q: Values, key: string, v: Option<string>): (r: Values)
    ensures Lookup(r, key) == (if v.Some? then Some([v.value]) else Lookup(q, key))
    ensures forall k :: k != key ==> Lookup(r, k) == Lookup(q, k)
  {
    if v.Some? then q[key := [v.value]] else q
  }

  /** `url.Values.Add`: `value` is appended to the key's list. */
  function AddValue(q: Values, key: string, value: string): (r: Values)
    ensures key in r && r[key] == (if key in q then q[key] else []) + [value]
    ensures forall k :: k != key ==> (k in r <==> k in q) && (k in q ==> r[k] == q[k])
  {
    q[key := (if key in q then q[key] else []) + [value]]
  }
}
