# feedbin-api client protocol logic, in Dafny

The feedbin-api repository holds many independently written Go clients for the
Feedbin REST API, version 2. This project models the request/response protocol
logic those clients share, and proves properties of it:

- reading the `Link` header (Web Linking, section 3 of RFC 8288) and the
  `X-Feedbin-Record-Count` header into first/prev/next/last links and a total;
- routing response statuses (2xx, 204, 300, 302, 304, 401, 403, 404, 429, 400 and
  above) to an outcome or to a typed error, and the text of those errors;
- the id-count guards on filtered reads (at most 100 ids) and on bulk
  unread/starred writes (at most 1000 ids, and an empty list as a no-op in
  some clients);
- query-string builders that emit only the options that are set, in a fixed
  order;
- the signed extract URL: lowercase hex of an HMAC-SHA1 (RFC 2104) and the
  URL-safe base64 of section 5 of RFC 4648, with or without padding;
- the conditional-request validator cache: `If-None-Match` and
  `If-Modified-Since` (sections 13.1.2 and 13.1.3 of RFC 9110), held in mutable
  client fields;
- small string utilities: `SplitIDList`, and reading the id out of a `Location` header.

Each core Go file has its own Dafny module, named after its client variant:

| module | client variant |
|---|---|
| `CursorGemini` | cursor-gemini-2.5-pro-exp-03-25 |
| `CascadeGemini` | jetbrains-cascade-gemini-2.5-pro |
| `AugmentCode` | jetbrains-augmentcode-agent-auto |
| `CascadeClaude` | jetbrains-cascade-claude3.7-thinking |
| `ClaudeCode` | claude-code |
| `CursorClaude` | cursor-claude-3.7 |
| `RooCode` | vscode-roocode-claude-3.7-architect |
| `Windsurf` | windsurf-cascade-claude-3.7 |
| `Aider` | aider-claude-3.7 |

jetbrains-junie is split into `JunieClient`, `JunieErrors`, `JuniePagination`,
`JunieEntries` and `JunieBulk`, which covers unread.go and starred.go.

Shared modules model Go's standard library as these clients use it:

- `GoText`: `strings.Split/Join/Trim/TrimSpace/TrimPrefix/TrimSuffix`,
  `strconv.Itoa/Atoi` over the int64 range, and `fmt.Sscanf("%d")`.
- `HttpModel`: requests, responses, headers and `url.Values`.
- `LinkPattern`: the regular expression ``<([^>]+)>;\s*rel="([^"]+)"``, as a
  leftmost, non-overlapping matcher, and `page=(\d+)`.
- `LinkSegments`: the split-on-`,`-then-`;` parsers.
- `Pagination`: the first/prev/next/last record that several clients fill.
- `Encoding`: UTF-8, hex and base64url.
- `IdLists`: comma-joined decimal id lists.
- `UrlRef`: `ResolveReference` against the Feedbin base URL, for a reference
  parsed as `url.Parse` does and for one taken whole as a path
  (`&url.URL{Path: p}`), with the path escaping `escape(p, encodePath)` and
  its inverse.

The model is imperative where the Go code changes state step by step:

- The junie and windsurf `Client` and junie's `EntryOptions` are classes whose
  methods update their fields.
- The loops that fill a links record, a map, a `url.Values` or a parameter list
  are `while` loops. Each is proved against a recursive specification function.
- Everything else is functions and lemmas.

JSON decoding, the HMAC and the parsing of arbitrary absolute URLs are foreign code. They enter as
function-typed parameters (`string -> Decoded<T>`, `HmacSha1`) or as the
outcome they produced (`Option<Url>`).

## Model

| member | source | states |
|---|---|---|
| UrlRef.FeedbinBaseText | feedbin-api/cursor-claude-3.7/client.go:56 | the parsed default base URL prints as `https://api.feedbin.com/v2/`, and its path is a directory with nothing to escape |
| UrlRef.Dir | feedbin-api/cursor-claude-3.7/client.go:80-86 | the part of a path up to and including its last '/' |
| UrlRef.MergeRooted | feedbin-api/cursor-claude-3.7/client.go:80-86 | a rooted reference path replaces the base path |
| UrlRef.MergeRelative | feedbin-api/cursor-claude-3.7/client.go:80-86 | a relative reference path is appended to a directory base path |
| UrlRef.QueryStart | feedbin-api/cursor-claude-3.7/client.go:80-86 | the query of a parsed reference starts at its first '?', or there is none |
| UrlRef.ResolveParsedRelative | feedbin-api/cursor-claude-3.7/client.go:80-86 | a parsed relative reference, query included, is appended to a directory base URL unchanged |
| UrlRef.ResolveParsedRooted | feedbin-api/cursor-claude-3.7/client.go:80-86 | a parsed rooted reference keeps only the base's scheme and host |
| UrlRef.EscapeByte | feedbin-api/cursor-gemini-2.5-pro-exp-03-25/client.go:196-198 | an escaped byte never contains '?' |
| UrlRef.EscapePath | feedbin-api/cursor-gemini-2.5-pro-exp-03-25/client.go:196-198 | an escaped path never contains '?' |
| UrlRef.EscapePathConcat | feedbin-api/cursor-gemini-2.5-pro-exp-03-25/client.go:196-198 | escaping distributes over concatenation |
| UrlRef.EscapePathPlain | feedbin-api/cursor-gemini-2.5-pro-exp-03-25/client.go:196-198 | a path with nothing to escape is left as it is |
| UrlRef.PlainConcat | feedbin-api/cursor-gemini-2.5-pro-exp-03-25/client.go:196-198 | two strings with nothing to escape concatenate to one with nothing to escape |
| UrlRef.QueryMarkEscaped | feedbin-api/cursor-gemini-2.5-pro-exp-03-25/client.go:196-198 | '?' is escaped as "%3F" |
| UrlRef.UnescapeEscapePath | feedbin-api/cursor-gemini-2.5-pro-exp-03-25/client.go:196-198 | unescaping an escaped path gives back its UTF-8 bytes |
| UrlRef.ResolvePathOnly | feedbin-api/cursor-gemini-2.5-pro-exp-03-25/client.go:196-198 | a reference taken whole as a path: the result is the base's scheme and host followed by a path with no '?' |
| UrlRef.ResolvePathOnlyRelative | feedbin-api/cursor-gemini-2.5-pro-exp-03-25/client.go:196-198 | a relative reference taken whole as a path is appended, escaped, to a directory base URL |
| CursorGemini.ErrorText | feedbin-api/cursor-gemini-2.5-pro-exp-03-25/models.go:19-21 | the error text contains the status code, the message and the body |
| CursorGemini.NewAPIError | feedbin-api/cursor-gemini-2.5-pro-exp-03-25/models.go:24-44 | status code and body copied unchanged; message is the JSON `message` field when non-empty, else the whole body |
| CursorGemini.SetSelectionParams | feedbin-api/cursor-gemini-2.5-pro-exp-03-25/client.go:127-142 | after the loop every query key holds exactly the old value overridden by the selection option (ids joined in order, since, page, per_page) when that option is set |
| CursorGemini.SetStateParams | feedbin-api/cursor-gemini-2.5-pro-exp-03-25/client.go:143-151 | every key is old value overridden by read/starred exactly when those pointers are set |
| CursorGemini.SetContentParams | feedbin-api/cursor-gemini-2.5-pro-exp-03-25/client.go:152-163 | every key is old value overridden by mode and the include_* flags exactly when set |
| CursorGemini.SetEntriesQuery | feedbin-api/cursor-gemini-2.5-pro-exp-03-25/client.go:125-164 | the three steps together write exactly the ListEntriesOptions parameter of each key |
| CursorGemini.AddOptions | feedbin-api/cursor-gemini-2.5-pro-exp-03-25/client.go:102-192 | fails exactly when more than 100 ids are given; otherwise keeps the URL base and sets each key to the option's value when set, leaving other keys as they were |
| CursorGemini.ParamOnlyQueryKeys | feedbin-api/cursor-gemini-2.5-pro-exp-03-25/client.go:102-192 | no key outside the fixed option-key set is ever written |
| CursorGemini.NilOptionsWriteNothing | feedbin-api/cursor-gemini-2.5-pro-exp-03-25/client.go:110-190 | a nil options pointer of any kind writes no key |
| CursorGemini.IdsParamInOrder | feedbin-api/cursor-gemini-2.5-pro-exp-03-25/client.go:137-141 | the ids value splits on "," back into the decimals of the ids, in input order |
| CursorGemini.RequestHeader | feedbin-api/cursor-gemini-2.5-pro-exp-03-25/client.go:222-227 | User-Agent and Accept always, Content-Type with the JSON type exactly when there is a body |
| CursorGemini.NewRequestAsWritten | feedbin-api/cursor-gemini-2.5-pro-exp-03-25/client.go:196-229 | as written: basic auth and the headers; the URL starts with the API origin and no '?' follows it, so no query ever reaches the server; a relative path lands under "/v2/", escaped |
| CursorGemini.NewRequest | feedbin-api/cursor-gemini-2.5-pro-exp-03-25/client.go:196-229 | corrected: the reference parsed, so a relative path (query included) is appended to the base URL unchanged; basic auth and the same headers |
| CursorGemini.QueryEscapedIntoPath | feedbin-api/cursor-gemini-2.5-pro-exp-03-25/client.go:196-198 | for `p?q` with nothing to escape in p and q, as written the URL is base + p + "%3F" + q, as intended base + p + "?" + q |
| CursorGemini.PlainPathsAgree | feedbin-api/cursor-gemini-2.5-pro-exp-03-25/client.go:196-198 | a relative path with nothing to escape gives the same request either way |
| CursorGemini.ParsePaginationHeaders | feedbin-api/cursor-gemini-2.5-pro-exp-03-25/client.go:289-324 | links are the last matched URL of each known rel; the total is the parsed count, or 0 when the count is missing or non-numeric |
| CursorGemini.HandleResponse | feedbin-api/cursor-gemini-2.5-pro-exp-03-25/client.go:248-283 | an APIError exactly for status 400 and above; no content exactly for 204; an EOF body on success is not an error; a decode error only for a failed decode |
| CursorGemini.CreateSubscriptionRequest | feedbin-api/cursor-gemini-2.5-pro-exp-03-25/client.go:397-399 | POST to subscriptions.json carrying the feed URL |
| CursorGemini.CreateSubscription | feedbin-api/cursor-gemini-2.5-pro-exp-03-25/client.go:397-430 | 201 and 302 give the decoded subscription (none for an empty body), 300 the decoded choices (none for an empty body), a body that fails to decode an error tagged with the status, any other status an APIError, a transport failure an error |
| CursorGemini.PlanBulk | feedbin-api/cursor-gemini-2.5-pro-exp-03-25/client.go:550-559 | more than 1000 ids is an error before any request; an empty list does nothing; otherwise the request names the operation's verb, path and body field with the ids, and is the same request the code as written sends |
| CursorGemini.BulkVerb | feedbin-api/cursor-gemini-2.5-pro-exp-03-25/client.go:550-705 | DELETE exactly for MarkEntriesAsRead and UnstarEntries; POST for the other four, the delete.json alternatives included |
| CursorGemini.BulkField | feedbin-api/cursor-gemini-2.5-pro-exp-03-25/client.go:550-705 | `unread_entries` exactly for the three unread operations, `starred_entries` exactly for the three starred ones |
| CursorGemini.BulkPath | feedbin-api/cursor-gemini-2.5-pro-exp-03-25/client.go:550-705 | the endpoint starts with the operation's field and is a relative path with nothing to escape |
| CursorGemini.BulkSuffix | feedbin-api/cursor-gemini-2.5-pro-exp-03-25/client.go:602-611 | the suffix (`.json` or `/delete.json`) has nothing to escape |
| CascadeGemini.ErrorText | feedbin-api/jetbrains-cascade-gemini-2.5-pro/errors.go:17-25 | exactly "HTTP n", then ": " and the message if present, else ": " and the body if present, else nothing more (prefix, suffix and length pinned) |
| CascadeGemini.ErrorTextNamesStatus | feedbin-api/jetbrains-cascade-gemini-2.5-pro/errors.go:17-25 | the status code can be read back from the error text |
| CascadeGemini.NewMultipleChoicesError | feedbin-api/jetbrains-cascade-gemini-2.5-pro/errors.go:40-45 | keeps the APIError whole; the choices are the decoded body, or empty when decoding fails |
| CascadeGemini.ChoicesErrorText | feedbin-api/jetbrains-cascade-gemini-2.5-pro/errors.go:47-49 | exactly "Multiple choices found (HTTP n): " followed by the body (prefix, suffix and length pinned) |
| CascadeGemini.CheckResponse | feedbin-api/jetbrains-cascade-gemini-2.5-pro/client.go:148-180 | no error exactly for 200-299; the error keeps the status, the body is the raw body and the message is set exactly when the body is non-empty; an unreadable body gives an empty body and a message |
| CascadeGemini.CheckResponseTextShowsBody | feedbin-api/jetbrains-cascade-gemini-2.5-pro/client.go:148-180 | the error text of a failed response contains its body |
| CascadeGemini.JoinInts | feedbin-api/jetbrains-cascade-gemini-2.5-pro/client.go:304-310 | the loop builds the decimals of the ints, in order, joined by the separator |
| CascadeGemini.Signature | feedbin-api/jetbrains-cascade-gemini-2.5-pro/client.go:313-317 | always 40 lowercase hex digits, which decode back to the HMAC of the UTF-8 secret and data |
| CascadeGemini.EncodeBase64UrlSafe | feedbin-api/jetbrains-cascade-gemini-2.5-pro/client.go:320-322 | only `A-Z a-z 0-9 - _`, never '=', and it decodes back to the UTF-8 bytes of the input |
| CascadeGemini.AddOptions | feedbin-api/jetbrains-cascade-gemini-2.5-pro/client.go:200-301 | nil or non-pointer options leave the path unchanged; an unparsable path is an error; otherwise the base is kept and the query is built afresh, so every key holds exactly what the options set and a key of the path's old query that the options do not set is gone |
| CascadeGemini.ExtractRequest | feedbin-api/jetbrains-cascade-gemini-2.5-pro/entries.go:111-142 | an empty target, username or password is an error before any request; otherwise a GET with no basic-auth credential to the signed URL |
| CascadeGemini.ExtractUrlShape | feedbin-api/jetbrains-cascade-gemini-2.5-pro/entries.go:121-134 | the URL is the extract base, the username, the signature and `?base64_url=` with the unpadded encoding of the target |
| CascadeGemini.ExtractOutcome | feedbin-api/jetbrains-cascade-gemini-2.5-pro/entries.go:154-173 | non-2xx is an APIError with the status and body; EOF on success is empty content; a failed decode is a decode error |
| Encoding.HexRoundTrip | feedbin-api/jetbrains-cascade-gemini-2.5-pro/client.go:316 | hex encoding is undone by hex decoding |
| Encoding.Hex | feedbin-api/jetbrains-cascade-gemini-2.5-pro/client.go:316 | two lowercase hex digits per byte |
| Encoding.EncodeRaw | feedbin-api/jetbrains-cascade-gemini-2.5-pro/client.go:320-322 | unpadded length ceil(4n/3), URL-safe alphabet only |
| Encoding.DecodeRawEncodeRaw | feedbin-api/jetbrains-cascade-gemini-2.5-pro/client.go:320-322 | base64url without padding decodes back to the input bytes |
| Encoding.EncodePadded | feedbin-api/jetbrains-augmentcode-agent-auto/extract.go:59 | the padded length is a multiple of 4 and starts with the unpadded encoding |
| Encoding.PaddedIsRawPlusEquals | feedbin-api/jetbrains-augmentcode-agent-auto/extract.go:59 | padding adds at most two '=' after the unpadded encoding |
| Encoding.Utf8 | feedbin-api/jetbrains-cascade-gemini-2.5-pro/client.go:314-315 | each character becomes one to four bytes, ASCII one byte of the same value |
| AugmentCode.SegmentLink | feedbin-api/jetbrains-augmentcode-agent-auto/client.go:225-238 | a link segment yields a link exactly when it splits into two ';' parts |
| AugmentCode.ParseLinkHeader | feedbin-api/jetbrains-augmentcode-agent-auto/client.go:213-254 | the loop keeps the last URL of each known rel among the segments; unknown rels are ignored |
| AugmentCode.ParsesRenderedHeader | feedbin-api/jetbrains-augmentcode-agent-auto/client.go:221-250 | on any well-formed header, splitting on ',' and ';' reads back the same links as the regular expression |
| AugmentCode.EmptyHeaderNoLinks | feedbin-api/jetbrains-augmentcode-agent-auto/client_test.go:65-69 | an empty header gives all-empty links |
| AugmentCode.NextAndLastHeader | feedbin-api/jetbrains-augmentcode-agent-auto/client_test.go:70-77 | the tested next/last header gives exactly those two fields |
| AugmentCode.AllLinksHeader | feedbin-api/jetbrains-augmentcode-agent-auto/client_test.go:78-87 | the tested four-link header gives exactly the four fields |
| AugmentCode.RecordedInOrder | feedbin-api/jetbrains-augmentcode-agent-auto/client_test.go:78-87 | four links with rels first, prev, next and last are stored field for field |
| AugmentCode.TotalRecordCount | feedbin-api/jetbrains-augmentcode-agent-auto/client.go:257-266 | a missing count gives 0, an unscannable one 0, otherwise the scanned leading integer |
| AugmentCode.TotalRecordCountOfDigits | feedbin-api/jetbrains-augmentcode-agent-auto/client.go:264 | on a plain decimal the scan agrees with `Atoi` |
| AugmentCode.CheckResponse | feedbin-api/jetbrains-augmentcode-agent-auto/client.go:188-202 | no error exactly for 2xx; the message is the body, or the status line when the body cannot be read |
| AugmentCode.ExtractUrlKeepsPadding | feedbin-api/jetbrains-augmentcode-agent-auto/extract.go:54-63 | the URL is the other client's extract URL with the base64 padding kept |
| AugmentCode.ExtractOutcome | feedbin-api/jetbrains-augmentcode-agent-auto/extract.go:82-90 | any status other than 200 is an error naming the code; an article exactly on 200 with a decodable body |
| CascadeClaude.CheckResponse | feedbin-api/jetbrains-cascade-claude3.7-thinking/client.go:189-212 | no error exactly for 2xx; 401, 403, 404 and 429 each map to their own error kind, every other code to a plain error; the status is kept |
| CascadeClaude.FailsLikeAugmentCode | feedbin-api/jetbrains-cascade-claude3.7-thinking/client.go:189-198 | fails on exactly the same responses as the augmentcode client |
| CascadeClaude.RelSegment | feedbin-api/jetbrains-cascade-claude3.7-thinking/client.go:259-274 | a segment with fewer than two ';' parts yields no link |
| CascadeClaude.ParseLinkHeader | feedbin-api/jetbrains-cascade-claude3.7-thinking/client.go:247-279 | the loop maps every rel, known or not, to its last URL; an empty header gives an empty map |
| CascadeClaude.RelMapHoldsLast | feedbin-api/jetbrains-cascade-claude3.7-thinking/client.go:275 | a rel is a key exactly when some link has it, and its value is the last such URL |
| CascadeClaude.ParsesRenderedHeader | feedbin-api/jetbrains-cascade-claude3.7-thinking/client.go:247-279 | on any well-formed header the segments read back the rendered links, and every rel becomes a key |
| CascadeClaude.PaginationOf | feedbin-api/jetbrains-cascade-claude3.7-thinking/entries.go:63-74 | the pagination record is the known rels of the link map plus the record count |
| CascadeClaude.RecordCount | feedbin-api/jetbrains-cascade-claude3.7-thinking/client.go:282-294 | missing or non-numeric count gives 0, otherwise the `Atoi` value |
| CascadeClaude.CountsAgreeOnDigits | feedbin-api/jetbrains-cascade-claude3.7-thinking/client.go:288 | on a plain decimal this count agrees with the augmentcode client's |
| CascadeClaude.CountsDifferOnTrailingText | feedbin-api/jetbrains-cascade-claude3.7-thinking/client.go:288 | on "12abc" this client gives 0 where the augmentcode client gives 12 |
| CascadeClaude.EntryParamAsPointerOptions | feedbin-api/jetbrains-cascade-claude3.7-thinking/entries.go:147-192 | every key gets the value the pointer-options builder gives for the same settings (zero values as unset) |
| CascadeClaude.ZeroOptionsWriteNothing | feedbin-api/jetbrains-cascade-claude3.7-thinking/entries.go:147-192 | zero page, per_page and since, no ids and false flags write no key |
| CascadeClaude.AddEntryOptions | feedbin-api/jetbrains-cascade-claude3.7-thinking/entries.go:135-196 | nil options leave the path unchanged; more than 100 ids is an error; otherwise the query holds exactly the set options, ids joined in order |
| ClaudeCode.PageNumber | feedbin-api/claude-code/client.go:187 | a digit run parses to its value, saturating at the int64 maximum |
| ClaudeCode.PagesSnoc | feedbin-api/claude-code/client.go:182-198 | a link without `page=N` leaves the pages unchanged; otherwise its rel's page is set |
| ClaudeCode.ParseLink | feedbin-api/claude-code/client.go:164-202 | an empty header gives nil; otherwise the loop yields the page numbers of the links' rels |
| ClaudeCode.PagesAgreeWithRecorded | feedbin-api/claude-code/client.go:173-198 | each page is the page of the last link of its rel that carries `page=N`, and the count stays 0 |
| ClaudeCode.NextAndLastPages | feedbin-api/claude-code/client_test.go:72-92 | next=...page=2 and last=...page=5 give next page 2 and last page 5 and nothing else |
| ClaudeCode.TestHeaderLinks | feedbin-api/claude-code/client_test.go:72-92 | the tested header splits back into its two links |
| ClaudeCode.GetPagination | feedbin-api/claude-code/client.go:205-217 | nil exactly without a Link header; the count is set only when it is numeric |
| ClaudeCode.AddQueryParams | feedbin-api/claude-code/client.go:229-251 | nil options leave the path unchanged; only page (when > 0) and since are written, every other key is kept |
| ClaudeCode.SplitIdList | feedbin-api/claude-code/utils.go:41-62 | empty input gives no ids; otherwise the loop keeps the readable trimmed items in input order, never more than the parts |
| ClaudeCode.UnreadablePieceDropped | feedbin-api/claude-code/utils.go:50-58 | an empty or non-numeric item adds nothing |
| ClaudeCode.SplitIdListRoundTrip | feedbin-api/claude-code/utils.go:41-62 | a joined list of int64 ids splits back into the same ids |
| CursorClaude.RecordCount | feedbin-api/cursor-claude-3.7/pagination.go:30-36 | non-numeric count gives 0, otherwise the `Atoi` value |
| CursorClaude.RecordCountRoundTrip | feedbin-api/cursor-claude-3.7/pagination.go:30-36 | the decimal of n reads back as n, a missing count as 0 |
| CursorClaude.ParseLinkHeader | feedbin-api/cursor-claude-3.7/pagination.go:21-68 | nil exactly without a Link header; otherwise the known rels of the matched links whose URL parses, and the count |
| CursorClaude.UnparsableLinkSkipped | feedbin-api/cursor-claude-3.7/pagination.go:50-53 | a matched link whose URL fails to parse changes nothing |
| CursorClaude.SetPageParams | feedbin-api/cursor-claude-3.7/pagination.go:92-101 | page and per_page are written when > 0 and since when set |
| CursorClaude.AddQueryParamsAsWritten | feedbin-api/cursor-claude-3.7/pagination.go:78-110 | as written: only page options reach the query, entry and subscription options write nothing, and a nil page pointer dereferences nil |
| CursorClaude.EntryOptionsDropped | feedbin-api/cursor-claude-3.7/pagination.go:113-124 | the ids the caller set never reach the query, though the intended builder would write them |
| CursorClaude.SetSelectionParams | feedbin-api/cursor-claude-3.7/pagination.go:125-137 | every key is old value overridden by ids, read and starred when set |
| CursorClaude.SetEntryParams | feedbin-api/cursor-claude-3.7/pagination.go:124-150 | every key is old value overridden by the entry option when set |
| CursorClaude.AddQueryParams | feedbin-api/cursor-claude-3.7/pagination.go:78-168 | corrected: every options kind writes exactly its set fields, other keys kept |
| CursorClaude.EntryParamsAgreeWithCursorGemini | feedbin-api/cursor-claude-3.7/pagination.go:124-150 | corrected entry parameters equal the cursor-gemini builder's for the same options |
| CursorClaude.EntryIdsReadBack | feedbin-api/cursor-claude-3.7/pagination.go:125-131 | the ids value splits back into the ids in order |
| CursorClaude.NewRequest | feedbin-api/cursor-claude-3.7/client.go:80-111 | a relative reference is appended to the base URL and a rooted one replaces the base path; Accept and User-Agent always; Content-Type exactly with a body |
| CursorClaude.Bulk | feedbin-api/cursor-claude-3.7/unread.go:37-109 | more than 1000 ids is ErrTooManyIDs; otherwise the request carries all the ids, even none |
| CursorClaude.EmptyListStillSent | feedbin-api/cursor-claude-3.7/unread.go:37-46 | same cap as cursor-gemini, but an empty list is sent where cursor-gemini does nothing |
| CursorClaude.ReadVariantsShareGuard | feedbin-api/cursor-claude-3.7/unread.go:62-109 | MarkAsRead and MarkAsReadAlternative reject the same lists |
| RooCode.NewRequest | feedbin-api/vscode-roocode-claude-3.7-architect/client.go:90-114 | URL is base plus path without its leading '/'; Content-Type exactly with a body |
| RooCode.LeadingSlashOptional | feedbin-api/vscode-roocode-claude-3.7-architect/client.go:91 | a path with or without one leading '/' gives the same URL |
| RooCode.SameUrlsAsOtherClients | feedbin-api/vscode-roocode-claude-3.7-architect/client.go:91 | the URL agrees with the cursor-gemini and junie clients' |
| RooCode.ParsePaginationLinks | feedbin-api/vscode-roocode-claude-3.7-architect/client.go:149-181 | empty header gives no links; otherwise the last URL of each known rel |
| RooCode.FirstPageHeader | feedbin-api/vscode-roocode-claude-3.7-architect/entries_test.go:126-139 | the page-1 header sets first, next and last and leaves prev empty |
| RooCode.SecondPageHeader | feedbin-api/vscode-roocode-claude-3.7-architect/entries_test.go:174-186 | the page-2 header sets first and prev and leaves next and last empty |
| RooCode.TotalRecords | feedbin-api/vscode-roocode-claude-3.7-architect/client.go:184-190 | empty gives 0; otherwise success exactly when `Atoi` succeeds, with its value |
| RooCode.NonNumericRecordsFail | feedbin-api/vscode-roocode-claude-3.7-architect/client.go:189 | a count ending in a non-digit is an error |
| RooCode.TotalRecordsRoundTrip | feedbin-api/vscode-roocode-claude-3.7-architect/client.go:189 | the decimal of n reads back as n |
| RooCode.TotalRecordsAgreeWithJunie | feedbin-api/vscode-roocode-claude-3.7-architect/client.go:184-190 | same result as the junie client on every header |
| RooCode.NewApiError | feedbin-api/vscode-roocode-claude-3.7-architect/errors.go:17-25 | status code and body copied; the message is "API error: " followed by the status line |
| RooCode.Do | feedbin-api/vscode-roocode-claude-3.7-architect/client.go:117-138 | an API error exactly for non-2xx; success exactly when the body decodes |
| RooCode.FormatChoices | feedbin-api/vscode-roocode-claude-3.7-architect/subscriptions.go:95 | the listing is bracketed, and "[]" for no choices |
| RooCode.ChoiceListed | feedbin-api/vscode-roocode-claude-3.7-architect/subscriptions.go:85-96 | every parsed choice appears in the error text |
| RooCode.MultipleChoicesText | feedbin-api/vscode-roocode-claude-3.7-architect/subscriptions.go:85-96 | lists the choices when they parse, otherwise reports the parse error |
| RooCode.ParseInt | feedbin-api/vscode-roocode-claude-3.7-architect/subscriptions.go:161-165 | text without digits gives 0 |
| RooCode.ParseIntItoa | feedbin-api/vscode-roocode-claude-3.7-architect/subscriptions.go:161-165 | the decimal of n reads back as n |
| RooCode.LocationId | feedbin-api/vscode-roocode-claude-3.7-architect/subscriptions.go:110-116 | a value without '/' is read whole, with ".json" trimmed |
| RooCode.LastSegmentDecides | feedbin-api/vscode-roocode-claude-3.7-architect/subscriptions.go:110-116 | the id depends only on the last '/' segment, with ".json" trimmed |
| RooCode.LocationIdReadsBack | feedbin-api/vscode-roocode-claude-3.7-architect/subscriptions.go:110-116 | `.../n.json` and `.../n` both give n |
| RooCode.LocationWithoutDigits | feedbin-api/vscode-roocode-claude-3.7-architect/subscriptions.go:110-116 | a last segment without digits gives 0 |
| RooCode.LocationOfGetUrl | feedbin-api/vscode-roocode-claude-3.7-architect/subscriptions.go:110-119 | the Location of subscription n's own URL gives n back |
| RooCode.FromLocation | feedbin-api/vscode-roocode-claude-3.7-architect/subscriptions.go:104-119 | an empty Location is an error, any other a fetch of the id |
| RooCode.CreateAsWritten | feedbin-api/vscode-roocode-claude-3.7-architect/subscriptions.go:71-123 | as written: 300 lists the choices, other non-2xx are API errors, a subscription exactly when 2xx decodes |
| RooCode.ExistingNeverFetched | feedbin-api/vscode-roocode-claude-3.7-architect/subscriptions.go:82-102 | as written, no response ever reaches the fetch-existing branch; 302 is an API error |
| RooCode.Create | feedbin-api/vscode-roocode-claude-3.7-architect/subscriptions.go:101-120 | corrected: 302 follows the Location, every other status as written |
| RooCode.ExistingFetched | feedbin-api/vscode-roocode-claude-3.7-architect/subscriptions.go:102-119 | corrected: a 302 with Location `.../n.json` fetches subscription n; an empty Location is an error |
| JunieClient.Client.constructor | feedbin-api/jetbrains-junie/client.go:57-80 | default base URL, the credentials, no validators yet |
| JunieClient.Client.NewRequest | feedbin-api/jetbrains-junie/client.go:83-121 | Accept always, Content-Type exactly with a body, If-None-Match exactly when an ETag is held and If-Modified-Since exactly when a date is held, carrying them |
| JunieClient.Client.Do | feedbin-api/jetbrains-junie/client.go:125-159 | each validator is replaced by a non-empty response header, even on errors; 400 and above is an APIError; 204 and 304 never decode |
| JunieClient.Client.CheckAuth | feedbin-api/jetbrains-junie/client.go:162-175 | true exactly for status 200 |
| JunieClient.Client.Revalidate | feedbin-api/jetbrains-junie/client.go:112-149 | the next request carries the validators the last response sent, or the old ones when it sent none |
| JunieErrors.ErrorText | feedbin-api/jetbrains-junie/errors.go:25-30 | the status text, plus ": message" exactly when the message is non-empty |
| JunieErrors.NewAPIError | feedbin-api/jetbrains-junie/errors.go:33-39 | copies status code and status text |
| JunieErrors.IsNotFound | feedbin-api/jetbrains-junie/errors.go:41-47 | holds only for an APIError (with `PredicatesClassify`: exactly for status 404) |
| JunieErrors.IsUnauthorized | feedbin-api/jetbrains-junie/errors.go:49-55 | holds only for an APIError (with `PredicatesClassify`: exactly for status 401) |
| JunieErrors.IsForbidden | feedbin-api/jetbrains-junie/errors.go:57-63 | holds only for an APIError (with `PredicatesClassify`: exactly for status 403) |
| JunieErrors.IsMultipleChoices | feedbin-api/jetbrains-junie/errors.go:65-71 | holds only for an APIError (with `PredicatesClassify`: exactly for status 300) |
| JunieErrors.PredicatesClassify | feedbin-api/jetbrains-junie/errors.go:42-71 | each predicate holds exactly for an APIError with 404, 401, 403 or 300; a non-APIError satisfies none; at most one holds |
| JunieErrors.ResponseErrorTextIsStatus | feedbin-api/jetbrains-junie/errors.go:25-39 | a response's error text is the status text |
| JuniePagination.ParseLinkHeader | feedbin-api/jetbrains-junie/pagination.go:12-45 | nil exactly without a Link header; otherwise the last URL of each known rel |
| JuniePagination.ParseNumber | feedbin-api/jetbrains-junie/pagination.go:58-60 | succeeds exactly when `Atoi` does, with its value |
| JuniePagination.TotalPagesAsWritten | feedbin-api/jetbrains-junie/pagination.go:48-61 | as written: 0 for no links or no last link; any other result is a nonnegative number read after the first "page=" |
| JuniePagination.TotalPages | feedbin-api/jetbrains-junie/pagination.go:48-61 | corrected: 0 for no links or no last link, otherwise the value of the `page` query parameter |
| JuniePagination.TotalPagesReadsPageParam | feedbin-api/jetbrains-junie/pagination.go:48-61 | a last link whose query has `page=n` among other parameters gives n |
| JuniePagination.TotalPagesAgreeWhenPageLeads | feedbin-api/jetbrains-junie/pagination.go:48-61 | when `page` is the first parameter the code as written and the corrected one agree |
| JuniePagination.PerPageReadAsPageCount | feedbin-api/jetbrains-junie/pagination.go:54-60 | as written, `?per_page=P&page=N` gives P, where the corrected reading gives N |
| JuniePagination.TotalRecords | feedbin-api/jetbrains-junie/pagination.go:64-71 | missing count gives 0; otherwise the `Atoi` value or an error |
| JuniePagination.TotalRecordsRoundTrip | feedbin-api/jetbrains-junie/pagination.go:64-71 | the decimal of n reads back as n |
| JuniePagination.WithParams | feedbin-api/jetbrains-junie/pagination.go:100-108 | no parameters leave the URL unchanged; otherwise the URL is extended |
| JuniePagination.WithParamsSplitsBack | feedbin-api/jetbrains-junie/pagination.go:104-108 | '&' after a URL with '?', '?' otherwise, and the tail splits back into the parameters |
| JuniePagination.PageParamList | feedbin-api/jetbrains-junie/pagination.go:86-98 | page and per_page when > 0 and since when non-empty, in that order |
| JuniePagination.AddPageParams | feedbin-api/jetbrains-junie/pagination.go:81-109 | nil options leave the URL unchanged; otherwise the page parameters are appended with the right separator |
| JuniePagination.PageParamsReadBack | feedbin-api/jetbrains-junie/pagination.go:81-109 | reading the total pages of a URL built with page p gives p |
| JunieEntries.NoParamsIffUnset | feedbin-api/jetbrains-junie/entries.go:185-232 | no parameter exactly when every option has its zero value |
| JunieEntries.FilterParamList | feedbin-api/jetbrains-junie/entries.go:198-212 | read and starred when set, ids joined in order when non-empty |
| JunieEntries.DetailParamList | feedbin-api/jetbrains-junie/entries.go:214-228 | mode when non-empty, then the include_* flags as "true" when set |
| JunieEntries.IdsParamPresent | feedbin-api/jetbrains-junie/entries.go:206-212 | non-empty ids always give the `ids=` parameter |
| JunieEntries.EntryQueryReadsBack | feedbin-api/jetbrains-junie/entries.go:230-238 | the query splits back into the parameters, in their fixed order |
| JunieEntries.EntryOptions.constructor | feedbin-api/jetbrains-junie/entries.go:96-98 | new options hold every zero value |
| JunieEntries.AddEntryParams | feedbin-api/jetbrains-junie/entries.go:177-239 | nil options leave the URL unchanged; otherwise the parameters are appended with the right separator |
| JunieEntries.GetEntries | feedbin-api/jetbrains-junie/entries.go:30-46 | a GET of entries.json with the options' parameters and the held validators |
| JunieEntries.GetEntriesByIds | feedbin-api/jetbrains-junie/entries.go:87-102 | no ids and more than 100 ids are errors that leave the options untouched; otherwise the ids are written into the caller's options |
| JunieEntries.GetUnreadEntries | feedbin-api/jetbrains-junie/entries.go:105-113 | forces read=false into the caller's options, nothing else changed |
| JunieEntries.GetStarredEntries | feedbin-api/jetbrains-junie/entries.go:116-124 | forces starred=true into the caller's options, nothing else changed |
| JunieEntries.GetEntriesSince | feedbin-api/jetbrains-junie/entries.go:127-134 | sets since in the caller's options, nothing else changed |
| JunieEntries.GetEntriesExtended | feedbin-api/jetbrains-junie/entries.go:137-144 | sets mode=extended, nothing else changed |
| JunieEntries.GetEntriesWithOriginal | feedbin-api/jetbrains-junie/entries.go:147-154 | sets include_original, nothing else changed |
| JunieEntries.GetEntriesWithEnclosure | feedbin-api/jetbrains-junie/entries.go:157-164 | sets include_enclosure, nothing else changed |
| JunieEntries.GetEntriesWithContentDiff | feedbin-api/jetbrains-junie/entries.go:167-174 | sets include_content_diff, nothing else changed |
| JunieEntries.ForcedFilters | feedbin-api/jetbrains-junie/entries.go:105-124 | the forced read=false and starred=true always reach the query |
| JunieBulk.GuardIds | feedbin-api/jetbrains-junie/unread.go:36-44 | an empty list is skipped, more than 1000 rejected, 1 to 1000 (1000 included) proceed |
| JunieBulk.RejectionText | feedbin-api/jetbrains-junie/unread.go:40-44 | the rejection's text is the fixed "maximum of 1,000" message |
| JunieBulk.Bulk | feedbin-api/jetbrains-junie/starred.go:35-117 | the guard decides before any request; a sent request posts or deletes the ids under unread_entries or starred_entries |
| JunieBulk.GuardsAgreeWithCursorGemini | feedbin-api/jetbrains-junie/unread.go:35-117 | same skip/reject/send decisions and body as cursor-gemini; only the rejection message differs |
| JunieBulk.SameEndpoints | feedbin-api/jetbrains-junie/unread.go:46 | the endpoints are the same URLs as cursor-gemini's |
| Windsurf.ErrorText | feedbin-api/windsurf-cascade-claude-3.7/client.go:141-143 | "feedbin: code - message" |
| Windsurf.CheckResponse | feedbin-api/windsurf-cascade-claude-3.7/client.go:146-157 | no error exactly for 2xx; otherwise an error with the code and the message "API request failed with status code: " followed by the code in decimal |
| Windsurf.CheckResponseByCodeOnly | feedbin-api/windsurf-cascade-claude-3.7/client.go:151-156 | the error depends on the status code alone |
| Windsurf.CodeInMessage | feedbin-api/windsurf-cascade-claude-3.7/client.go:151-156 | the code reads back from the message |
| Windsurf.NotModifiedIsError | feedbin-api/windsurf-cascade-claude-3.7/client.go:146-157 | a 304 is an error with code 304 like any other non-2xx status |
| Windsurf.ParsedUrl | feedbin-api/windsurf-cascade-claude-3.7/client.go:56-60 | as written: a relative path lands under the base path, a path starting with '/' replaces it |
| Windsurf.RootedPathDropsVersion | feedbin-api/windsurf-cascade-claude-3.7/client.go:56-60 | as written, "/" + p gives `https://api.feedbin.com/` + p, which is not the API URL base + p |
| Windsurf.StripSlashes | feedbin-api/windsurf-cascade-claude-3.7/client.go:56-60 | the result is the path after its leading '/'s, and is relative |
| Windsurf.ApiUrl | feedbin-api/windsurf-cascade-claude-3.7/client.go:56-60 | corrected: the base URL followed by the path without its leading '/'s |
| Windsurf.ApiUrlKeepsVersion | feedbin-api/windsurf-cascade-claude-3.7/client.go:56-60 | with or without a leading '/', a path names the same URL, base + path |
| Windsurf.Client.constructor | feedbin-api/windsurf-cascade-claude-3.7/client.go:44-53 | default base URL, the credentials, no validators |
| Windsurf.Client.Headers | feedbin-api/windsurf-cascade-claude-3.7/client.go:77-91 | only the five known headers; If-None-Match and If-Modified-Since exactly when held, carrying them; Content-Type exactly with a body |
| Windsurf.Client.NewRequest | feedbin-api/windsurf-cascade-claude-3.7/client.go:56-95 | the corrected URL, basic auth, and the headers of `Headers` |
| Windsurf.Client.Do | feedbin-api/windsurf-cascade-claude-3.7/client.go:98-129 | validators are stored from non-empty headers before the status is checked; non-2xx is the CheckResponse error |
| Windsurf.Client.ConditionalRound | feedbin-api/windsurf-cascade-claude-3.7/client.go:86-129 | a 304 answer to a conditional request is an error with code 304, and its validators are still kept |
| Aider.Do | feedbin-api/aider-claude-3.7/client.go:87-116 | non-2xx is an error naming the status and the body when there is one; 204 skips decoding |
| Aider.AiderSegment | feedbin-api/aider-claude-3.7/client.go:124-137 | no link exactly when the trimmed segment has fewer than two ';' parts |
| Aider.GetPaginationLinks | feedbin-api/aider-claude-3.7/client.go:119-142 | the loop maps each rel to its last URL; no header gives an empty map |
| Aider.LinkMapKeys | feedbin-api/aider-claude-3.7/client.go:119-142 | a rel is a key exactly when some link carries it |
| Aider.LinkMapAgreesWithRecorded | feedbin-api/aider-claude-3.7/client.go:119-142 | for the four known rels the map agrees with the other clients' links record |
| Aider.UnquotedRelTrimmed | feedbin-api/aider-claude-3.7/client.go:130-137 | trimming "rel=" as a character set also eats leading r, e, l and = of an unquoted rel |
| Aider.TestHeaderLinks | feedbin-api/aider-claude-3.7/client_test.go:103-118 | the tested next/last header under `Link` gives exactly those two entries |
| Aider.TotalCount | feedbin-api/aider-claude-3.7/client.go:145-157 | empty or non-numeric gives 0, otherwise the `Atoi` value |
| Aider.TotalCountRoundTrip | feedbin-api/aider-claude-3.7/client.go:146-154 | the decimal of n reads back as n |
| Aider.FortyTwo | feedbin-api/aider-claude-3.7/client_test.go:120-132 | "42" gives 42 |
| Aider.TotalCountAgreesWithCursorClaude | feedbin-api/aider-claude-3.7/client.go:145-157 | same count as cursor-claude on every header |
| Pagination.CollectKnownRels | feedbin-api/cursor-gemini-2.5-pro-exp-03-25/client.go:296-311 | the loop stores the last kept URL of each known rel |
| Pagination.ParseLinkValues | feedbin-api/cursor-gemini-2.5-pro-exp-03-25/client.go:293-312 | the regex matches, recorded by rel |
| Pagination.UnknownRelIgnored | feedbin-api/cursor-gemini-2.5-pro-exp-03-25/client.go:300-309 | a link with an unknown rel changes nothing |
| Pagination.LaterLinkOverwrites | feedbin-api/cursor-gemini-2.5-pro-exp-03-25/client.go:300-309 | a later link of a known rel replaces only that rel's URL |
| Pagination.LastUrlForSetIff | feedbin-api/cursor-gemini-2.5-pro-exp-03-25/client.go:300-309 | a rel's URL is set exactly when some kept link has it, and it is the last such |
| Pagination.NoMatchesNoLinks | feedbin-api/cursor-gemini-2.5-pro-exp-03-25/client.go:294 | no matches give all-empty links |
| LinkPattern.FindAllRenderAll | feedbin-api/cursor-gemini-2.5-pro-exp-03-25/client.go:287-295 | the regular expression reads back exactly the links a well-formed header was written from |
| LinkPattern.QueryPageAnchored | feedbin-api/jetbrains-junie/pagination.go:54 | the anchored page reader finds the digits of a `page` parameter |

## Left out

- HTTP transport, redirects, context cancellation and reading the body are left out. A response is a record of status code, status line, headers, body and whether the body could be read.
- encoding/json is a parameter, because it is foreign code. That covers encoding request bodies, decoding responses, and the JSON `message` and `choices` fields.
- The SHA-1 and HMAC internals are a parameter, because they are foreign code. Only the hex rendering and the URL composition are modelled.
- `url.Values.Encode` is left out. The query builders state their results on the `url.Values` map, before sorting and escaping.
- `UrlRef` models `ResolveReference` only as far as these clients use it: a base whose path is a directory, and a reference that is either parsed (`url.Parse`) or taken whole as a path. Removal of "." and ".." segments, `#` fragments, references with a scheme or a host, and the errors `url.Parse` reports are left out.
- UrlRef.ResolveParsed: the path part of a parsed reference is kept as written. The re-escaping `String()` applies to characters a path may not hold (a space, say) is not modelled; `ResolvePathOnly` models that escaping for the references taken whole as a path.
- JunieClient.Client.NewRequest: `url.Parse(c.BaseURL + path)` followed by `String()` is modelled as the concatenation itself, so its parse errors and normalisation are left out.
- CascadeGemini.ExtractUrl: the signed reference is appended to the extract base as text. A username with characters a path may not hold (escaped by `ResolveReference`) or with a ':' before its first '/' (refused by `url.Parse`) is not modelled.
- The request URLs of Aider, ClaudeCode, AugmentCode and CascadeClaude are out of scope: only their response handling, pagination and guards are modelled. Aider resolves rooted paths such as `/entries.json` (aider-claude-3.7/entries.go:13) against a base without a trailing '/' (`https://api.feedbin.com/v2`, client.go:18), so its requests lose `/v2` (`https://api.feedbin.com/entries.json`), as windsurf's rooted paths do; AugmentCode's base is the bare host and its paths carry `/v2/` themselves.
- Time formatting and parsing is left out: `since` arrives already formatted.
- The per-resource CRUD wrappers (subscriptions, tags, taggings, saved searches, icons, imports, pages) are left out. They differ only in path and verb.
- The duplicate guard variants in the cascade-claude, roocode, cascade-gemini and aider clients and cursor-claude/starred.go are left out. They repeat the cap-only and empty-only guards modelled here.
- `io.Writer`, logging and `example` programs are left out.
- Go's nil and empty slices are not told apart: `SplitIdList` returns no ids for empty input either way.
- Error texts from `strconv.Atoi` are left out. A failed conversion carries the input text instead.
- RooCode.Do: the body is always taken whole; a failed body read is not modelled.
- Aider.Do: a body that cannot be read counts as empty, so only the status is reported. The partial bytes `io.ReadAll` may return are not modelled.
- Aider.Do: the message is kept verbatim. The source passes it to `fmt.Errorf` as a format string, which would rewrite a '%' in the status or body.
- ClaudeCode.PageNumber: only the saturation of an over-long digit run is modelled. It does not model the rest of `strconv.Atoi`'s range error.
- RooCode.FromLocation: the unreachable `len(parts) == 0` case of `strings.Split` is left out, because Go's Split never returns an empty slice.
- Aider.TestHeaderLinks: the Go test sets a `Links` header, which the code never reads. The lemma states what the test evidently meant, with the header named `Link`.
- The 300 branch of the cascade-claude subscriptions.go is left out. `decodeResponseBody` there is a stub, and `do` already fails on every non-2xx, so the branch is never reached.

## Findings

| source | as written | input that shows it | evidently intended | confidence | as-written member | corrected member |
|---|---|---|---|---|---|---|
| feedbin-api/jetbrains-junie/pagination.go:54-60 | the unanchored pattern `page=(\d+)` also matches inside `per_page=` | a last link `https://api.feedbin.com/v2/entries.json?per_page=50&page=3` gives 50 total pages | read the `page` query parameter, giving 3 | not executed | JuniePagination.PerPageReadAsPageCount | JuniePagination.TotalPagesReadsPageParam |
| feedbin-api/vscode-roocode-claude-3.7-architect/subscriptions.go:82-120 | `do` already returns an error for every status of 300 and above, so the 302 branch that reads the `Location` header is never reached | with a client that does not follow redirects (`WithHTTPClient` given an `http.Client` whose `CheckRedirect` returns `http.ErrUseLastResponse`), a 302 response with `Location: https://api.feedbin.com/v2/subscriptions/42.json` is reported as an API error; the default client of `NewClient` follows the redirect itself and never hands the 302 to `do` | fetch subscription 42 | not executed | RooCode.ExistingNeverFetched | RooCode.ExistingFetched |
| feedbin-api/cursor-claude-3.7/pagination.go:104-168 | the type switch names option types declared inside the function, so entry and subscription options never match and write nothing | `&EntryOptions{IDs: []int{1, 2}}` sends no `ids` parameter | write `ids=1,2` as cursor-gemini does | not executed | CursorClaude.EntryOptionsDropped | CursorClaude.EntryParamsAgreeWithCursorGemini |
| feedbin-api/cursor-gemini-2.5-pro-exp-03-25/client.go:196-198 | `&url.URL{Path: path}` takes the whole string `addOptions` built as a path, so its '?' is escaped as `%3F` and the query becomes part of the path | `ListEntries` with `Page` set to 2 builds `entries.json?page=2` and requests `https://api.feedbin.com/v2/entries.json%3Fpage=2` | parse the reference, so that the query stays a query: `https://api.feedbin.com/v2/entries.json?page=2` | not executed | CursorGemini.QueryEscapedIntoPath | CursorGemini.NewRequest |
| feedbin-api/windsurf-cascade-claude-3.7/client.go:56-60 | `c.BaseURL.Parse(path)` resolves a path that starts with '/' from the host root, dropping the base's `/v2/`; icons.go:14, tags.go:20 and saved_searches.go:17 pass such paths | `NewRequest("GET", "/icons.json", nil)` requests `https://api.feedbin.com/icons.json` | every path under the API base: `https://api.feedbin.com/v2/icons.json` | not executed | Windsurf.RootedPathDropsVersion | Windsurf.ApiUrlKeepsVersion |
