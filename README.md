# scrapgox client core, modelled in Dafny

scrapgox is a command-line client for the page listing and search endpoint of
Scrapbox (`https://scrapbox.io`). Its package `client` builds the request path
`api/pages/{project}?skip=..&limit=..&q=` for a page listing, or
`api/pages/{project}/search/query?...` when a search query is given. It escapes
the query the way Go's `url.QueryEscape` does. It then builds a GET request for
`{base}/{path}` with a form content type, the configured user agent and, when a
token is configured, the session cookie `connect.sid={token}`. It rejects every
status but 200, and projects the decoded JSON response to the list of page titles.

This project models that package:

- `text.dfy` (module `Text`): Go strings as byte sequences. A byte is written as
  the character with that code (`type byte = c: char | c as int < 256`), so that
  ASCII literals read as they do in Go. It also holds the sequence searches the
  path parser uses.
- `decimal.dfy` (module `Decimal`): `%d` formatting of `int`, and a parser that
  reads the text back.
- `urlescape.dfy` (module `UrlEscape`): `url.QueryEscape` byte by byte, and
  `url.QueryUnescape` as its inverse. Unreserved bytes (section 2.3 of RFC 3986)
  are kept. A space becomes `+` (HTML form encoding). Any other byte becomes `%`
  plus two upper-case hex digits (section 2.1 of RFC 3986).
- `requestpath.dfy` (module `RequestPath`): `buildPath`, and `ParsePath`, which
  recovers the project, skip, limit and query from a path. The round-trip lemma
  between the two proves `buildPath` injective: distinct parameters never give
  the same path, whatever the query holds. It says nothing about how the server
  reads a path. The project name goes into the path unescaped
  (client/client.go:46, 48), so the project `a?b` gives
  `api/pages/a?b?skip=0&limit=30&q=`, whose path part,
  which ends at the first `?` (section 3.4 of RFC 3986), is `api/pages/a`.
- `scrapbox.dfy` (module `Scrapbox`): the response records and their projection
  `getPages`, the request object and its header `Set`, and the `Client` with
  `NewClient`, `buildRequest` and `GetPages`.
- `results.dfy` (module `Results`): Option and Result values.

The network, `http.NewRequest`'s validation and the JSON decoder are code
this model cannot see. They come in as a `Net` value of two total functions:
`accepts(method, url)` says whether `http.NewRequest` accepts its arguments, and
`exchange(method, url, header)` gives what `HTTPClient.Do` returns for the
request. That is a transport failure, or a status code, a status line and the
decoded body. The decoder's error is ignored by the code (client/client.go:127),
so the body is whatever value decoding produced, and the model keeps that lenient
behaviour.

## Model

| member | source | states |
|---|---|---|
| `Decimal.Digits` | client/client.go:44 | the decimal digits of a natural number: non-empty, only `0`-`9`, and no leading zero for a positive number |
| `Decimal.Format` | client/client.go:44 | `%d` output is non-empty, all decimal digits except a leading `-`, which appears exactly for negative values; zero is `0`, and no other value has a leading zero |
| `Decimal.ParseOfFormat` | client/client.go:44 | the text `%d` writes for any integer reads back as that integer, so skip and limit are sent without loss |
| `Decimal.FormatOfPagingConstants` | client/client.go:111 | the paging values 0 and 30 are written `0` and `30` |
| `UrlEscape.EscapeByte` | client/client.go:43 | one byte of `url.QueryEscape`: an unreserved byte is kept, a space becomes `+`, any other byte becomes `%` and two upper-case hex digits whose value is the byte |
| `UrlEscape.QueryEscape` | client/client.go:43 | the escaped query is at least as long as the query and at most three times as long |
| `UrlEscape.EscapedLength` | client/client.go:43 | the escaped query is as long as the query plus two bytes per byte written as `%XX` (a space stays one byte) |
| `UrlEscape.UnescapeOfEscape` | client/client.go:43 | unescaping the escaped query gives back the query byte for byte, for every byte string; escaping is injective |
| `UrlEscape.EscapeIdentity` | client/client.go:43 | escaping leaves a query unchanged if and only if all its bytes are unreserved (`A-Z a-z 0-9 - . _ ~`) |
| `UrlEscape.EscapeEmpty` | client/client.go:43-45 | the escaped query is empty exactly when the query is |
| `UrlEscape.EscapeWellFormed` | client/client.go:43 | escaping yields only unreserved bytes, `+`, and `%` each followed by two upper-case hex digits |
| `UrlEscape.WellEscapedAlphabet` | client/client.go:43 | a well-formed escaped string holds no byte besides the unreserved ones, `+` and `%` |
| `UrlEscape.EscapeHasNoDelimiters` | client/client.go:43-44 | the escaped query never contains `&`, `=`, `?` or `#`, so it cannot end or split the `q` parameter |
| `UrlEscape.EscapeAppend` | client/client.go:43 | escaping works byte by byte: the escape of a concatenation is the concatenation of the escapes |
| `UrlEscape.TestQueryExample` | client/client_test.go:54-64 | the test query `test` is sent verbatim |
| `UrlEscape.SpaceExample` | client/client.go:43 | `foo bar` escapes to `foo+bar` |
| `UrlEscape.ReservedExample` | client/client.go:43 | `a&b` escapes to `a%26b` |
| `RequestPath.BuildPath` | client/client.go:42-50 | the path starts with `api/pages/{project}` (the project unescaped); it continues with `/search/query?` exactly when the query is non-empty; it ends with `q=` and the escaped query |
| `RequestPath.FormatHasNoDelimiters` | client/client.go:44 | a formatted skip or limit contains no `&` or `?` |
| `RequestPath.ParseOfBuildPath` | client/client.go:42-50 | for every project, skip, limit and query, parsing the built path gives back exactly those four values: the listing and search shapes never collide and the query cannot inject parameters |
| `RequestPath.PagingPath` | client/client.go:44-48 | with skip 0 and limit 30, an empty query gives `api/pages/{project}?skip=0&limit=30&q=` and a non-empty one gives `api/pages/{project}/search/query?skip=0&limit=30&q={escaped query}` |
| `RequestPath.ListingPathExample` | client/client_test.go:56-61 | project `test` with an empty query gives `api/pages/test?skip=0&limit=30&q=` |
| `RequestPath.SearchPathExample` | client/client_test.go:57-64 | project `test` with query `test` gives `api/pages/test/search/query?skip=0&limit=30&q=test` |
| `RequestPath.SpacePathExample` | client/client.go:43-48 | query `foo bar` is sent as `q=foo+bar` on the search endpoint |
| `RequestPath.UnescapedProjectExample` | client/client.go:46 | project `a?b` with an empty query gives `api/pages/a?b?skip=0&limit=30&q=`: a `?` in the project stays in the path |
| `Scrapbox.PagesOf` | client/client.go:85-95 | the projection has one page per record, and page i has the title of record i |
| `Scrapbox.PagesOfAppend` | client/client.go:90-93 | projecting a concatenation of records projects each part and concatenates, so order is kept |
| `Scrapbox.Response.PageList` | client/client.go:85-95 | `getPages` returns exactly as many pages as records, page i titled as record i (an empty list, not nil, for no records), equal to `PagesOf` |
| `Scrapbox.RequestHeader` | client/client.go:33-37 | the header has `Content-Type: application/x-www-form-urlencoded` and `User-Agent` set to the configured agent; it has `Cookie: connect.sid={token}` if and only if the token is non-empty; it has no other key |
| `Scrapbox.CookieExample` | client/client_test.go:46-49 | the test token `test_token` is sent as `connect.sid=test_token`; an empty token sends no cookie |
| `Scrapbox.MethodOf` | client/client.go:28 | the method `http.NewRequest` sends is never empty, and a non-empty method is kept as given |
| `Scrapbox.Request.constructor` | client/client.go:28 | the request built by `http.NewRequest` carries its method (GET for an empty one) and its URL, and no headers |
| `Scrapbox.Request.Set` | client/client.go:33-36 | setting a header replaces the value under that key and changes nothing else |
| `Scrapbox.Client.constructor` | client/client.go:101-108 | `NewClient` stores the URL, token and user agent it is given |
| `Scrapbox.Client.BuildRequest` | client/client.go:24-40 | the result is null exactly when `http.NewRequest` rejects the method (an empty one read as GET) and `{base}/{path}`; otherwise a fresh request with that method and URL and exactly the header `RequestHeader` describes |
| `Scrapbox.NewClientExample` | client/client_test.go:15-30 | the test client built from the default host, the token `test_token` and the default user agent keeps the host and the token |
| `Scrapbox.BuildRequestExample` | client/client_test.go:32-50 | when `http.NewRequest` accepts it, the test request for `api/help-jp?skip=0&limi=30` has URL `{host}/{path}`, method GET and cookie `connect.sid=test_token` |
| `Scrapbox.Client.GetPages` | client/client.go:110-131 | the request goes to `{base}/` plus the path for skip 0 and limit 30 with the client's headers; a rejected request is a request error, a transport failure is a transport error, any status but 200 is a status error carrying the status line and no pages, and status 200 yields exactly the projection of the decoded body |

## Left out

- Network transport (`HTTPClient.Do`, client/client.go:117-120): given as `Net.exchange`. The response body is never closed by the code, and the model has no resources.
- `http.NewRequest` validation of the method and URL (client/client.go:28-31): given as `Net.accepts`, asked after an empty method is read as GET (`MethodOf`). Its parsing of the URL into a request URL is not modelled; the request keeps the URL string.
- `url.URL` and `URL.String()` (client/client.go:18, 25-26): the base URL is an opaque byte string.
- JSON decoding (client/client.go:97-99, 126-127): the decoded `Response` comes in as part of `Net.exchange`'s answer. Ignoring the decode error is kept as written.
- The `snapshotCreated` field of a page record and the `excludes` list of the parsed query (client/client.go:71, 77): they have no fixed type and nothing reads them. The nested `user.id` is flattened to `userId`.
- The error text `http status is %q` (client/client.go:123): `StatusError` carries the status line, and Go's quoting is not modelled.
- `http.Header` key canonicalisation and multi-valued headers: every key the client sets is already canonical, so a header is a map from key to one value.
- `[]*Page` and the preallocated capacity of 30 (client/client.go:86): pages are values. Dafny sequences have no nil, so "empty, not nil" is simply the empty sequence.
- The `HTTPClient` field of `Client`: nothing but the transport uses it.
- Scrapbox.Client.BuildRequest: the `body io.Reader` argument (client/client.go:24) is not modelled, since the only caller passes nil (client/client.go:112) and the request body is part of the transport.
- Go's `int` is taken to be 64 bits wide (`Decimal.int64`). Formatting never wraps, so width only bounds the values.
- `Decimal.Parse`, `UrlEscape.QueryUnescape` and `RequestPath.ParsePath` are not code of the repository. They are reference inverses that the round-trip lemmas relate the repository's code to.
- main.go: CLI parsing, printing and `log.Fatal` are I/O glue with no logic of their own.
