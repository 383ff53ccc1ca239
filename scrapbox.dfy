/** The HTTP client of client/client.go: the decoded response and its
    projection to page titles, the outgoing request with its headers, and the
    control flow of `GetPages`. What the network and the Go libraries decide
    is handed in as a `Net` value. */
module Scrapbox {
  import opened Results
  import opened Text
  import RequestPath

  const DefaultHost: Bytes := "https://scrapbox.io"
  const DefaultUserAgent: Bytes := "Scrapgox/0.1.0"

  const Get: Bytes := "GET"
  const ContentType: Bytes := "Content-Type"
  const UserAgent: Bytes := "User-Agent"
  const Cookie: Bytes := "Cookie"
  const FormEncoded: Bytes := "application/x-www-form-urlencoded"
  const SessionCookie: Bytes := "connect.sid="

  /** One page record of the JSON body (the `snapshotCreated` field, of no
      fixed type, is not modelled). */
  datatype RawPage = RawPage(
    id: Bytes, title: Bytes, image: Bytes, descriptions: seq<Bytes>, userId: Bytes,
    pin: int, views: int, linked: int, created: int, updated: int, accessed: int,
    snipet: seq<Bytes>)

  /** A page as the client hands it to its caller: its title only. */
  datatype Page = Page(title: Bytes)

  /** The projection of page records to pages, in order. */
  function PagesOf(raw: seq<RawPage>): (r: seq<Page>)
    ensures |r| == |raw|
    ensures forall i :: 0 <= i < |raw| ==> r[i].title == raw[i].title
    decreases |raw|
  {
    if raw == [] then []
    else PagesOf(raw[..|raw| - 1]) + [Page(raw[|raw| - 1].title)]
  }

  /** Projecting a concatenation projects each part. */
  lemma {:induction false} PagesOfAppend(a: seq<RawPage>, b: seq<RawPage>)
    ensures PagesOf(a + b) == PagesOf(a) + PagesOf(b)
    decreases |b|
  {
    if b != [] {
      var b0 := b[..|b| - 1];
      assert (a + b)[..|a + b| - 1] == a + b0;
      PagesOfAppend(a, b0);
    }
  }

  /** The decoded body (the `excludes` list of the parsed query, of no fixed
      element type, is not modelled). */
  datatype Response = Response(
    projectName: Bytes, searchQuery: Bytes, limit: int, count: int,
    pages: seq<RawPage>, existsExactTitleMatch: bool, words: seq<Bytes>)
  {
    /** `getPages`: a fresh list holding one page per record, with its title,
        in record order; empty (never nil) when there are no records. */
    method PageList() returns (list: seq<Page>)
      ensures |list| == |pages|
      ensures forall i :: 0 <= i < |pages| ==> list[i].title == pages[i].title
      ensures list == PagesOf(pages)
    {
      list := [];
      if |pages| == 0 {
        return;
      }
      for i := 0 to |pages|
        invariant list == PagesOf(pages[..i])
      {
        assert pages[..i + 1][..i] == pages[..i];
        list := list + [Page(pages[i].title)];
      }
      assert pages[..|pages|] == pages;
    }
  }

  /** The method `http.NewRequest` sends: an empty method means GET. */
  function MethodOf(verb: Bytes): (m: Bytes)
    ensures m != []
    ensures verb != [] ==> m == verb
  {
    if verb == [] then Get else verb
  }

  /** `http.Header` restricted to canonical keys, each with a single value. */
  type Header = map<Bytes, Bytes>

  /** An outgoing HTTP request. */
  class Request {
    const verb: Bytes
    const url: Bytes
    var header: Header

    /** What `http.NewRequest` returns when it accepts its arguments: the
        empty method stands for GET. */
    constructor (verb: Bytes, url: Bytes)
      ensures this.verb == MethodOf(verb) && this.url == url && header == map[]
    {
      this.verb := MethodOf(verb);
      this.url := url;
      header := map[];
    }

    /** `Header.Set`: replaces any value under `key`. */
    method Set(key: Bytes, value: Bytes)
      modifies this
      ensures header == old(header)[key := value]
    {
      header := header[key := value];
    }
  }

  /** The headers every request carries: the form content type and the
      configured user agent, and the session cookie exactly when there is a
      token. */
  function RequestHeader(token: Bytes, userAgent: Bytes): (h: Header)
    ensures h.Keys == {ContentType, UserAgent} + (if |token| != 0 then {Cookie} else {})
    ensures h[ContentType] == FormEncoded && h[UserAgent] == userAgent
    ensures Cookie in h <==> |token| != 0
    ensures Cookie in h ==> h[Cookie] == SessionCookie + token
  {
    var h := map[ContentType := FormEncoded, UserAgent := userAgent];
    if |token| != 0 then h[Cookie := SessionCookie + token] else h
  }

  /** The client's test configuration: its token becomes the session cookie;
      without a token no cookie is sent. */
  lemma CookieExample(token: Bytes)
    requires token == "test_token"
    ensures RequestHeader(token, DefaultUserAgent)[Cookie] == "connect.sid=test_token"
    ensures Cookie !in RequestHeader([], DefaultUserAgent)
  {
    assert SessionCookie + token == "connect.sid=test_token";
  }

  /** What `HTTPClient.Do` gives back: a transport error, or a response with its
      status code, its status line and the value the JSON decoder produced from
      its body (whatever it managed to fill in: decode errors are ignored). */
  datatype Reply = TransportFailure | Reply(statusCode: int, status: Bytes, body: Response)

  /** The decisions of code outside this model: whether `http.NewRequest`
      accepts a method and URL, and what the server answers to a request. */
  datatype Net = Net(accepts: (Bytes, Bytes) -> bool, exchange: (Bytes, Bytes, Header) -> Reply)

  /** Why `GetPages` failed. */
  datatype Error = RequestError | TransportError | StatusError(status: Bytes)

  class Client {
    /** The base URL, as `URL.String()` writes it. */
    const url: Bytes
    const token: Bytes
    const userAgent: Bytes

    /** `NewClient`: never fails. */
    constructor (url: Bytes, token: Bytes, userAgent: Bytes)
      ensures this.url == url && this.token == token && this.userAgent == userAgent
    {
      this.url := url;
      this.token := token;
      this.userAgent := userAgent;
    }

    /** `buildRequest`: the request for `url/path` with the client's headers,
        or null when `http.NewRequest` rejects the method (an empty one
        read as GET) and URL. */
    method BuildRequest(verb: Bytes, path: Bytes, accepts: (Bytes, Bytes) -> bool) returns (req: Request?)
      ensures (req == null) == !accepts(MethodOf(verb), url + "/" + path)
      ensures req != null ==> fresh(req) && req.verb == MethodOf(verb) && req.url == url + "/" + path
      ensures req != null ==> req.header == RequestHeader(token, userAgent)
    {
      var u := url + "/" + path;
      if !accepts(MethodOf(verb), u) {
        return null;
      }
      req := new Request(verb, u);
      req.Set(ContentType, FormEncoded);
      req.Set(UserAgent, userAgent);
      if |token| != 0 {
        req.Set(Cookie, SessionCookie + token);
      }
    }

    /** `GetPages`: asks for the first 30 pages of `project` matching `query`
        and projects the answer to titles; any status but 200 is an error
        carrying the status line, and no pages. */
    method GetPages(project: Bytes, query: Bytes, net: Net) returns (r: Result<seq<Page>, Error>)
      ensures var target := url + "/" + RequestPath.BuildPath(project, 0, 30, query);
        !net.accepts(Get, target) ==> r == Err(RequestError)
      ensures var target := url + "/" + RequestPath.BuildPath(project, 0, 30, query);
        net.accepts(Get, target) ==>
          match net.exchange(Get, target, RequestHeader(token, userAgent))
          case TransportFailure => r == Err(TransportError)
          case Reply(code, status, body) =>
            r == if code == 200 then Ok(PagesOf(body.pages)) else Err(StatusError(status))
    {
      var path := RequestPath.BuildPath(project, 0, 30, query);
      var req := BuildRequest(Get, path, net.accepts);
      if req == null {
        return Err(RequestError);
      }
      var resp := net.exchange(req.verb, req.url, req.header);
      if resp.TransportFailure? {
        return Err(TransportError);
      }
      if resp.statusCode != 200 {
        return Err(StatusError(resp.status));
      }
      var pages := resp.body.PageList();
      return Ok(pages);
    }
  }

  /** The token and the request path of the package's tests. */
  const TestToken: Bytes := "test_token"
  const HelpPath: Bytes := "api/help-jp?skip=0&limi=30"

  /** The client the package's tests set up: the default host, a token and
      the default user agent, kept as given. */
  method NewClientExample() returns (c: Client)
    ensures fresh(c)
    ensures c.url == DefaultHost && c.token == TestToken && c.userAgent == DefaultUserAgent
  {
    c := new Client(DefaultHost, TestToken, DefaultUserAgent);
  }

  /** The request the package's tests build with that client: its URL is the
      host, a slash and the path; its method is GET; its cookie carries the
      token. */
  method BuildRequestExample(accepts: (Bytes, Bytes) -> bool) returns (req: Request?)
    requires accepts(Get, DefaultHost + "/" + HelpPath)
    ensures req != null && fresh(req)
    ensures req.url == DefaultHost + "/" + HelpPath && req.verb == Get
    ensures Cookie in req.header && req.header[Cookie] == SessionCookie + TestToken
  {
    var c := NewClientExample();
    req := c.BuildRequest(Get, HelpPath, accepts);
  }
}
