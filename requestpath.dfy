/** The relative request path the client asks for (`buildPath` in
    client/client.go), and a parser that recovers the four parameters from it.
    That the parser inverts `buildPath` shows that distinct parameters give
    distinct paths; it does not describe how a server reads the path, which
    sees the unescaped project name as it is. */
module RequestPath {
  import opened Results
  import opened Text
  import Decimal
  import opened UrlEscape

  const Amp: byte := '&'
  const Question: byte := '?'

  const Listing: Bytes := "api/pages/"
  const SearchSuffix: Bytes := "/search/query"
  const SkipKey: Bytes := "skip="
  const LimitKey: Bytes := "limit="
  const QueryKey: Bytes := "q="

  /** `buildPath(project, skip, limit, query)`: the parameters are formatted as
      `skip=%d&limit=%d&q=%s` with the query escaped; an empty query asks for
      the page listing `api/pages/%s?…`, a non-empty one for the search
      endpoint `api/pages/%s/search/query?…`. The project name is not escaped. */
  function BuildPath(project: Bytes, skip: Decimal.int64, limit: Decimal.int64, query: Bytes): (r: Bytes)
    ensures Listing + project <= r
    ensures query != [] <==> Listing + project + SearchSuffix + [Question] <= r
    ensures |QueryKey + QueryEscape(query)| <= |r|
    ensures r[|r| - |QueryKey + QueryEscape(query)|..] == QueryKey + QueryEscape(query)
  {
    var params := SkipKey + Decimal.Format(skip as int) + [Amp] + LimitKey
                  + Decimal.Format(limit as int) + [Amp] + QueryKey + QueryEscape(query);
    if |query| == 0 then
      var r := Listing + project + [Question] + params;
      assert r[|Listing + project|] == Question != SearchSuffix[0];
      r
    else Listing + project + SearchSuffix + [Question] + params
  }

  /** The parameters a request path carries. */
  datatype PathParams = PathParams(project: Bytes, skip: Decimal.int64, limit: Decimal.int64, query: Bytes)

  predicate InInt64(n: int) {
    -0x8000_0000_0000_0000 <= n < 0x8000_0000_0000_0000
  }

  /** The value of the parameter `name` that follows the last `d` in `s`,
      with the bytes before that `d`. */
  function LastParam(s: Bytes, d: byte, name: Bytes): Option<(Bytes, Bytes)>
  {
    var split :- SplitLast(s, d);
    var value :- StripPrefix(split.1, name);
    Some((split.0, value))
  }

  lemma LastParamOf(a: Bytes, d: byte, name: Bytes, value: Bytes)
    requires d !in name + value
    ensures LastParam(a + [d] + name + value, d, name) == Some((a, value))
  {
    assert a + [d] + name + value == a + [d] + (name + value);
    SplitLastAt(a, d, name + value);
    StripPrefixOf(name, value);
  }

  /** The project named by an endpoint path `api/pages/{project}`, or
      `api/pages/{project}/search/query` when the query is non-empty. */
  function ParseEndpoint(endpoint: Bytes, query: Bytes): Option<Bytes>
  {
    var tail :- StripPrefix(endpoint, Listing);
    if query == [] then Some(tail) else StripSuffix(tail, SearchSuffix)
  }

  lemma ParseEndpointOf(project: Bytes, query: Bytes)
    ensures ParseEndpoint(Listing + project + (if query == [] then [] else SearchSuffix), query) == Some(project)
  {
    if query == [] {
      assert Listing + project + [] == Listing + project;
      StripPrefixOf(Listing, project);
    } else {
      assert Listing + project + SearchSuffix == Listing + (project + SearchSuffix);
      StripPrefixOf(Listing, project + SearchSuffix);
      StripSuffixOf(project, SearchSuffix);
    }
  }

  /** Reads a path of either shape from the right: the last `&` opens `q`, the
      one before it `limit`, the last `?` before that `skip`; what remains is
      the endpoint, the search one exactly when the decoded query is non-empty. */
  function ParsePath(path: Bytes): Option<PathParams>
  {
    var q :- LastParam(path, Amp, QueryKey);
    var query :- QueryUnescape(q.1);
    var l :- LastParam(q.0, Amp, LimitKey);
    var limit :- Decimal.Parse(l.1);
    var s :- LastParam(l.0, Question, SkipKey);
    var skip :- Decimal.Parse(s.1);
    var project :- ParseEndpoint(s.0, query);
    if InInt64(skip) && InInt64(limit) then
      Some(PathParams(project, skip as Decimal.int64, limit as Decimal.int64, query))
    else None
  }

  /** No formatted number contains `&` or `?`. */
  lemma FormatHasNoDelimiters(n: int)
    ensures Amp !in Decimal.Format(n) && Question !in Decimal.Format(n)
  {
    var t := Decimal.Format(n);
    forall i | 0 <= i < |t| ensures t[i] != Amp && t[i] != Question {
      assert Decimal.IsDigit(t[i]) || t[i] == Decimal.Minus;
    }
  }

  /** The parameter string regrouped around its two `&`s. */
  lemma Regroup(head: Bytes, fs: Bytes, fl: Bytes, e: Bytes)
    ensures head + [Question] + (SkipKey + fs + [Amp] + LimitKey + fl + [Amp] + QueryKey + e)
      == ((head + [Question] + SkipKey + fs) + [Amp] + LimitKey + fl) + [Amp] + QueryKey + e
  {
  }

  /** `buildPath` as the nested pieces the parser takes apart. */
  lemma BuildPathPieces(project: Bytes, skip: Decimal.int64, limit: Decimal.int64, query: Bytes)
    ensures BuildPath(project, skip, limit, query)
      == ((Listing + project + (if query == [] then [] else SearchSuffix) + [Question] + SkipKey + Decimal.Format(skip as int))
          + [Amp] + LimitKey + Decimal.Format(limit as int)) + [Amp] + QueryKey + QueryEscape(query)
  {
    var fs, fl, e := Decimal.Format(skip as int), Decimal.Format(limit as int), QueryEscape(query);
    if query == [] {
      assert Listing + project + [] == Listing + project;
      Regroup(Listing + project, fs, fl, e);
    } else {
      Regroup(Listing + project + SearchSuffix, fs, fl, e);
    }
  }

  /** The parser takes such a path apart, given that each piece reads back. */
  lemma ParsePieces(endpoint: Bytes, fs: Bytes, fl: Bytes, e: Bytes, p: PathParams)
    requires Amp !in e && Amp !in fl && Question !in fs
    requires QueryUnescape(e) == Some(p.query)
    requires Decimal.Parse(fs) == Some(p.skip as int) && Decimal.Parse(fl) == Some(p.limit as int)
    requires ParseEndpoint(endpoint, p.query) == Some(p.project)
    ensures ParsePath(((endpoint + [Question] + SkipKey + fs) + [Amp] + LimitKey + fl) + [Amp] + QueryKey + e) == Some(p)
  {
    var a1 := endpoint + [Question] + SkipKey + fs;
    var a0 := a1 + [Amp] + LimitKey + fl;
    LastParamOf(a0, Amp, QueryKey, e);
    LastParamOf(a1, Amp, LimitKey, fl);
    LastParamOf(endpoint, Question, SkipKey, fs);
  }

  /** Every request path names its parameters unambiguously: parsing it gives
      back exactly the project, skip, limit and query it was built from, for
      any project name and any query bytes. So escaping keeps a query from
      injecting parameters of its own, and the two endpoints never collide. */
  lemma ParseOfBuildPath(project: Bytes, skip: Decimal.int64, limit: Decimal.int64, query: Bytes)
    ensures ParsePath(BuildPath(project, skip, limit, query)) == Some(PathParams(project, skip, limit, query))
  {
    BuildPathPieces(project, skip, limit, query);
    EscapeHasNoDelimiters(query);
    FormatHasNoDelimiters(skip as int);
    FormatHasNoDelimiters(limit as int);
    UnescapeOfEscape(query);
    Decimal.ParseOfFormat(skip as int);
    Decimal.ParseOfFormat(limit as int);
    ParseEndpointOf(project, query);
    ParsePieces(Listing + project + (if query == [] then [] else SearchSuffix),
                Decimal.Format(skip as int), Decimal.Format(limit as int), QueryEscape(query),
                PathParams(project, skip, limit, query));
  }

  /** The fixed part of the parameters for skip 0 and limit 30. */
  lemma PagingParams()
    ensures SkipKey + Decimal.Format(0) + [Amp] + LimitKey + Decimal.Format(30) + [Amp] + QueryKey
      == "skip=0&limit=30&q="
  {
    Decimal.FormatOfPagingConstants();
    assert SkipKey + "0" + [Amp] + LimitKey + "30" + [Amp] + QueryKey == "skip=0&limit=30&q=";
  }

  /** `buildPath` with skip 0 and limit 30, as endpoint, `?`, fixed
      parameters and escaped query. */
  lemma PagingUnfold(project: Bytes, query: Bytes)
    ensures BuildPath(project, 0, 30, query)
      == Listing + project + (if query == [] then [] else SearchSuffix) + [Question]
         + ("skip=0&limit=30&q=" + QueryEscape(query))
  {
    PagingParams();
    if query == [] {
      assert Listing + project + [] == Listing + project;
    }
  }

  /** Regroups a path around its fixed middle part. */
  lemma Reassociate(head: Bytes, mid: Bytes, fixed: Bytes, e: Bytes, text: Bytes)
    requires mid + fixed == text
    ensures head + mid + (fixed + e) == head + text + e
  {
    assert head + mid + (fixed + e) == head + (mid + fixed) + e;
  }

  lemma ListingPagingPath(project: Bytes)
    ensures BuildPath(project, 0, 30, []) == Listing + project + "?skip=0&limit=30&q="
  {
    PagingUnfold(project, []);
    assert QueryEscape([]) == [];
    Reassociate(Listing + project + [], [Question], "skip=0&limit=30&q=", [], "?skip=0&limit=30&q=");
    assert Listing + project + [] == Listing + project;
  }

  lemma SearchJoin()
    ensures SearchSuffix + [Question] + "skip=0&limit=30&q=" == "/search/query?skip=0&limit=30&q="
  {
  }

  /** The search shape of a path, regrouped around its fixed text. */
  lemma SearchShape(head: Bytes, e: Bytes)
    ensures head + SearchSuffix + [Question] + ("skip=0&limit=30&q=" + e)
      == head + "/search/query?skip=0&limit=30&q=" + e
  {
    SearchJoin();
    Reassociate(head, SearchSuffix + [Question], "skip=0&limit=30&q=", e, "/search/query?skip=0&limit=30&q=");
  }

  lemma SearchPagingPath(project: Bytes, query: Bytes)
    requires query != []
    ensures BuildPath(project, 0, 30, query) == Listing + project + "/search/query?skip=0&limit=30&q=" + QueryEscape(query)
  {
    PagingUnfold(project, query);
    SearchShape(Listing + project, QueryEscape(query));
  }

  /** With the paging the client always uses, the two shapes of path: the
      listing for an empty query, the search for any other. */
  lemma PagingPath(project: Bytes, query: Bytes)
    ensures query == [] ==>
      BuildPath(project, 0, 30, query) == Listing + project + "?skip=0&limit=30&q="
    ensures query != [] ==>
      BuildPath(project, 0, 30, query) == Listing + project + "/search/query?skip=0&limit=30&q=" + QueryEscape(query)
  {
    if query == [] {
      ListingPagingPath(project);
    } else {
      SearchPagingPath(project, query);
    }
  }

  /** The listing path of the client's own test (project `test`). */
  lemma ListingPathExample(project: Bytes)
    requires project == "test"
    ensures BuildPath(project, 0, 30, []) == "api/pages/test?skip=0&limit=30&q="
  {
    PagingPath(project, []);
  }

  /** The project name is not escaped: a `?` in it stays in the path, in
      front of the one that starts the parameters. */
  lemma UnescapedProjectExample(project: Bytes)
    requires project == "a?b"
    ensures BuildPath(project, 0, 30, []) == "api/pages/a?b?skip=0&limit=30&q="
  {
    PagingPath(project, []);
  }

  /** The search path of the client's own test: an unreserved query appears verbatim. */
  lemma SearchPathExample(project: Bytes, query: Bytes)
    requires project == "test" && query == "test"
    ensures BuildPath(project, 0, 30, query) == "api/pages/test/search/query?skip=0&limit=30&q=test"
  {
    PagingPath(project, query);
    TestQueryExample(query);
    SearchText(project, "test");
  }

  /** A query with a space is sent with `+` in its place. */
  lemma SpacePathExample(project: Bytes, query: Bytes)
    requires project == "test" && query == "foo bar"
    ensures BuildPath(project, 0, 30, query) == "api/pages/test/search/query?skip=0&limit=30&q=foo+bar"
  {
    PagingPath(project, query);
    SpaceExample(query);
    SearchText(project, "foo+bar");
  }

  lemma SearchText(project: Bytes, e: Bytes)
    requires project == "test"
    ensures Listing + project + "/search/query?skip=0&limit=30&q=" + e
      == "api/pages/test/search/query?skip=0&limit=30&q=" + e
  {
    var head: Bytes := "api/pages/test";
    assert Listing + project == head;
    assert head + "/search/query?skip=0&limit=30&q=" == "api/pages/test/search/query?skip=0&limit=30&q=";
  }
}
