/** Go's `url.QueryEscape` (and, as its inverse, `url.QueryUnescape`): the
    encoding of one query-string component. Unreserved bytes (section 2.3 of
    RFC 3986) are kept, a space becomes `+` as in HTML form encoding, and every
    other byte becomes `%` and two upper-case hex digits (section 2.1 of RFC 3986). */
module UrlEscape {
  import opened Results
  import opened Text

  const Space: byte := ' '
  const Plus: byte := '+'
  const Percent: byte := '%'

  /** `A-Z a-z 0-9 - . _ ~`. */
  predicate IsUnreserved(c: byte) {
    || ('A' <= c <= 'Z') || ('a' <= c <= 'z') || ('0' <= c <= '9')
    || c == '-' || c == '.' || c == '_' || c == '~'
  }

  /** The bytes `shouldEscape(c, encodeQueryComponent)` answers true for:
      everything but the unreserved ones (all reserved bytes included). */
  predicate ShouldEscape(c: byte) {
    !IsUnreserved(c)
  }

  /** `upperhex[v]`. */
  function HexDigit(v: int): (r: byte)
    requires 0 <= v < 16
    ensures IsUpperHex(r)
  {
    if v < 10 then ('0' as int + v) as byte else ('A' as int + v - 10) as byte
  }

  predicate IsHex(c: byte) {
    ('0' <= c <= '9') || ('A' <= c <= 'F') || ('a' <= c <= 'f')
  }

  predicate IsUpperHex(c: byte) {
    ('0' <= c <= '9') || ('A' <= c <= 'F')
  }

  /** `unhex(c)`: the value of a hex digit of either case. */
  function Unhex(c: byte): (v: int)
    requires IsHex(c)
    ensures 0 <= v < 16
  {
    if c <= '9' then c as int - '0' as int
    else if c <= 'F' then c as int - 'A' as int + 10
    else c as int - 'a' as int + 10
  }

  /** What `escape` writes for one input byte. */
  function EscapeByte(c: byte): (r: Bytes)
    ensures IsUnreserved(c) ==> r == [c]
    ensures c == Space ==> r == [Plus]
    ensures ShouldEscape(c) && c != Space ==>
      && |r| == 3 && r[0] == Percent && IsUpperHex(r[1]) && IsUpperHex(r[2])
      && Unhex(r[1]) * 16 + Unhex(r[2]) == c as int
  {
    if !ShouldEscape(c) then [c]
    else if c == Space then [Plus]
    else [Percent, HexDigit(c as int / 16), HexDigit(c as int % 16)]
  }

  /** `url.QueryEscape(s)`. */
  function QueryEscape(s: Bytes): (r: Bytes)
    ensures |s| <= |r| <= 3 * |s|
    decreases |s|
  {
    if s == [] then [] else EscapeByte(s[0]) + QueryEscape(s[1..])
  }

  /** `url.QueryUnescape(t)`: `+` becomes a space, `%XX` becomes the byte with
      hex value XX, any other byte stands for itself, and a `%` not followed by
      two hex digits is an error. */
  function QueryUnescape(t: Bytes): (r: Option<Bytes>)
    decreases |t|
  {
    if t == [] then Some([])
    else if t[0] == Percent then
      if |t| >= 3 && IsHex(t[1]) && IsHex(t[2]) then
        match QueryUnescape(t[3..])
        case None => None
        case Some(u) => Some([(Unhex(t[1]) * 16 + Unhex(t[2])) as byte] + u)
      else None
    else if t[0] == Plus then
      match QueryUnescape(t[1..])
      case None => None
      case Some(u) => Some([Space] + u)
    else
      match QueryUnescape(t[1..])
      case None => None
      case Some(u) => Some([t[0]] + u)
  }

  /** The number of bytes `escape` writes as `%XX` (its `hexCount`). */
  function HexCount(s: Bytes): nat
    decreases |s|
  {
    if s == [] then 0
    else (if ShouldEscape(s[0]) && s[0] != Space then 1 else 0) + HexCount(s[1..])
  }

  /** The language escaping produces: unreserved bytes and `+`, and `%` only as
      the head of two upper-case hex digits. */
  predicate WellEscaped(t: Bytes)
    decreases |t|
  {
    if t == [] then true
    else if IsUnreserved(t[0]) || t[0] == Plus then WellEscaped(t[1..])
    else t[0] == Percent && |t| >= 3 && IsUpperHex(t[1]) && IsUpperHex(t[2]) && WellEscaped(t[3..])
  }

  /** `escape` allocates `len(s) + 2*hexCount` bytes: each space stays one byte
      and each other escaped byte grows to three. */
  lemma {:induction false} EscapedLength(s: Bytes)
    ensures |QueryEscape(s)| == |s| + 2 * HexCount(s)
    decreases |s|
  {
    if s != [] {
      EscapedLength(s[1..]);
    }
  }

  /** Escaping decodes back to the original query, byte for byte; in
      particular it is injective. */
  lemma {:induction false} UnescapeOfEscape(s: Bytes)
    ensures QueryUnescape(QueryEscape(s)) == Some(s)
    decreases |s|
  {
    if s != [] {
      var c, e, rest := s[0], EscapeByte(s[0]), QueryEscape(s[1..]);
      var t := e + rest;
      UnescapeOfEscape(s[1..]);
      if |e| == 3 {
        assert t[3..] == rest;
      } else {
        assert t[1..] == rest;
      }
      assert s == [c] + s[1..];
    }
  }

  /** Escaping leaves a query of unreserved bytes alone, and only such a query. */
  lemma {:induction false} EscapeIdentity(s: Bytes)
    ensures QueryEscape(s) == s <==> forall i :: 0 <= i < |s| ==> IsUnreserved(s[i])
    decreases |s|
  {
    if s != [] {
      EscapeIdentity(s[1..]);
      EscapedLength(s[1..]);
      var c := s[0];
      if IsUnreserved(c) {
        assert QueryEscape(s) == [c] + QueryEscape(s[1..]);
        assert s == [c] + s[1..];
        assert (forall i :: 0 <= i < |s| ==> IsUnreserved(s[i]))
          <==> (forall i :: 0 <= i < |s[1..]| ==> IsUnreserved(s[1..][i]));
      } else {
        assert QueryEscape(s)[0] != c || |QueryEscape(s)| > |s|;
      }
    }
  }

  /** The escaped query is empty exactly when the query is. */
  lemma EscapeEmpty(s: Bytes)
    ensures QueryEscape(s) == [] <==> s == []
  {
    EscapedLength(s);
  }

  /** Escaping always produces the well-formed language above. */
  lemma {:induction false} EscapeWellFormed(s: Bytes)
    ensures WellEscaped(QueryEscape(s))
    decreases |s|
  {
    if s != [] {
      var e, rest := EscapeByte(s[0]), QueryEscape(s[1..]);
      EscapeWellFormed(s[1..]);
      if |e| == 3 {
        assert (e + rest)[3..] == rest;
      } else {
        assert (e + rest)[1..] == rest;
      }
    }
  }

  /** A well-formed escaped component holds no byte outside the unreserved set,
      `+` and `%`. */
  lemma {:induction false} WellEscapedAlphabet(t: Bytes)
    requires WellEscaped(t)
    ensures forall i :: 0 <= i < |t| ==> IsUnreserved(t[i]) || t[i] == Plus || t[i] == Percent
    decreases |t|
  {
    if t != [] {
      if IsUnreserved(t[0]) || t[0] == Plus {
        WellEscapedAlphabet(t[1..]);
        assert forall i :: 1 <= i < |t| ==> t[i] == t[1..][i - 1];
      } else {
        WellEscapedAlphabet(t[3..]);
        assert forall i :: 3 <= i < |t| ==> t[i] == t[3..][i - 3];
      }
    }
  }

  /** So an escaped query never carries a byte that ends or splits a query
      parameter: no `&`, `=`, `?` or `#`. */
  lemma EscapeHasNoDelimiters(s: Bytes)
    ensures '&' !in QueryEscape(s) && '=' !in QueryEscape(s)
    ensures '?' !in QueryEscape(s) && '#' !in QueryEscape(s)
  {
    EscapeWellFormed(s);
    WellEscapedAlphabet(QueryEscape(s));
  }

  /** Escaping works byte by byte: the escape of a concatenation is the
      concatenation of the escapes. */
  lemma {:induction false} EscapeAppend(a: Bytes, b: Bytes)
    ensures QueryEscape(a + b) == QueryEscape(a) + QueryEscape(b)
    decreases |a|
  {
    if a == [] {
      assert a + b == b;
    } else {
      assert (a + b)[0] == a[0];
      assert (a + b)[1..] == a[1..] + b;
      EscapeAppend(a[1..], b);
      var e := EscapeByte(a[0]);
      assert QueryEscape(a + b) == e + (QueryEscape(a[1..]) + QueryEscape(b));
      assert QueryEscape(a) == e + QueryEscape(a[1..]);
    }
  }

  /** The query of the client's own test is sent verbatim. */
  lemma TestQueryExample(q: Bytes)
    requires q == "test"
    ensures QueryEscape(q) == "test"
  {
    EscapeIdentity(q);
  }

  /** A space is sent as `+`. */
  lemma SpaceExample(q: Bytes)
    requires q == "foo bar"
    ensures QueryEscape(q) == "foo+bar"
  {
    var foo: Bytes, bar: Bytes := "foo", "bar";
    EscapeIdentity(foo);
    EscapeIdentity(bar);
    assert q == foo + " " + bar;
    EscapeAppend(foo + " ", bar);
    EscapeAppend(foo, " ");
    assert QueryEscape(" ") == "+";
  }

  /** A reserved byte is sent as `%` and its upper-case hex code. */
  lemma ReservedExample(q: Bytes)
    requires q == "a&b"
    ensures QueryEscape(q) == "a%26b"
  {
    var a: Bytes, b: Bytes := "a", "b";
    assert q == a + "&" + b;
    EscapeAppend(a + "&", b);
    EscapeAppend(a, "&");
    assert QueryEscape("&") == "%26";
  }
}
