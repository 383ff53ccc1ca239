/** Go strings are immutable sequences of bytes; this module gives them a Dafny
    form and the few sequence searches the request-path parser needs. */
module Text {
  import opened Results

  /** A byte, written as the character with that code, so that ASCII literals
      of the client read as they do in Go. */
  type byte = c: char | c as int < 256

  /** A Go `string`: any sequence of bytes, not necessarily valid UTF-8. */
  type Bytes = seq<byte>

  /** Splits `s` at the LAST occurrence of `d`: the bytes before it and the
      bytes after it, or None when `d` does not occur. */
  function SplitLast(s: Bytes, d: byte): (r: Option<(Bytes, Bytes)>)
    ensures r.None? <==> d !in s
    ensures r.Some? ==> s == r.value.0 + [d] + r.value.1 && d !in r.value.1
    decreases |s|
  {
    if s == [] then None
    else if s[|s| - 1] == d then Some((s[..|s| - 1], []))
    else
      match SplitLast(s[..|s| - 1], d)
      case None => None
      case Some(parts) => Some((parts.0, parts.1 + [s[|s| - 1]]))
  }

  /** The split is unique: wherever `d` is placed, if none follows it,
      SplitLast finds exactly that one. */
  lemma {:induction false} SplitLastAt(a: Bytes, d: byte, c: Bytes)
    requires d !in c
    ensures SplitLast(a + [d] + c, d) == Some((a, c))
  {
    var s := a + [d] + c;
    if c == [] {
      assert s[..|s| - 1] == a;
    } else {
      var c0 := c[..|c| - 1];
      assert c == c0 + [c[|c| - 1]];
      assert s[..|s| - 1] == a + [d] + c0;
      SplitLastAt(a, d, c0);
    }
  }

  /** `s` with the prefix `p` removed, or None when `s` does not start with `p`. */
  function StripPrefix(s: Bytes, p: Bytes): (r: Option<Bytes>)
    ensures r.Some? <==> |p| <= |s| && s[..|p|] == p
    ensures r.Some? ==> s == p + r.value
  {
    if |p| <= |s| && s[..|p|] == p then Some(s[|p|..]) else None
  }

  /** `s` with the suffix `p` removed, or None when `s` does not end with `p`. */
  function StripSuffix(s: Bytes, p: Bytes): (r: Option<Bytes>)
    ensures r.Some? <==> |p| <= |s| && s[|s| - |p|..] == p
    ensures r.Some? ==> s == r.value + p
  {
    if |p| <= |s| && s[|s| - |p|..] == p then Some(s[..|s| - |p|]) else None
  }

  lemma StripPrefixOf(p: Bytes, t: Bytes)
    ensures StripPrefix(p + t, p) == Some(t)
  {
    assert (p + t)[..|p|] == p;
  }

  lemma StripSuffixOf(t: Bytes, p: Bytes)
    ensures StripSuffix(t + p, p) == Some(t)
  {
    assert (t + p)[|t + p| - |p|..] == p;
  }
}
