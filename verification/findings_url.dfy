/** `buildEndorFindingsUrl` (endor-frontend/src/helper/endor.ts): the
    relative path and query of a link to the Endor Labs findings page. The
    resolution of that path against the configured base URL is left to the
    URL library and is not modelled. */
module FindingsUrl {
  import opened Results
  import opened JsString
  import opened UriComponent

  /** The relative reference handed to `new URL(…, baseUrl)`: the namespace
      and the filter are percent-encoded, the category is inserted as it is. */
  function FindingsPath(namespace: string, category: string, filter: string): (p: string)
    requires IsAscii(namespace) && IsAscii(filter)
  {
    "/t/" + Encode(namespace) + "/findings/" + category + "/?filter=" + Encode(filter)
  }

  /** What a findings link points at. */
  datatype Target = Target(namespace: string, category: string, filter: string)

  /** The index of the first `c` in `s`. */
  function FirstIndexOfChar(s: string, c: char): (r: Option<nat>)
    ensures r.Some? ==> r.value < |s| && s[r.value] == c && c !in s[..r.value]
    ensures r.None? ==> c !in s
  {
    if s == [] then None
    else if s[0] == c then Some(0)
    else
      match FirstIndexOfChar(s[1..], c)
      case None => None
      case Some(i) =>
        assert s[..i + 1] == [s[0]] + s[1..][..i];
        Some(i + 1)
  }

  /** The index of the last `c` in `s`. */
  function LastIndexOfChar(s: string, c: char): (r: Option<nat>)
    ensures r.Some? ==> r.value < |s| && s[r.value] == c && c !in s[r.value + 1..]
    ensures r.None? ==> c !in s
  {
    if s == [] then None
    else if s[|s| - 1] == c then Some(|s| - 1)
    else
      var r := LastIndexOfChar(s[..|s| - 1], c);
      assert s == s[..|s| - 1] + [s[|s| - 1]];
      assert r.Some? ==> s[r.value + 1..] == s[..|s| - 1][r.value + 1..] + [s[|s| - 1]];
      r
  }

  predicate HasPrefix(s: string, prefix: string) {
    |prefix| <= |s| && s[..|prefix|] == prefix
  }

  /** Reads a findings path back: the first segment after `/t/` is the
      encoded namespace, the text between `/findings/` and the last `/` is the
      category, and what follows `/?filter=` is the encoded filter. */
  function ParseFindingsPath(p: string): (r: Option<Target>)
  {
    if HasPrefix(p, "/t/") then ParseSegments(p[3..]) else None
  }

  /** The part after `/t/`: namespace segment, `/findings/`, then the rest. */
  function ParseSegments(rest: string): (r: Option<Target>)
  {
    match FirstIndexOfChar(rest, '/')
    case None => None
    case Some(i) =>
      var tail := rest[i..];
      if !HasPrefix(tail, "/findings/") then None
      else
        match (Decode(rest[..i]), ParseCategoryAndQuery(tail[10..]))
        case (Some(namespace), Some(cf)) => Some(Target(namespace, cf.0, cf.1))
        case _ => None
  }

  /** The part after `/findings/`: the category up to the last `/`, then `?filter=`. */
  function ParseCategoryAndQuery(body: string): (r: Option<(string, string)>)
  {
    match LastIndexOfChar(body, '/')
    case None => None
    case Some(j) =>
      var query := body[j..];
      if !HasPrefix(query, "/?filter=") then None
      else
        match Decode(query[9..])
        case None => None
        case Some(filter) => Some((body[..j], filter))
  }

  lemma {:induction false} FirstIndexOfCharSplit(a: string, b: string, c: char)
    requires c !in a && |b| > 0 && b[0] == c
    ensures FirstIndexOfChar(a + b, c) == Some(|a|)
  {
    if a != [] {
      assert (a + b)[1..] == a[1..] + b;
      FirstIndexOfCharSplit(a[1..], b, c);
    }
  }

  lemma {:induction false} LastIndexOfCharSplit(a: string, b: string, c: char)
    requires |b| > 0 && b[0] == c && c !in b[1..]
    ensures LastIndexOfChar(a + b, c) == Some(|a|)
    decreases |b|
  {
    var s := a + b;
    if |b| > 1 {
      var b' := b[..|b| - 1];
      assert b[|b| - 1] == b[1..][|b| - 2];
      assert s[..|s| - 1] == a + b';
      assert b'[1..] == b[1..][..|b| - 2];
      LastIndexOfCharSplit(a, b', c);
    }
  }

  /** Splitting a path `prefix + rest` after its known prefix. */
  lemma SplitAfter(prefix: string, rest: string)
    ensures (prefix + rest)[..|prefix|] == prefix && (prefix + rest)[|prefix|..] == rest
  {
  }

  lemma {:induction false} CategoryAndQueryRoundTrip(category: string, filter: string)
    requires IsAscii(filter)
    ensures ParseCategoryAndQuery(category + "/?filter=" + Encode(filter)) == Some((category, filter))
  {
    var e2 := Encode(filter);
    EncodedHasNoDelimiters(filter);
    DecodeEncode(filter);
    var query := "/?filter=" + e2;
    QueryHasOneSlash(e2);
    LastIndexOfCharSplit(category, query, '/');
    SplitAfter(category, query);
    SplitAfter("/?filter=", e2);
    assert category + "/?filter=" + e2 == category + query;
  }

  lemma QueryHasOneSlash(e2: string)
    requires '/' !in e2
    ensures var query := "/?filter=" + e2; |query| > 0 && query[0] == '/' && '/' !in query[1..]
  {
    var query := "/?filter=" + e2;
    assert query[1..] == "?filter=" + e2;
    var lit := "?filter=";
    assert forall i :: 0 <= i < |lit| ==> lit[i] != '/';
  }

  lemma {:induction false} SegmentsRoundTrip(namespace: string, category: string, filter: string)
    requires IsAscii(namespace) && IsAscii(filter)
    ensures ParseSegments(Encode(namespace) + "/findings/" + category + "/?filter=" + Encode(filter))
         == Some(Target(namespace, category, filter))
  {
    var e1 := Encode(namespace);
    EncodedHasNoDelimiters(namespace);
    DecodeEncode(namespace);
    var body := category + "/?filter=" + Encode(filter);
    var tail := "/findings/" + body;
    var rest := e1 + tail;
    assert e1 + "/findings/" + category + "/?filter=" + Encode(filter) == rest;
    FirstIndexOfCharSplit(e1, tail, '/');
    SplitAfter(e1, tail);
    SplitAfter("/findings/", body);
    CategoryAndQueryRoundTrip(category, filter);
  }

  /** The link is unambiguous: the namespace, the category (whatever it
      contains, even `/`) and the filter can all be read back from it. */
  lemma {:induction false} ParseFindingsPathRoundTrip(namespace: string, category: string, filter: string)
    requires IsAscii(namespace) && IsAscii(filter)
    ensures ParseFindingsPath(FindingsPath(namespace, category, filter)) == Some(Target(namespace, category, filter))
  {
    var rest := Encode(namespace) + "/findings/" + category + "/?filter=" + Encode(filter);
    assert FindingsPath(namespace, category, filter) == "/t/" + rest;
    SplitAfter("/t/", rest);
    SegmentsRoundTrip(namespace, category, filter);
  }
}
