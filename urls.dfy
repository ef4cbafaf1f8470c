/** How a page reads `router.query` from a URL: the part after the first `?`,
    split at `&` into `key=value` pairs, the first pair with a key winning.
    Percent-decoding is not modelled. */
module Urls {
  import opened Js

  /** `s.split(sep)`. */
  function SplitOn(s: string, sep: char): (parts: seq<string>)
    ensures |parts| > 0
    decreases |s|
  {
    var i := IndexOf(s, sep);
    if i == |s| then [s] else [s[..i]] + SplitOn(s[i + 1..], sep)
  }

  /** The text after the first `?`, or "" when the URL has no query. */
  function QueryString(url: string): string {
    var q := IndexOf(url, '?');
    if q < |url| then url[q + 1..] else ""
  }

  function KeyOf(pair: string): string {
    pair[..IndexOf(pair, '=')]
  }

  function ValueOf(pair: string): string {
    var e := IndexOf(pair, '=');
    if e < |pair| then pair[e + 1..] else ""
  }

  /** The value of the first pair whose key is `key`. */
  function Lookup(pairs: seq<string>, key: string): (r: Option<string>)
    ensures r.None? <==> forall i :: 0 <= i < |pairs| ==> KeyOf(pairs[i]) != key
  {
    if |pairs| == 0 then None
    else if KeyOf(pairs[0]) == key then Some(ValueOf(pairs[0]))
    else Lookup(pairs[1..], key)
  }

  /** `router.query[key]` for a page reached at `url`. */
  function QueryParam(url: string, key: string): Option<string> {
    Lookup(SplitOn(QueryString(url), '&'), key)
  }

  lemma {:induction false} IndexOfAfter(a: string, b: string, c: char)
    requires c !in a
    ensures IndexOf(a + b, c) == |a| + IndexOf(b, c)
  {
    if |a| == 0 {
      assert a + b == b;
    } else {
      assert (a + b)[0] == a[0];
      assert (a + b)[1..] == a[1..] + b;
      IndexOfAfter(a[1..], b, c);
    }
  }

  lemma IndexOfAbsent(s: string, c: char)
    requires c !in s
    ensures IndexOf(s, c) == |s|
  {
  }

  lemma SplitOnJoined(a: string, b: string, sep: char)
    requires sep !in a
    ensures SplitOn(a + [sep] + b, sep) == [a] + SplitOn(b, sep)
  {
    var s := a + ([sep] + b);
    assert a + [sep] + b == s;
    assert IndexOf([sep] + b, sep) == 0;
    IndexOfAfter(a, [sep] + b, sep);
    assert s[..|a|] == a;
    assert s[|a| + 1..] == b;
  }

  /** A pair whose key has no `=` splits back into that key and value. */
  lemma PairParts(key: string, value: string)
    requires '=' !in key
    ensures KeyOf(key + "=" + value) == key
    ensures ValueOf(key + "=" + value) == value
  {
    var p := key + "=" + value;
    assert p == key + ("=" + value);
    IndexOfAfter(key, "=" + value, '=');
    assert p[..|key|] == key;
    assert p[|key| + 1..] == value;
  }

  predicate PlainKey(k: string) {
    '=' !in k && '&' !in k
  }

  lemma QueryStringAfter(path: string, query: string)
    requires '?' !in path
    ensures QueryString(path + "?" + query) == query
  {
    var url := path + "?" + query;
    assert url == path + ("?" + query);
    IndexOfAfter(path, "?" + query, '?');
    assert url[|path| + 1..] == query;
  }

  lemma PlainPair(k: string, v: string)
    requires PlainKey(k) && '&' !in v
    ensures '&' !in k + "=" + v
  {
    var p := k + "=" + v;
    forall i | 0 <= i < |p| ensures p[i] != '&' {
      if i < |k| { assert p[i] == k[i]; }
      else if i > |k| { assert p[i] == v[i - |k| - 1]; }
    }
  }

  lemma LookupTwo(k1: string, v1: string, k2: string, v2: string, key: string)
    requires '=' !in k1 && '=' !in k2
    ensures Lookup([k1 + "=" + v1, k2 + "=" + v2], key)
         == if key == k1 then Some(v1) else if key == k2 then Some(v2) else None
  {
    PairParts(k1, v1);
    PairParts(k2, v2);
    var p1, p2 := k1 + "=" + v1, k2 + "=" + v2;
    assert [p1, p2][1..] == [p2];
    assert [p2][1..] == [];
  }

  /** A URL with two query pairs yields exactly those two parameters: the
      first key wins, any other key is absent. */
  lemma QueryOfTwoPairs(path: string, k1: string, v1: string, k2: string, v2: string, key: string)
    requires '?' !in path && PlainKey(k1) && PlainKey(k2)
    requires '&' !in v1 && '&' !in v2
    ensures QueryParam(path + "?" + k1 + "=" + v1 + "&" + k2 + "=" + v2, key)
         == if key == k1 then Some(v1) else if key == k2 then Some(v2) else None
  {
    var p1, p2 := k1 + "=" + v1, k2 + "=" + v2;
    assert path + "?" + k1 + "=" + v1 + "&" + k2 + "=" + v2 == path + "?" + (p1 + ['&'] + p2);
    QueryStringAfter(path, p1 + ['&'] + p2);
    PlainPair(k1, v1);
    PlainPair(k2, v2);
    SplitOnJoined(p1, p2, '&');
    IndexOfAbsent(p2, '&');
    LookupTwo(k1, v1, k2, v2, key);
  }
}
