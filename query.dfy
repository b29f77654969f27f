/** A simple reading of a relative link's query: the path ends at the first
    `?`, the query is cut at every `&`, and each piece is split at its first
    `=` into a name and a value (a piece with no `=` has an empty value, and an
    empty piece reads as an empty name and value). Percent-decoding,
    `+`-as-space and a `#` fragment are not part of this reading. */
module QueryStrings {

  /** Number of occurrences of `c` in `s`. */
  function Occurrences(s: string, c: char): (n: nat)
    ensures n == 0 <==> c !in s
    ensures n <= |s|
  {
    if s == [] then 0
    else (if s[0] == c then 1 else 0) + Occurrences(s[1..], c)
  }

  /** The pieces of `s` between occurrences of `c`; never empty, one more piece than separators. */
  function SplitOn(s: string, c: char): (parts: seq<string>)
    ensures |parts| == 1 + Occurrences(s, c)
  {
    if s == [] then [""]
    else
      var rest := SplitOn(s[1..], c);
      if s[0] == c then [""] + rest
      else [[s[0]] + rest[0]] + rest[1..]
  }

  /** `s` cut at its first `c`; without a `c` the whole of `s` and an empty remainder. */
  function SplitAtFirst(s: string, c: char): (pair: (string, string))
    ensures c !in pair.0
    ensures c in s ==> pair.0 + [c] + pair.1 == s
    ensures c !in s ==> pair == (s, "")
  {
    if s == [] then ("", "")
    else if s[0] == c then ("", s[1..])
    else
      var (before, after) := SplitAtFirst(s[1..], c);
      assert s == [s[0]] + s[1..];
      ([s[0]] + before, after)
  }

  /** Name/value pairs of a query string, in order; an empty query has none. */
  function ParseQuery(query: string): seq<(string, string)> {
    if query == [] then [] else ParsePieces(SplitOn(query, '&'))
  }

  function ParsePieces(pieces: seq<string>): (pairs: seq<(string, string)>)
    ensures |pairs| == |pieces|
  {
    if pieces == [] then [] else [SplitAtFirst(pieces[0], '=')] + ParsePieces(pieces[1..])
  }

  /** The path of a link and the name/value pairs of its query. */
  function ParseLink(url: string): (string, seq<(string, string)>) {
    var (path, query) := SplitAtFirst(url, '?');
    (path, ParseQuery(query))
  }

  lemma {:induction false} OccurrencesAppend(a: string, b: string, c: char)
    ensures Occurrences(a + b, c) == Occurrences(a, c) + Occurrences(b, c)
  {
    if a != [] {
      assert (a + b)[1..] == a[1..] + b;
      OccurrencesAppend(a[1..], b, c);
    } else {
      assert a + b == b;
    }
  }

  /** A separator in the middle splits the pieces of the two sides apart. */
  lemma {:induction false} SplitOnAround(a: string, b: string, c: char)
    ensures SplitOn(a + [c] + b, c) == SplitOn(a, c) + SplitOn(b, c)
  {
    if a == [] {
      assert a + [c] + b == [c] + b;
    } else {
      assert (a + [c] + b)[1..] == a[1..] + [c] + b;
      SplitOnAround(a[1..], b, c);
    }
  }

  /** A string without the separator is a single piece. */
  lemma {:induction false} SplitOnNone(a: string, c: char)
    requires c !in a
    ensures SplitOn(a, c) == [a]
  {
    if a != [] {
      SplitOnNone(a[1..], c);
      assert a == [a[0]] + a[1..];
    }
  }

  /** A name without `=` followed by `=` and a value reads back as that pair,
      whatever the value holds, `=` included. */
  lemma {:induction false} SplitAtFirstPrefix(name: string, value: string, c: char)
    requires c !in name
    ensures SplitAtFirst(name + [c] + value, c) == (name, value)
  {
    if name == [] {
      assert name + [c] + value == [c] + value;
    } else {
      assert (name + [c] + value)[1..] == name[1..] + [c] + value;
      SplitAtFirstPrefix(name[1..], value, c);
      assert name == [name[0]] + name[1..];
    }
  }
}
