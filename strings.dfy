/** The .NET string helpers the filtering code relies on: `String.Join`, `String.Split(char)`,
    `String.IsNullOrWhiteSpace`, with C#'s null string modelled as the empty string. */
module Strings {

  /** `String.Join(sep, parts)`: the parts with `sep` between each adjacent pair. */
  function Join(sep: string, parts: seq<string>): (r: string)
    ensures |parts| > 0 ==> parts[0] <= r
  {
    if |parts| == 0 then ""
    else if |parts| == 1 then parts[0]
    else parts[0] + sep + Join(sep, parts[1..])
  }

  /** Appending one more part appends the separator and that part. */
  lemma {:induction false} JoinSnoc(sep: string, parts: seq<string>, x: string)
    ensures Join(sep, parts + [x]) == if parts == [] then x else Join(sep, parts) + sep + x
  {
    if |parts| == 1 {
      assert parts + [x] == [parts[0], x];
    } else if |parts| > 1 {
      assert (parts + [x])[1..] == parts[1..] + [x];
      JoinSnoc(sep, parts[1..], x);
    }
  }

  /** Characters added in front of the first part end up in front of the joined string. */
  lemma JoinPrepend(sep: string, pre: string, parts: seq<string>)
    requires parts != []
    ensures Join(sep, [pre + parts[0]] + parts[1..]) == pre + Join(sep, parts)
  {
    var ps := [pre + parts[0]] + parts[1..];
    assert ps[1..] == parts[1..];
  }

  /** `String.Split(sep)` with no options: every maximal run between separators, empty runs
      included, so `n` separators always give `n + 1` parts. */
  function Split(s: string, sep: char): (parts: seq<string>)
    ensures |parts| >= 1
    ensures forall p :: p in parts ==> sep !in p
    ensures Join([sep], parts) == s
  {
    if s == [] then [""]
    else
      var rest := Split(s[1..], sep);
      if s[0] == sep then
        assert ([""] + rest)[1..] == rest;
        assert s == [sep] + s[1..];
        [""] + rest
      else
        JoinPrepend([sep], [s[0]], rest);
        assert s == [s[0]] + s[1..];
        assert forall p :: p in [[s[0]] + rest[0]] + rest[1..] ==> p == [s[0]] + rest[0] || p in rest;
        [[s[0]] + rest[0]] + rest[1..]
  }

  /** Split undoes Join: parts free of the separator come back unchanged. */
  lemma {:induction false} SplitJoin(parts: seq<string>, sep: char)
    requires |parts| >= 1
    requires forall p :: p in parts ==> sep !in p
    ensures Split(Join([sep], parts), sep) == parts
    decreases |Join([sep], parts)|
  {
    var s := Join([sep], parts);
    if parts[0] == [] {
      if |parts| > 1 {
        assert s == [sep] + Join([sep], parts[1..]);
        assert s[1..] == Join([sep], parts[1..]);
        assert forall p :: p in parts[1..] ==> p in parts;
        SplitJoin(parts[1..], sep);
        assert parts == [""] + parts[1..];
      }
    } else {
      var c := parts[0][0];
      var tail := [parts[0][1..]] + parts[1..];
      assert parts[0] == [c] + parts[0][1..];
      assert c != sep by { assert parts[0][0] in parts[0]; }
      JoinPrepend([sep], [c], tail);
      assert [[c] + tail[0]] + tail[1..] == parts;
      assert s == [c] + Join([sep], tail);
      assert s[1..] == Join([sep], tail);
      forall p | p in tail ensures sep !in p {
        if p == parts[0][1..] {
          assert forall ch :: ch in p ==> ch in parts[0];
        } else {
          assert p in parts;
        }
      }
      SplitJoin(tail, sep);
    }
  }

  /** `Char.IsWhiteSpace`: the Unicode space, line and paragraph separators, the ASCII
      control characters U+0009 to U+000D, and U+0085. */
  predicate IsWhiteSpace(c: char)
    ensures '!' <= c <= '~' ==> !IsWhiteSpace(c)
  {
    || c == ' ' || c == '\t' || c == '\n' || c == '\r'
    || c == '\U{000B}' || c == '\U{000C}' || c == '\U{0085}' || c == '\U{00A0}'
    || c == '\U{1680}' || ('\U{2000}' <= c <= '\U{200A}') || c == '\U{2028}' || c == '\U{2029}'
    || c == '\U{202F}' || c == '\U{205F}' || c == '\U{3000}'
  }

  /** `String.IsNullOrWhiteSpace`: empty (or null) or made only of white space. */
  predicate IsNullOrWhiteSpace(s: string)
    ensures s == "" ==> IsNullOrWhiteSpace(s)
  {
    forall i :: 0 <= i < |s| ==> IsWhiteSpace(s[i])
  }

  /** LINQ's `Where(fc => fc != "")` over strings. */
  function DropEmpty(xs: seq<string>): (r: seq<string>)
    ensures |r| <= |xs|
    ensures forall x :: x in r <==> x in xs && x != ""
  {
    if xs == [] then []
    else
      var rest := DropEmpty(xs[1..]);
      assert forall x :: x in xs <==> x == xs[0] || x in xs[1..];
      if xs[0] == "" then rest else [xs[0]] + rest
  }
}
