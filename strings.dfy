/** The few Python `str` built-ins the core relies on: `sep.join(parts)`,
    `s.split(sep)` with an explicit one-character separator, and the greedy
    character-class repetition of a regular expression (`[a-z]+`, `\S*`). */
module Strings {

  /** Python's `sep.join(parts)` for a one-character separator;
      `",".join([])` is the empty string. */
  function Join(parts: seq<string>, sep: char): string
  {
    if |parts| == 0 then ""
    else if |parts| == 1 then parts[0]
    else parts[0] + [sep] + Join(parts[1..], sep)
  }

  /** Python's `s.count(c)` for one character. */
  function Count(s: string, c: char): nat
  {
    if s == [] then 0 else (if s[0] == c then 1 else 0) + Count(s[1..], c)
  }

  /** A character occurs nowhere exactly when it is counted zero times. */
  lemma {:induction false} CountAbsent(s: string, c: char)
    ensures Count(s, c) == 0 <==> c !in s
  {
    if s != [] {
      CountAbsent(s[1..], c);
      assert s == [s[0]] + s[1..];
    }
  }

  /** Python's `s.split(sep)` with an explicit separator: it always yields one
      more piece than `s` has separators, none of the pieces holds the separator,
      and joining the pieces gives `s` back (`"".split("@") == [""]`). */
  function Split(s: string, sep: char): (parts: seq<string>)
    ensures |parts| == Count(s, sep) + 1
    ensures forall i :: 0 <= i < |parts| ==> sep !in parts[i]
    ensures Join(parts, sep) == s
  {
    if s == [] then [""]
    else
      var rest := Split(s[1..], sep);
      assert s == [s[0]] + s[1..];
      if s[0] == sep then
        JoinCons("", rest, sep);
        [""] + rest
      else
        var first := [s[0]] + rest[0];
        JoinCons(rest[0], rest[1..], sep);
        JoinCons(first, rest[1..], sep);
        assert rest == [rest[0]] + rest[1..];
        [first] + rest[1..]
  }

  /** Joining a list given as its head and tail. */
  lemma JoinCons(x: string, ys: seq<string>, sep: char)
    ensures Join([x] + ys, sep) == if ys == [] then x else x + [sep] + Join(ys, sep)
  {
    assert ([x] + ys)[1..] == ys;
  }

  /** Splitting undoes joining when no piece holds the separator (the empty
      list is the exception: it joins to "" which splits to [""]). */
  lemma {:induction false} SplitJoin(parts: seq<string>, sep: char)
    requires |parts| > 0
    requires forall i :: 0 <= i < |parts| ==> sep !in parts[i]
    ensures Split(Join(parts, sep), sep) == parts
  {
    var s := Join(parts, sep);
    var r := Split(s, sep);
    SplitUnique(s, sep, parts);
  }

  /** The pieces of `s` are the only sequence of separator-free strings that
      joins to `s`. */
  lemma {:induction false} SplitUnique(s: string, sep: char, parts: seq<string>)
    requires |parts| > 0
    requires forall i :: 0 <= i < |parts| ==> sep !in parts[i]
    requires Join(parts, sep) == s
    ensures Split(s, sep) == parts
    decreases |s|
  {
    var p0 := parts[0];
    if |parts| == 1 {
      SplitFree(p0, sep);
    } else {
      var tail := Join(parts[1..], sep);
      assert s == p0 + [sep] + tail;
      SplitUnique(tail, sep, parts[1..]);
      SplitAround(p0, tail, sep);
      assert parts == [p0] + parts[1..];
    }
  }

  /** A string free of the separator splits into itself alone. */
  lemma {:induction false} SplitFree(s: string, sep: char)
    requires sep !in s
    ensures Split(s, sep) == [s]
  {
    var r := Split(s, sep);
    CountAbsent(s, sep);
    assert |r| == 1;
  }

  /** Splitting `a + [sep] + b`, where `a` is separator-free, puts `a` first and
      then the pieces of `b`. */
  lemma {:induction false} SplitAround(a: string, b: string, sep: char)
    requires sep !in a
    ensures Split(a + [sep] + b, sep) == [a] + Split(b, sep)
    decreases |a|
  {
    var s := a + [sep] + b;
    if a == [] {
      assert s[1..] == b;
    } else {
      assert s[1..] == a[1..] + [sep] + b;
      SplitAround(a[1..], b, sep);
      assert [a[0]] + a[1..] == a;
    }
  }

  /** The number of leading characters of `s` that satisfy `p`: a greedy
      regular-expression repetition of one character class. */
  function Span(s: string, p: char -> bool): (n: nat)
    ensures n <= |s|
    ensures forall i :: 0 <= i < n ==> p(s[i])
    ensures n == |s| || !p(s[n])
  {
    if s == [] || !p(s[0]) then 0 else 1 + Span(s[1..], p)
  }

  /** Any `m` whose prefix satisfies `p` and which stops at the end or at a
      character failing `p` is the span: greedy matching has one answer. */
  lemma SpanUnique(s: string, p: char -> bool, m: nat)
    requires m <= |s|
    requires forall i :: 0 <= i < m ==> p(s[i])
    requires m == |s| || !p(s[m])
    ensures Span(s, p) == m
  {
  }
}
