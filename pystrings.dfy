/**
 * The pieces of Python's `str` behaviour that the model's string builders rely on:
 * truthiness of an optional string, `sep.join(parts)`, and, as the inverse that the
 * round-trip lemmas are stated against, `s.count(c)` and `s.split(c)` for a
 * one-character separator.
 */
module PyStrings {
  import opened Wrappers

  /** Python truthiness of an `Optional[str]`: both `None` and `""` are false. */
  predicate Truthy(o: Option<string>) {
    o.Some? && o.value != ""
  }

  /** `a` is a suffix of `b`. */
  predicate IsSuffix(a: string, b: string) {
    |a| <= |b| && b[|b| - |a|..] == a
  }

  /** `sep.join(parts)`: the parts in order, with `sep` between neighbours. */
  function Join(parts: seq<string>, sep: string): (r: string)
    ensures |parts| > 0 ==> parts[0] <= r
    ensures |parts| > 0 ==> IsSuffix(parts[|parts| - 1], r)
    decreases |parts|
  {
    if |parts| == 0 then ""
    else if |parts| == 1 then parts[0]
    else
      var tail := Join(parts[1..], sep);
      assert parts[1..][|parts[1..]| - 1] == parts[|parts| - 1];
      assert (parts[0] + sep + tail)[|parts[0] + sep + tail| - |parts[|parts| - 1]|..]
          == tail[|tail| - |parts[|parts| - 1]|..];
      parts[0] + sep + tail
  }

  /** Joining two or three parts, written out. */
  lemma JoinSmall(a: string, b: string, c: string, sep: string)
    ensures Join([a], sep) == a
    ensures Join([a, b], sep) == a + sep + b
    ensures Join([a, b, c], sep) == a + sep + b + sep + c
  {
    assert [a, b][1..] == [b];
    assert [a, b, c][1..] == [b, c];
    assert [b, c][1..] == [c];
    assert Join([b, c], sep) == b + sep + c;
  }

  /** `s.count(c)` for a single character `c`. */
  function Count(s: string, c: char): (n: nat)
    ensures n <= |s|
    ensures n == 0 <==> c !in s
  {
    if s == [] then 0
    else (if s[0] == c then 1 else 0) + Count(s[1..], c)
  }

  /**
   * `s.split(c)` for a single character `c`: the maximal pieces of `s` that do not
   * contain `c`, in order. As in Python, the empty string splits into `[""]`.
   */
  function Split(s: string, c: char): (r: seq<string>)
    ensures |r| == Count(s, c) + 1
    ensures forall i :: 0 <= i < |r| ==> c !in r[i]
  {
    if s == [] then [""]
    else
      var rest := Split(s[1..], c);
      if s[0] == c then [""] + rest
      else [[s[0]] + rest[0]] + rest[1..]
  }

  /** No part contains the separator character `c`. */
  predicate FreeOf(parts: seq<string>, c: char) {
    forall i :: 0 <= i < |parts| ==> c !in parts[i]
  }

  /** A string without the separator splits into itself alone. */
  lemma {:induction false} SplitFree(s: string, c: char)
    requires c !in s
    ensures Split(s, c) == [s]
  {
    if s != [] {
      SplitFree(s[1..], c);
      assert [s[0]] + s[1..] == s;
    }
  }

  /** A separator-free prefix followed by the separator becomes the first piece. */
  lemma {:induction false} SplitAfterPiece(a: string, c: char, b: string)
    requires c !in a
    ensures Split(a + [c] + b, c) == [a] + Split(b, c)
  {
    var s := a + [c] + b;
    if a == [] {
      assert s[0] == c && s[1..] == b;
    } else {
      assert s[0] == a[0] && s[1..] == a[1..] + [c] + b;
      SplitAfterPiece(a[1..], c, b);
      assert [a[0]] + a[1..] == a;
    }
  }

  /** Round trip: splitting a join of separator-free parts gives the parts back. */
  lemma {:induction false} SplitJoin(parts: seq<string>, c: char)
    requires |parts| > 0 && FreeOf(parts, c)
    ensures Split(Join(parts, [c]), c) == parts
    decreases |parts|
  {
    if |parts| == 1 {
      SplitFree(parts[0], c);
    } else {
      SplitJoin(parts[1..], c);
      SplitAfterPiece(parts[0], c, Join(parts[1..], [c]));
      assert [parts[0]] + parts[1..] == parts;
    }
  }

  /** Joining a part in front of a non-empty list puts one separator after it. */
  lemma JoinCons(a: string, rest: seq<string>, sep: string)
    requires |rest| > 0
    ensures Join([a] + rest, sep) == a + sep + Join(rest, sep)
  {
    assert ([a] + rest)[1..] == rest;
  }

  /** Prepending a character to the first part prepends it to the join. */
  lemma JoinExtendFirst(x: char, rest: seq<string>, sep: string)
    requires |rest| > 0
    ensures Join([[x] + rest[0]] + rest[1..], sep) == [x] + Join(rest, sep)
  {
    if |rest| > 1 {
      JoinCons([x] + rest[0], rest[1..], sep);
      JoinCons(rest[0], rest[1..], sep);
      assert [rest[0]] + rest[1..] == rest;
    }
  }

  /** Joining the pieces of a non-empty string restores its first character in front. */
  lemma JoinSplitUnfold(s: string, c: char)
    requires s != []
    ensures Join(Split(s, c), [c]) == [s[0]] + Join(Split(s[1..], c), [c])
  {
    var rest := Split(s[1..], c);
    if s[0] == c {
      assert Split(s, c) == [""] + rest;
      JoinCons("", rest, [c]);
    } else {
      assert Split(s, c) == [[s[0]] + rest[0]] + rest[1..];
      JoinExtendFirst(s[0], rest, [c]);
    }
  }

  /** Round trip the other way: joining the pieces of any string gives the string back. */
  lemma {:induction false} JoinSplit(s: string, c: char)
    ensures Join(Split(s, c), [c]) == s
  {
    if s != [] {
      JoinSplit(s[1..], c);
      JoinSplitUnfold(s, c);
      assert s == [s[0]] + s[1..];
    }
  }

  /** Joining separator-free parts is injective. */
  lemma JoinInjective(p: seq<string>, q: seq<string>, c: char)
    requires |p| > 0 && FreeOf(p, c)
    requires |q| > 0 && FreeOf(q, c)
    requires Join(p, [c]) == Join(q, [c])
    ensures p == q
  {
    SplitJoin(p, c);
    SplitJoin(q, c);
  }

  /** Joining n separator-free parts puts exactly n - 1 separators in the result. */
  lemma CountJoin(parts: seq<string>, c: char)
    requires |parts| > 0 && FreeOf(parts, c)
    ensures Count(Join(parts, [c]), c) == |parts| - 1
  {
    SplitJoin(parts, c);
  }
}
