/**
 * The small part of Python's `str` that hubploy relies on: `split` and `join`
 * on one separator character, `rsplit(sep, 1)`, `strip(c)`, `in`, `count`,
 * `startswith`, `isalpha` and the whitespace test behind `strip()`.
 */
module Text {

  /** Python's `str.isalpha`, restricted to ASCII letters. */
  predicate IsAlpha(c: char) {
    ('a' <= c <= 'z') || ('A' <= c <= 'Z')
  }

  /** The ASCII characters Python's `str.strip()` removes. */
  predicate IsSpace(c: char) {
    c == ' ' || c == '\t' || c == '\n' || c == '\r' || c == '\U{0B}' || c == '\U{0C}'
  }

  /** `s.strip() == ""`: the string holds whitespace only (or nothing). */
  predicate IsBlank(s: string) {
    forall i :: 0 <= i < |s| ==> IsSpace(s[i])
  }

  predicate StartsWith(s: string, prefix: string) {
    |prefix| <= |s| && s[..|prefix|] == prefix
  }

  /** `s.count(c)` */
  function Count(s: string, c: char): (n: nat)
    ensures n <= |s|
    ensures n == 0 <==> c !in s
  {
    if s == [] then 0 else (if s[0] == c then 1 else 0) + Count(s[1..], c)
  }

  /** Index of the first occurrence of `c`, as `s.index(c)`. */
  function FirstIndex(s: string, c: char): (i: nat)
    requires c in s
    ensures i < |s| && s[i] == c
    ensures forall k :: 0 <= k < i ==> s[k] != c
  {
    if s[0] == c then 0 else 1 + FirstIndex(s[1..], c)
  }

  /** Index of the last occurrence of `c`, as `s.rindex(c)`. */
  function LastIndex(s: string, c: char): (i: nat)
    requires c in s
    ensures i < |s| && s[i] == c
    ensures forall k :: i < k < |s| ==> s[k] != c
  {
    if s[|s| - 1] == c then |s| - 1 else LastIndex(s[..|s| - 1], c)
  }

  /** `s.split(sep)` for a one-character separator: never empty. */
  function Split(s: string, sep: char): (parts: seq<string>)
    ensures |parts| >= 1
  {
    if s == [] then [""]
    else
      var rest := Split(s[1..], sep);
      if s[0] == sep then [""] + rest
      else [[s[0]] + rest[0]] + rest[1..]
  }

  /** No part of a split holds the separator. */
  lemma {:induction false} SplitPartsFree(s: string, sep: char)
    ensures forall i :: 0 <= i < |Split(s, sep)| ==> sep !in Split(s, sep)[i]
  {
    if s != [] {
      SplitPartsFree(s[1..], sep);
    }
  }

  /** There is one more part than there are separators. */
  lemma {:induction false} SplitLength(s: string, sep: char)
    ensures |Split(s, sep)| == Count(s, sep) + 1
  {
    if s != [] {
      SplitLength(s[1..], sep);
    }
  }

  /** `sep.join(parts)` */
  function Join(parts: seq<string>, sep: char): string {
    if parts == [] then ""
    else if |parts| == 1 then parts[0]
    else parts[0] + [sep] + Join(parts[1..], sep)
  }

  /** Joining the parts of a split gives the string back. */
  lemma {:induction false} JoinSplit(s: string, sep: char)
    ensures Join(Split(s, sep), sep) == s
  {
    if s != [] {
      JoinSplit(s[1..], sep);
      var rest := Split(s[1..], sep);
      if s[0] != sep && |rest| > 1 {
        assert Split(s, sep)[1..] == rest[1..];
      }
    }
  }

  /** A string without the separator splits into itself alone. */
  lemma {:induction false} SplitWithoutSep(s: string, sep: char)
    requires sep !in s
    ensures Split(s, sep) == [s]
  {
    if s != [] {
      SplitWithoutSep(s[1..], sep);
      assert [s[0]] + s[1..] == s;
    }
  }

  /** The first part of a split ends at the first separator, and the rest splits the remainder. */
  lemma {:induction false} SplitAtFirst(s: string, sep: char)
    requires sep in s
    ensures Split(s, sep) == [s[..FirstIndex(s, sep)]] + Split(s[FirstIndex(s, sep) + 1..], sep)
  {
    var i := FirstIndex(s, sep);
    var tail := s[1..];
    if s[0] == sep {
      assert Split(s, sep) == [""] + Split(tail, sep);
      assert s[..i] == "";
    } else {
      var j := FirstIndex(tail, sep);
      assert j == i - 1;
      SplitAtFirst(tail, sep);
      var rest := Split(tail, sep);
      assert rest[0] == tail[..j] && rest[1..] == Split(tail[j + 1..], sep);
      assert tail[j + 1..] == s[i + 1..];
      assert [s[0]] + tail[..j] == s[..i];
    }
  }

  /** Counting distributes over concatenation. */
  lemma {:induction false} CountConcat(a: string, b: string, c: char)
    ensures Count(a + b, c) == Count(a, c) + Count(b, c)
  {
    if a != [] {
      assert (a + b)[1..] == a[1..] + b;
      CountConcat(a[1..], b, c);
    } else {
      assert a + b == b;
    }
  }

  /** Cutting at the first occurrence: none before it, one fewer after it. */
  lemma CountAfterFirst(s: string, c: char)
    requires c in s
    ensures var i := FirstIndex(s, c);
            c !in s[..i] && Count(s[i + 1..], c) == Count(s, c) - 1
  {
    var i := FirstIndex(s, c);
    assert s == s[..i] + s[i..];
    CountConcat(s[..i], s[i..], c);
    assert s[i..][1..] == s[i + 1..];
  }

  /** A string with exactly one separator splits into the text before and after it. */
  lemma SplitOnce(s: string, sep: char)
    requires Count(s, sep) == 1
    ensures var i := FirstIndex(s, sep);
            Split(s, sep) == [s[..i], s[i + 1..]] && sep !in s[i + 1..]
  {
    CountAfterFirst(s, sep);
    SplitAtFirst(s, sep);
    SplitWithoutSep(s[FirstIndex(s, sep) + 1..], sep);
  }

  /** An occurrence with no occurrence after it is the last one. */
  lemma LastIndexUnique(s: string, c: char, j: nat)
    requires j < |s| && s[j] == c && forall k :: j < k < |s| ==> s[k] != c
    ensures LastIndex(s, c) == j
  {
  }

  /** The last part of a split is everything after the last separator. */
  lemma {:induction false} LastPartOfSplit(s: string, sep: char)
    ensures var parts := Split(s, sep);
            parts[|parts| - 1] == if sep in s then s[LastIndex(s, sep) + 1..] else s
  {
    if s != [] {
      var tail := s[1..];
      if sep in tail {
        LastPartOfSplit(tail, sep);
        assert forall k :: 0 < k < |s| ==> s[k] == tail[k - 1];
        var j := 1 + LastIndex(tail, sep);
        assert s[j] == sep;
        LastIndexUnique(s, sep, j);
        assert s[j + 1..] == tail[j..];
        SplitLength(tail, sep);
      } else {
        SplitWithoutSep(tail, sep);
        if s[0] == sep {
          LastIndexUnique(s, sep, 0);
        } else {
          assert s == [s[0]] + tail;
          assert sep !in s;
        }
      }
    }
  }

  /** `s.lstrip(c)` */
  function TrimLeft(s: string, c: char): (r: string)
    ensures |r| <= |s| && r == s[|s| - |r|..]
    ensures forall k :: 0 <= k < |s| - |r| ==> s[k] == c
    ensures r == [] || r[0] != c
  {
    if s != [] && s[0] == c then TrimLeft(s[1..], c) else s
  }

  /** `s.rstrip(c)` */
  function TrimRight(s: string, c: char): (r: string)
    ensures |r| <= |s| && r == s[..|r|]
    ensures forall k :: |r| <= k < |s| ==> s[k] == c
    ensures r == [] || r[|r| - 1] != c
  {
    if s != [] && s[|s| - 1] == c then TrimRight(s[..|s| - 1], c) else s
  }

  /** `s.strip(c)`: neither starts nor ends with `c`, and is `s` itself when `s` has no `c`. */
  function Strip(s: string, c: char): (r: string)
    ensures r == [] || (r[0] != c && r[|r| - 1] != c)
    ensures c !in s ==> r == s
  {
    TrimRight(TrimLeft(s, c), c)
  }

  /**
   * What `strip` cuts off: the result is a middle part of `s`, and everything
   * removed on either side is `c`.
   */
  lemma StripIsMiddle(s: string, c: char)
    ensures var i := |s| - |TrimLeft(s, c)|;
            var r := Strip(s, c);
            && i + |r| <= |s| && r == s[i..i + |r|]
            && (forall k :: 0 <= k < i ==> s[k] == c)
            && (forall k :: i + |r| <= k < |s| ==> s[k] == c)
  {
    var left := TrimLeft(s, c);
    var r := TrimRight(left, c);
    var i := |s| - |left|;
    assert left == s[i..];
    assert r == left[..|r|];
    assert r == s[i..i + |r|];
    forall k | i + |r| <= k < |s|
      ensures s[k] == c
    {
      assert s[k] == left[k - i];
    }
  }
}
