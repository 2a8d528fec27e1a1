/**
 * Shortening of git commit hashes to image tags (hubploy/utils.py).
 * A tag made only of digits is read as a number by Helm's Go templating, so
 * the tag is cut to a prefix that always holds at least one letter.
 */
module Utils {
  import opened Results
  import opened Text

  /** The default `min_len` of `substring_with_alpha`. */
  const DefaultMinLength: int := 7

  predicate HasAlpha(s: string) {
    exists i :: 0 <= i < |s| && IsAlpha(s[i])
  }

  /**
   * The length of the shortest prefix of `s` that holds a letter: one past the
   * index of the first letter.
   */
  function AlphaPrefixLength(s: string): (n: nat)
    requires HasAlpha(s)
    ensures 1 <= n <= |s| && IsAlpha(s[n - 1])
    ensures forall j :: 0 <= j < n - 1 ==> !IsAlpha(s[j])
  {
    if IsAlpha(s[0]) then 1
    else
      var i :| 0 <= i < |s| && IsAlpha(s[i]);
      assert IsAlpha(s[1..][i - 1]);
      1 + AlphaPrefixLength(s[1..])
  }

  /** `first_alpha`: scans for the first letter; fails when there is none. */
  method FirstAlpha(s: string) returns (r: Result<nat>)
    ensures r.Ok? <==> HasAlpha(s)
    ensures r.Ok? ==> r.value == AlphaPrefixLength(s)
    ensures r.Err? ==> r.error == NoAlpha(s)
  {
    for i := 0 to |s|
      invariant forall j :: 0 <= j < i ==> !IsAlpha(s[j])
    {
      if IsAlpha(s[i]) {
        return Ok(i + 1);
      }
    }
    return Err(NoAlpha(s));
  }

  function Max(a: int, b: int): int { if a < b then b else a }

  function Min(a: int, b: int): int { if a < b then a else b }

  /**
   * `substring_with_alpha(s, min_len)`: the prefix `s[:max(min_len, first_alpha(s))]`.
   * It is a prefix of `s`, it holds a letter, and it is at least `min_len`
   * long unless `s` itself is shorter.
   */
  function SubstringWithAlpha(s: string, minLen: int): (r: Result<string>)
    ensures r.Ok? <==> HasAlpha(s)
    ensures r.Err? ==> r.error == NoAlpha(s)
    ensures r.Ok? ==> StartsWith(s, r.value) && HasAlpha(r.value)
    ensures r.Ok? ==> |r.value| >= Min(|s|, minLen)
  {
    if !HasAlpha(s) then Err(NoAlpha(s))
    else
      var n := AlphaPrefixLength(s);
      var k := Max(minLen, n);
      var cut := if k >= |s| then s else s[..k];
      assert IsAlpha(cut[n - 1]);
      Ok(cut)
  }

  /** The cut is exactly `min(len(s), max(min_len, first_alpha(s)))` long. */
  lemma SubstringWithAlphaLength(s: string, minLen: int)
    requires HasAlpha(s)
    ensures |SubstringWithAlpha(s, minLen).value| == Min(|s|, Max(minLen, AlphaPrefixLength(s)))
  {
  }

  /** Any prefix that still holds the first letter has its first letter at the same place. */
  lemma AlphaPrefixLengthOfPrefix(s: string, k: nat)
    requires HasAlpha(s) && AlphaPrefixLength(s) <= k <= |s|
    ensures HasAlpha(s[..k]) && AlphaPrefixLength(s[..k]) == AlphaPrefixLength(s)
  {
    var n := AlphaPrefixLength(s);
    assert IsAlpha(s[..k][n - 1]);
  }

  /** Shortening an already shortened tag changes nothing. */
  lemma SubstringWithAlphaIdempotent(s: string, minLen: int)
    requires HasAlpha(s)
    ensures SubstringWithAlpha(SubstringWithAlpha(s, minLen).value, minLen) == SubstringWithAlpha(s, minLen)
  {
    var n := AlphaPrefixLength(s);
    var r := SubstringWithAlpha(s, minLen).value;
    AlphaPrefixLengthOfPrefix(s, |r|);
    assert s[..|r|] == r;
  }

  /** The last line of git's output: the text after the last newline. */
  function LastLine(output: string): (line: string)
    ensures '\n' !in line
    ensures '\n' in output ==> line == output[LastIndex(output, '\n') + 1..]
    ensures '\n' !in output ==> line == output
  {
    var lines := Split(output, '\n');
    LastPartOfSplit(output, '\n');
    lines[|lines| - 1]
  }

  /**
   * `last_modified_commit`: the tag for the oldest of the `n` hashes git
   * printed, i.e. of the last line of its output. Running git is not modelled;
   * its output is the argument.
   */
  function LastModifiedCommit(gitOutput: string): (r: Result<string>)
    ensures r.Ok? <==> HasAlpha(LastLine(gitOutput))
    ensures r.Ok? ==> '\n' !in r.value && HasAlpha(r.value)
    ensures r.Ok? ==> StartsWith(LastLine(gitOutput), r.value)
    ensures r.Ok? ==> |r.value| >= Min(|LastLine(gitOutput)|, DefaultMinLength)
    ensures r.Ok? ==>
              |r.value| == Min(|LastLine(gitOutput)|, Max(DefaultMinLength, AlphaPrefixLength(LastLine(gitOutput))))
  {
    var r := SubstringWithAlpha(LastLine(gitOutput), DefaultMinLength);
    if r.Ok? then
      SubstringWithAlphaLength(LastLine(gitOutput), DefaultMinLength);
      assert forall j :: 0 <= j < |r.value| ==> r.value[j] == LastLine(gitOutput)[j];
      r
    else r
  }
}
