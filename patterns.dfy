/**
 * Leftmost regular-expression search for patterns of the shape
 * `prefix(class+)suffix`, which covers the two regexes of the scraper:
 * `phone=([+\d]+)` and `/ads/(\d+)\.html`. The group is matched greedily; when
 * the suffix is empty or starts outside the class, backtracking cannot find a
 * different group (see `GroupIsTheWholeRun`), so the group is the whole run of
 * class characters after the prefix.
 */
module Patterns {
  import opened Wrappers
  import opened Strings

  /** `\d` and `[+\d]`, over ASCII. */
  datatype CharClass = Digits | PhoneChars

  predicate InClass(c: char, cls: CharClass)
  {
    match cls
    case Digits => IsDigit(c)
    case PhoneChars => c == '+' || IsDigit(c)
  }

  /** Length of the run of class characters that starts at index `i`. */
  function RunLength(s: string, i: nat, cls: CharClass): (n: nat)
    requires i <= |s|
    ensures i + n <= |s|
    ensures forall k :: i <= k < i + n ==> InClass(s[k], cls)
    ensures i + n == |s| || !InClass(s[i + n], cls)
    decreases |s| - i
  {
    if i < |s| && InClass(s[i], cls) then 1 + RunLength(s, i + 1, cls) else 0
  }

  /** No class character follows index `e`: a run that reaches `e` cannot be extended. */
  predicate EndsRun(s: string, e: nat, cls: CharClass)
  {
    e == |s| || (e < |s| && !InClass(s[e], cls))
  }

  /** The pattern matches at index `i`. */
  predicate MatchAt(s: string, i: nat, prefix: string, cls: CharClass, suffix: string)
  {
    && OccursAt(s, prefix, i)
    && var j := i + |prefix|;
       var n := RunLength(s, j, cls);
       n > 0 && OccursAt(s, suffix, j + n)
  }

  /** The group captured by a match at index `i`. */
  function Group(s: string, i: nat, prefix: string, cls: CharClass): string
    requires i + |prefix| <= |s|
  {
    var j := i + |prefix|;
    s[j..j + RunLength(s, j, cls)]
  }

  /** `i` is the leftmost index at or after `from` where the pattern matches. */
  predicate LeftmostMatch(s: string, from: nat, i: nat, prefix: string, cls: CharClass, suffix: string)
  {
    && from <= i <= |s|
    && MatchAt(s, i, prefix, cls, suffix)
    && forall k :: from <= k < i ==> !MatchAt(s, k, prefix, cls, suffix)
  }

  /** `re.search` started at index `from`: the start of the leftmost match, if any. */
  function FindFrom(s: string, from: nat, prefix: string, cls: CharClass, suffix: string): (r: Option<nat>)
    requires from <= |s|
    ensures r.None? <==> forall k :: from <= k <= |s| ==> !MatchAt(s, k, prefix, cls, suffix)
    ensures r.Some? ==> LeftmostMatch(s, from, r.value, prefix, cls, suffix)
    decreases |s| - from
  {
    if MatchAt(s, from, prefix, cls, suffix) then Some(from)
    else if from == |s| then None
    else
      var r := FindFrom(s, from + 1, prefix, cls, suffix);
      LeftmostMatchStep(s, from, prefix, cls, suffix);
      r
  }

  /** Where the pattern does not match at `from`, the leftmost match at or after `from + 1` is also the leftmost at or after `from`. */
  lemma LeftmostMatchStep(s: string, from: nat, prefix: string, cls: CharClass, suffix: string)
    requires !MatchAt(s, from, prefix, cls, suffix)
    ensures forall i :: LeftmostMatch(s, from + 1, i, prefix, cls, suffix) ==> LeftmostMatch(s, from, i, prefix, cls, suffix)
  {
  }

  /** The start of the leftmost match in the whole of `s`. */
  function Find(s: string, prefix: string, cls: CharClass, suffix: string): Option<nat>
  {
    FindFrom(s, 0, prefix, cls, suffix)
  }

  /** `re.search(...).group(1)`: the group of the leftmost match, or None without a match. */
  function Search(s: string, prefix: string, cls: CharClass, suffix: string): Option<string>
  {
    match Find(s, prefix, cls, suffix)
    case None => None
    case Some(i) => Some(Group(s, i, prefix, cls))
  }

  /** Every character of a captured group is in the class, and the group is not empty. */
  lemma GroupInClass(s: string, i: nat, prefix: string, cls: CharClass, suffix: string)
    requires MatchAt(s, i, prefix, cls, suffix)
    ensures |Group(s, i, prefix, cls)| > 0
    ensures forall k :: 0 <= k < |Group(s, i, prefix, cls)| ==> InClass(Group(s, i, prefix, cls)[k], cls)
    ensures OccursAt(s, prefix + Group(s, i, prefix, cls) + suffix, i)
    ensures EndsRun(s, i + |prefix| + |Group(s, i, prefix, cls)|, cls)
  {
    var g := Group(s, i, prefix, cls);
    var j := i + |prefix|;
    assert s[i..i + |prefix + g + suffix|] == s[i..j] + s[j..j + |g|] + s[j + |g|..j + |g| + |suffix|];
  }

  /**
   * A backtracking matcher accepts a group `s[j..j+m]` when it is a non-empty
   * run of class characters followed by the suffix. If the suffix starts with a
   * character outside the class, the only such group is the whole run.
   */
  lemma GroupIsTheWholeRun(s: string, j: nat, m: nat, cls: CharClass, suffix: string)
    requires j + m <= |s|
    requires |suffix| > 0 && !InClass(suffix[0], cls)
    requires forall k :: j <= k < j + m ==> InClass(s[k], cls)
    requires OccursAt(s, suffix, j + m)
    ensures m == RunLength(s, j, cls)
  {
    var n := RunLength(s, j, cls);
    assert s[j + m] == suffix[0];
    assert !InClass(s[j + m], cls);
    assert j + n == |s| || !InClass(s[j + n], cls);
  }
}
