/**
 * The string operations the scraper applies to text it pulls out of pages:
 * `str.strip()`, `str.isdigit()`, `int(...)`, `str(n)` and `str.replace(old, "")`.
 * Only the ASCII range is modelled.
 */
module Strings {

  /** Python's `str.isspace()` restricted to ASCII: space, \t \n \x0b \x0c \r and \x1c-\x1f. */
  predicate IsSpace(c: char)
  {
    c == ' ' || (9 <= c as int <= 13) || (28 <= c as int <= 31)
  }

  predicate IsDigit(c: char)
  {
    '0' <= c <= '9'
  }

  /** `text.isdigit()`: non-empty and made of digits only. */
  predicate IsDigitText(s: string)
  {
    |s| > 0 && forall k :: 0 <= k < |s| ==> IsDigit(s[k])
  }

  /** Number of whitespace characters at the start of `s`. */
  function LeadingSpace(s: string): (n: nat)
    ensures n <= |s|
    ensures forall k :: 0 <= k < n ==> IsSpace(s[k])
    ensures n == |s| || !IsSpace(s[n])
  {
    if s != [] && IsSpace(s[0]) then 1 + LeadingSpace(s[1..]) else 0
  }

  /** Number of whitespace characters at the end of `s`. */
  function TrailingSpace(s: string): (n: nat)
    ensures n <= |s|
    ensures forall k :: |s| - n <= k < |s| ==> IsSpace(s[k])
    ensures n == |s| || !IsSpace(s[|s| - 1 - n])
  {
    if s != [] && IsSpace(s[|s| - 1]) then 1 + TrailingSpace(s[..|s| - 1]) else 0
  }

  /** A string that `Strip` leaves alone: empty, or with non-space characters at both ends. */
  predicate Stripped(s: string)
  {
    s == [] || (!IsSpace(s[0]) && !IsSpace(s[|s| - 1]))
  }

  /**
   * `s.strip()`: the result is a slice of `s` whose ends are not whitespace,
   * and everything cut off on either side is whitespace.
   */
  function Strip(s: string): (r: string)
    ensures Stripped(r)
    ensures exists i, j :: 0 <= i <= j <= |s| && s[i..j] == r
                           && (forall k :: 0 <= k < i ==> IsSpace(s[k]))
                           && (forall k :: j <= k < |s| ==> IsSpace(s[k]))
  {
    var i := LeadingSpace(s);
    var t := s[i..];
    var j := TrailingSpace(t);
    var r := t[..|t| - j];
    assert s[i..i + |r|] == r;
    assert forall k :: i + |r| <= k < |s| ==> s[k] == t[k - i];
    r
  }

  lemma StrippedIsFixed(s: string)
    requires Stripped(s)
    ensures Strip(s) == s
  {
    assert LeadingSpace(s) == 0;
    assert s[0..] == s;
    assert TrailingSpace(s) == 0;
  }

  /** Stripping twice is stripping once. */
  lemma StripIdempotent(s: string)
    ensures Strip(Strip(s)) == Strip(s)
  {
    StrippedIsFixed(Strip(s));
  }

  /** `int(s)` for a string of decimal digits (leading zeros allowed). */
  function DigitsValue(s: string): (n: nat)
    requires forall k :: 0 <= k < |s| ==> IsDigit(s[k])
  {
    if s == [] then 0
    else
      var last := s[|s| - 1];
      assert IsDigit(last);
      DigitsValue(s[..|s| - 1]) * 10 + (last as int - '0' as int)
  }

  function DigitChar(d: nat): (c: char)
    requires d < 10
    ensures IsDigit(c) && c as int - '0' as int == d
  {
    ('0' as int + d) as char
  }

  /** `str(n)`: the decimal spelling of `n`, without leading zeros. */
  function Decimal(n: nat): (s: string)
    ensures IsDigitText(s)
    ensures s[0] == '0' <==> n == 0
    decreases n
  {
    if n < 10 then [DigitChar(n)] else Decimal(n / 10) + [DigitChar(n % 10)]
  }

  /** `int(str(n)) == n`. */
  lemma {:induction false} DecimalRoundTrip(n: nat)
    ensures DigitsValue(Decimal(n)) == n
    decreases n
  {
    var s := Decimal(n);
    if n >= 10 {
      DecimalRoundTrip(n / 10);
      assert s[..|s| - 1] == Decimal(n / 10);
    }
  }

  /**
   * `str(n)` is the only spelling of `n` without leading zeros: any digit
   * string whose value is `n` and that is "0" or starts with a non-zero digit
   * is `Decimal(n)`.
   */
  lemma {:induction false} DecimalCanonical(t: string, n: nat)
    requires IsDigitText(t) && (|t| == 1 || t[0] != '0')
    requires DigitsValue(t) == n
    ensures t == Decimal(n)
    decreases |t|
  {
    var init := t[..|t| - 1];
    var d := t[|t| - 1] as int - '0' as int;
    assert n == DigitsValue(init) * 10 + d && 0 <= d < 10;
    if |t| == 1 {
      assert init == [];
      assert [DigitChar(n)] == t;
    } else {
      assert init[0] == t[0];
      DecimalCanonical(init, n / 10);
      assert n / 10 != 0;
      assert DigitChar(n % 10) == t[|t| - 1];
      assert init + [t[|t| - 1]] == t;
    }
  }

  lemma DecimalInjective(m: nat, n: nat)
    requires Decimal(m) == Decimal(n)
    ensures m == n
  {
    DecimalRoundTrip(m);
    DecimalRoundTrip(n);
  }

  /** `pat` occurs in `s` starting at index `i`. */
  predicate OccursAt(s: string, pat: string, i: nat)
  {
    i + |pat| <= |s| && s[i..i + |pat|] == pat
  }

  /**
   * `s.replace(pat, "")`: scans left to right and deletes every
   * non-overlapping occurrence of `pat`.
   */
  function RemoveAll(s: string, pat: string): (r: string)
    requires |pat| > 0
    ensures |r| <= |s|
    decreases |s|
  {
    if |s| < |pat| then s
    else if s[..|pat|] == pat then RemoveAll(s[|pat|..], pat)
    else [s[0]] + RemoveAll(s[1..], pat)
  }

  /**
   * The find-and-skip step of `replace`: when the leftmost occurrence of `pat`
   * starts at `i`, everything before it is kept, that occurrence is dropped,
   * and the scan resumes right after it.
   */
  lemma RemoveAllFirst(s: string, pat: string, i: nat)
    requires |pat| > 0
    requires OccursAt(s, pat, i)
    requires forall j :: 0 <= j < i ==> !OccursAt(s, pat, j)
    ensures RemoveAll(s, pat) == s[..i] + RemoveAll(s[i + |pat|..], pat)
  {
    var p, q := s[..i], s[i..];
    assert p + q == s;
    PrefixKept(p, q, pat);
    assert q[..|pat|] == pat;
    assert q[|pat|..] == s[i + |pat|..];
  }

  /**
   * Characters before the first place where `pat` could start are kept as
   * they are, however the rest is processed.
   */
  lemma {:induction false} PrefixKept(p: string, q: string, pat: string)
    requires |pat| > 0 && |pat| <= |q|
    requires forall j :: 0 <= j < |p| ==> !OccursAt(p + q, pat, j)
    ensures RemoveAll(p + q, pat) == p + RemoveAll(q, pat)
    decreases |p|
  {
    if p == [] {
      assert p + q == q;
    } else {
      var s := p + q;
      var rest := RemoveAll(q, pat);
      assert !OccursAt(s, pat, 0);
      assert s[1..] == p[1..] + q;
      assert RemoveAll(s, pat) == [p[0]] + RemoveAll(p[1..] + q, pat) by {
        RemoveAllKeep(s, pat);
      }
      assert RemoveAll(p[1..] + q, pat) == p[1..] + rest by {
        NoneBeforeInTail(p, q, pat);
        PrefixKept(p[1..], q, pat);
      }
      ConsBack(p, rest);
    }
  }

  /** Where `pat` does not start the string, its first character is kept. */
  lemma RemoveAllKeep(s: string, pat: string)
    requires |pat| > 0 && |pat| <= |s| && !OccursAt(s, pat, 0)
    ensures RemoveAll(s, pat) == [s[0]] + RemoveAll(s[1..], pat)
  {
    assert s[..|pat|] != pat;
  }

  lemma ConsBack(p: string, rest: string)
    requires |p| > 0
    ensures [p[0]] + (p[1..] + rest) == p + rest
  {
    assert [p[0]] + p[1..] == p;
  }

  /** Dropping the first character of `p` keeps `p`'s positions free of `pat`. */
  lemma NoneBeforeInTail(p: string, q: string, pat: string)
    requires |p| > 0
    requires forall j :: 0 <= j < |p| ==> !OccursAt(p + q, pat, j)
    ensures forall j :: 0 <= j < |p| - 1 ==> !OccursAt(p[1..] + q, pat, j)
  {
    forall j | 0 <= j < |p| - 1 ensures !OccursAt(p[1..] + q, pat, j) {
      if OccursAt(p[1..] + q, pat, j) {
        assert (p[1..] + q)[j..j + |pat|] == (p + q)[j + 1..j + 1 + |pat|];
        assert OccursAt(p + q, pat, j + 1);
      }
    }
  }

  /** `"a.htmlb.html".replace(".html", "")` is `"ab"`. */
  lemma RemoveAllTwice()
    ensures RemoveAll("a.htmlb.html", ".html") == "ab"
  {
    var s := "a.htmlb.html";
    assert s[0..5][0] != ".html"[0];
    RemoveAllFirst(s, ".html", 1);
    var rest := s[6..];
    assert rest == "b.html";
    RemoveAllTrailing("b", ".html");
  }

  /** A string in which `pat` does not occur is returned unchanged. */
  lemma {:induction false} RemoveAllAbsent(s: string, pat: string)
    requires |pat| > 0
    requires forall i :: 0 <= i <= |s| ==> !OccursAt(s, pat, i)
    ensures RemoveAll(s, pat) == s
    decreases |s|
  {
    if |s| >= |pat| {
      assert !OccursAt(s, pat, 0);
      forall i | 0 <= i <= |s[1..]| ensures !OccursAt(s[1..], pat, i) {
        if OccursAt(s[1..], pat, i) {
          assert s[1..][i..i + |pat|] == s[i + 1..i + 1 + |pat|];
          assert OccursAt(s, pat, i + 1);
        }
      }
      RemoveAllAbsent(s[1..], pat);
    }
  }

  /** Removing `pat` from `pat + t` starts by dropping that leading copy. */
  lemma RemoveAllLeading(pat: string, t: string)
    requires |pat| > 0
    ensures RemoveAll(pat + t, pat) == RemoveAll(t, pat)
  {
    assert (pat + t)[..|pat|] == pat;
    assert (pat + t)[|pat|..] == t;
  }

  /** A trailing copy of `pat` after a string without `pat` is all that is removed. */
  lemma {:induction false} RemoveAllTrailing(t: string, pat: string)
    requires |pat| > 0
    requires forall i :: 0 <= i <= |t| ==> !OccursAt(t + pat, pat, i) || i == |t|
    ensures RemoveAll(t + pat, pat) == t
    decreases |t|
  {
    var s := t + pat;
    if t == [] {
      assert s[..|pat|] == pat && s[|pat|..] == [];
    } else {
      assert !OccursAt(s, pat, 0);
      assert s[1..] == t[1..] + pat;
      forall i | 0 <= i <= |t[1..]| ensures !OccursAt(t[1..] + pat, pat, i) || i == |t[1..]| {
        if OccursAt(t[1..] + pat, pat, i) {
          assert (t[1..] + pat)[i..i + |pat|] == s[i + 1..i + 1 + |pat|];
          assert OccursAt(s, pat, i + 1);
        }
      }
      RemoveAllTrailing(t[1..], pat);
      assert [t[0]] + t[1..] == t;
    }
  }

  /**
   * The deletion is a single pass: pieces left around a deleted occurrence
   * can join into a new one, which stays.
   */
  lemma RemoveAllSinglePass()
    ensures RemoveAll(".ht.htmlml", ".html") == ".html"
  {
    var s := ".ht.htmlml";
    assert s[..5][3] != ".html"[3];
    assert s[1..][..5][0] != ".html"[0];
    assert s[2..][..5][0] != ".html"[0];
    assert s[3..][..5] == ".html";
    assert s[3..][5..] == "ml";
  }
}
