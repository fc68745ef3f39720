/**
 * The JavaScript string built-ins the detector relies on, written out over
 * `seq<char>`: whitespace as `\s` and `trim()` see it, `trim`, the
 * `replace(/\s+/g, " ")` collapse, `toLowerCase` (ASCII, Latin-1 and Cyrillic
 * capitals), `includes`, `startsWith`, `length` and `substring(0, n)` in UTF-16
 * code units, `split(c)[0]`, `split(/\s+/).length` and
 * `parseInt(s, 10)`.
 */
module Text {
  import opened Wrappers

  /** A character JavaScript's `\s` class (and `trim`) treats as whitespace. */
  predicate IsSpace(c: char) {
    || c == ' ' || c == '\t' || c == '\n' || c == '\r' || c == '\U{B}' || c == '\U{C}'
    || c == '\U{A0}' || c == '\U{1680}' || ('\U{2000}' <= c <= '\U{200A}')
    || c == '\U{2028}' || c == '\U{2029}' || c == '\U{202F}' || c == '\U{205F}'
    || c == '\U{3000}' || c == '\U{FEFF}'
  }

  predicate IsDigit(c: char) { '0' <= c <= '9' }

  predicate IsUpper(c: char) { 'A' <= c <= 'Z' }

  predicate AllSpace(s: string) {
    forall i :: 0 <= i < |s| ==> IsSpace(s[i])
  }

  /**
   * Every whitespace character is a plain space that is followed by a
   * non-whitespace character: no run of two, none at the end, no tab or
   * line break.
   */
  predicate SingleSpaced(s: string) {
    forall i :: 0 <= i < |s| && IsSpace(s[i]) ==> s[i] == ' ' && i + 1 < |s| && !IsSpace(s[i + 1])
  }

  /** What `s.trim().replace(/\s+/g, " ")` always produces: single spaces only, none at either end. */
  predicate Normalized(s: string) {
    SingleSpaced(s) && (s != [] ==> !IsSpace(s[0]))
  }

  /**
   * A capital letter `toLowerCase` maps to a single small letter, in the
   * blocks the keyword catalog draws on: ASCII, Latin-1 and Cyrillic.
   */
  predicate IsCapital(c: char) {
    || ('A' <= c <= 'Z')
    || ('\U{C0}' <= c <= '\U{DE}' && c != '\U{D7}')
    || ('\U{400}' <= c <= '\U{42F}')
  }

  /** The small letter of a capital: Ѐ-Џ are 80 below theirs, the other capitals 32. */
  function LowerChar(c: char): (r: char)
    ensures !IsCapital(r)
    ensures !IsCapital(c) ==> r == c
  {
    if '\U{400}' <= c <= '\U{40F}' then (c as int + 80) as char
    else if IsCapital(c) then (c as int + 32) as char
    else c
  }

  /** `s.toLowerCase()` on the capitals of `IsCapital`. */
  function Lower(s: string): (r: string)
    ensures |r| == |s|
    ensures forall i :: 0 <= i < |r| ==> !IsCapital(r[i])
    ensures forall i :: 0 <= i < |s| && !IsCapital(s[i]) ==> r[i] == s[i]
  {
    seq(|s|, i requires 0 <= i < |s| => LowerChar(s[i]))
  }

  /** Lower-casing twice is lower-casing once. */
  lemma LowerIdempotent(s: string)
    ensures Lower(Lower(s)) == Lower(s)
  {
    var r := Lower(s);
    assert forall i :: 0 <= i < |r| ==> Lower(r)[i] == r[i];
  }

  /** `s.includes(sub)`. */
  predicate Contains(s: string, sub: string) {
    exists i :: 0 <= i <= |s| && sub <= s[i..]
  }

  /** `s.startsWith(p)`. */
  predicate StartsWith(s: string, p: string) {
    p <= s
  }

  /** How many UTF-16 code units JavaScript stores for `c`: two outside the Basic Multilingual Plane. */
  function Units(c: char): nat {
    if c as int < 0x1_0000 then 1 else 2
  }

  /** `s.length`, counted in UTF-16 code units. */
  function Length(s: string): (n: nat)
    ensures |s| <= n <= 2 * |s|
  {
    if s == [] then 0 else Units(s[0]) + Length(s[1..])
  }

  /**
   * `s.substring(0, n)` with `n` in UTF-16 code units: the longest prefix of
   * at most `n` units, so a character cut in half is left out whole.
   */
  function Prefix(s: string, n: nat): (r: string)
    ensures r <= s && Length(r) <= n
    ensures Length(s) <= n ==> r == s
    ensures |r| < |s| ==> n < Length(r) + Units(s[|r|])
  {
    if s == [] then []
    else if Units(s[0]) <= n then
      var rest := Prefix(s[1..], n - Units(s[0]));
      assert ([s[0]] + rest)[1..] == rest;
      [s[0]] + rest
    else []
  }

  /** A prefix that already fits is kept whole, so cutting twice is cutting once. */
  lemma PrefixIdempotent(s: string, n: nat)
    ensures Prefix(Prefix(s, n), n) == Prefix(s, n)
  {
  }

  /** The number of whitespace characters `s` starts with. */
  function LeadingSpaces(s: string): (n: nat)
    ensures n <= |s|
    ensures forall i :: 0 <= i < n ==> IsSpace(s[i])
    ensures n < |s| ==> !IsSpace(s[n])
  {
    if s != [] && IsSpace(s[0]) then 1 + LeadingSpaces(s[1..]) else 0
  }

  /** The number of whitespace characters `s` ends with. */
  function TrailingSpaces(s: string): (n: nat)
    ensures n <= |s|
    ensures forall i :: |s| - n <= i < |s| ==> IsSpace(s[i])
    ensures n < |s| ==> !IsSpace(s[|s| - n - 1])
  {
    if s != [] && IsSpace(s[|s| - 1]) then 1 + TrailingSpaces(s[..|s| - 1]) else 0
  }

  /** `s.trimStart()`: drop the leading whitespace. */
  function TrimStart(s: string): (r: string)
    ensures |r| <= |s| && r == s[|s| - |r|..]
    ensures forall i :: 0 <= i < |s| - |r| ==> IsSpace(s[i])
    ensures r != [] ==> !IsSpace(r[0])
  {
    s[LeadingSpaces(s)..]
  }

  /** `s.trimEnd()`: drop the trailing whitespace. */
  function TrimEnd(s: string): (r: string)
    ensures |r| <= |s| && r == s[..|r|]
    ensures forall i :: |r| <= i < |s| ==> IsSpace(s[i])
    ensures r != [] ==> !IsSpace(r[|r| - 1])
  {
    s[..|s| - TrailingSpaces(s)]
  }

  /** `s.trim()`. */
  function Trim(s: string): (r: string)
    ensures r != [] ==> !IsSpace(r[0]) && !IsSpace(r[|r| - 1])
    ensures r == [] <==> AllSpace(s)
  {
    TrimFacts(s);
    TrimEnd(TrimStart(s))
  }

  lemma TrimFacts(s: string)
    ensures var r := TrimEnd(TrimStart(s));
      (r != [] ==> !IsSpace(r[0])) && (r == [] <==> AllSpace(s))
  {
    var t := TrimStart(s);
    var r := TrimEnd(t);
    var a := |s| - |t|;
    if r != [] {
      assert r[0] == t[0];
      assert !AllSpace(s) by {
        assert s[a] == t[0];
      }
    } else {
      assert |t| == 0;
    }
  }

  /** `s.replace(/\s+/g, " ")`: every maximal run of whitespace becomes a single space. */
  function CollapseSpaces(s: string): (r: string)
    ensures |r| <= |s|
    ensures s != [] ==> r != [] && (IsSpace(r[0]) <==> IsSpace(s[0]))
    ensures s != [] && !IsSpace(s[|s| - 1]) ==> !IsSpace(r[|r| - 1])
    decreases |s|
  {
    if s == [] then []
    else if IsSpace(s[0]) then " " + CollapseSpaces(TrimStart(s[1..]))
    else [s[0]] + CollapseSpaces(s[1..])
  }

  /** Position `i` holds no whitespace, or a plain space not followed by whitespace. */
  predicate SpacingAt(s: string, i: nat)
    requires i < |s|
  {
    IsSpace(s[i]) ==> s[i] == ' ' && (i + 1 < |s| ==> !IsSpace(s[i + 1]))
  }

  /** Putting `h` in front keeps the spacing when `h` is a plain space before a non-space, or no space at all. */
  lemma ConsSpacing(h: char, rest: string)
    requires forall i :: 0 <= i < |rest| ==> SpacingAt(rest, i)
    requires IsSpace(h) ==> h == ' ' && (rest != [] ==> !IsSpace(rest[0]))
    ensures forall i :: 0 <= i < |[h] + rest| ==> SpacingAt([h] + rest, i)
  {
    var r := [h] + rest;
    forall i | 0 < i < |r|
      ensures SpacingAt(r, i)
    {
      assert SpacingAt(rest, i - 1);
      assert r[i] == rest[i - 1];
      if i + 1 < |r| {
        assert r[i + 1] == rest[i];
      }
    }
  }

  /** After the collapse every whitespace character is a plain space, and none is followed by another. */
  lemma {:induction false} CollapseSpacesSpacing(s: string)
    ensures forall i :: 0 <= i < |CollapseSpaces(s)| ==> SpacingAt(CollapseSpaces(s), i)
    decreases |s|
  {
    if s != [] {
      var t := if IsSpace(s[0]) then TrimStart(s[1..]) else s[1..];
      var h := if IsSpace(s[0]) then ' ' else s[0];
      assert CollapseSpaces(s) == [h] + CollapseSpaces(t);
      CollapseSpacesSpacing(t);
      ConsSpacing(h, CollapseSpaces(t));
    }
  }

  /** `s.trim().replace(/\s+/g, " ")`. */
  function Normalize(s: string): string {
    CollapseSpaces(Trim(s))
  }

  lemma NormalizeIsNormalized(s: string)
    ensures Normalized(Normalize(s))
    ensures Normalize(s) == [] <==> AllSpace(s)
  {
    var t := Trim(s);
    var r := CollapseSpaces(t);
    CollapseSpacesSpacing(t);
    if r != [] {
      forall i | 0 <= i < |r| && IsSpace(r[i])
        ensures r[i] == ' ' && i + 1 < |r| && !IsSpace(r[i + 1])
      {
        assert SpacingAt(r, i);
        assert i != |r| - 1;
      }
    }
  }

  /** A non-whitespace character survives the collapse. */
  lemma {:induction false} CollapseKeeps(s: string, i: nat)
    requires i < |s| && !IsSpace(s[i])
    ensures s[i] in CollapseSpaces(s)
    decreases |s|
  {
    if i == 0 {
      assert CollapseSpaces(s)[0] == s[0];
    } else if IsSpace(s[0]) {
      var t := TrimStart(s[1..]);
      var b := |s[1..]| - |t|;
      assert s[1..][i - 1] == s[i];
      assert t[i - 1 - b] == s[i];
      CollapseKeeps(t, i - 1 - b);
      assert CollapseSpaces(s) == " " + CollapseSpaces(t);
    } else {
      assert s[1..][i - 1] == s[i];
      CollapseKeeps(s[1..], i - 1);
      assert CollapseSpaces(s) == [s[0]] + CollapseSpaces(s[1..]);
    }
  }

  /** A non-whitespace character survives normalisation. */
  lemma NormalizeKeeps(s: string, i: nat)
    requires i < |s| && !IsSpace(s[i])
    ensures s[i] in Normalize(s)
  {
    var t := TrimStart(s);
    var a := |s| - |t|;
    assert t[i - a] == s[i];
    var u := TrimEnd(t);
    assert u[i - a] == s[i];
    CollapseKeeps(u, i - a);
  }

  /** A single-spaced string is left alone by the collapse. */
  lemma {:induction false} CollapseFixes(s: string)
    requires SingleSpaced(s)
    ensures CollapseSpaces(s) == s
    decreases |s|
  {
    if s != [] {
      assert SingleSpaced(s[1..]) by {
        forall i | 0 <= i < |s[1..]| && IsSpace(s[1..][i])
          ensures s[1..][i] == ' ' && i + 1 < |s[1..]| && !IsSpace(s[1..][i + 1])
        {
          assert s[1..][i] == s[i + 1];
        }
      }
      CollapseFixes(s[1..]);
      if IsSpace(s[0]) {
        assert LeadingSpaces(s[1..]) == 0;
        assert TrimStart(s[1..]) == s[1..];
        assert CollapseSpaces(s) == " " + CollapseSpaces(s[1..]);
      } else {
        assert CollapseSpaces(s) == [s[0]] + CollapseSpaces(s[1..]);
      }
    }
  }

  /** Normalising twice is normalising once. */
  lemma NormalizeIdempotent(s: string)
    ensures Normalize(Normalize(s)) == Normalize(s)
  {
    var n := Normalize(s);
    NormalizeIsNormalized(s);
    assert n != [] ==> !IsSpace(n[|n| - 1]);
    assert TrimStart(n) == n;
    assert TrimEnd(n) == n;
    CollapseFixes(n);
  }

  /** `trim()` of a string whose spaces are single and plain is normalised. */
  lemma TrimSingleSpacesIsNormalized(s: string)
    requires forall i :: 0 <= i < |s| ==> SpacingAt(s, i)
    ensures Normalized(Trim(s))
  {
    var t := TrimStart(s);
    var r := TrimEnd(t);
    var a := |s| - |t|;
    forall i | 0 <= i < |r| && IsSpace(r[i])
      ensures r[i] == ' ' && i + 1 < |r| && !IsSpace(r[i + 1])
    {
      assert r[i] == s[a + i];
      assert SpacingAt(s, a + i);
      assert i != |r| - 1;
      assert r[i + 1] == s[a + i + 1];
    }
  }

  /** `s.split(/\s+/).length`: one more than the number of maximal whitespace runs. */
  function SplitCount(s: string): (r: nat)
    ensures r >= 1
    ensures AllSpace(s) && s != [] ==> r == 2
    decreases |s|
  {
    if s == [] then 1
    else if IsSpace(s[0]) then 1 + SplitCount(TrimStart(s[1..]))
    else SplitCount(s[1..])
  }

  /** Position `i` opens a maximal whitespace run: a space not preceded by one. */
  predicate RunStart(s: string, i: nat)
    requires i < |s|
  {
    IsSpace(s[i]) && (i == 0 || !IsSpace(s[i - 1]))
  }

  /** The number of whitespace runs that open at position `i` or later. */
  function RunsFrom(s: string, i: nat): nat
    requires i <= |s|
    decreases |s| - i
  {
    if i == |s| then 0 else (if RunStart(s, i) then 1 else 0) + RunsFrom(s, i + 1)
  }

  /** Inside a run no further run opens. */
  lemma {:induction false} RunsSkipSpaces(s: string, i: nat, m: nat)
    requires 0 < i <= m <= |s|
    requires forall j :: i - 1 <= j < m ==> IsSpace(s[j])
    ensures RunsFrom(s, i) == RunsFrom(s, m)
    decreases m - i
  {
    if i < m {
      assert !RunStart(s, i);
      RunsSkipSpaces(s, i + 1, m);
    }
  }

  /** The run opening at `k` ends at `m`, where `TrimStart` resumes. */
  lemma SkipRun(s: string, k: nat) returns (m: nat)
    requires k < |s|
    ensures k < m <= |s| && TrimStart(s[k + 1..]) == s[m..]
    ensures forall j :: k < j < m ==> IsSpace(s[j])
    ensures m < |s| ==> !IsSpace(s[m])
  {
    var rest := s[k + 1..];
    var r := TrimStart(rest);
    m := |s| - |r|;
    assert r == s[m..];
    forall j | k < j < m
      ensures IsSpace(s[j])
    {
      assert s[j] == rest[j - k - 1];
    }
    if m < |s| {
      assert s[m] == r[0];
    }
  }

  /** The split count of a suffix that does not start inside a run. */
  lemma {:induction false} SplitCountSuffix(s: string, k: nat)
    requires k <= |s|
    requires k < |s| && IsSpace(s[k]) ==> RunStart(s, k)
    ensures SplitCount(s[k..]) == 1 + RunsFrom(s, k)
    decreases |s| - k
  {
    if k < |s| {
      var t := s[k..];
      assert t[0] == s[k] && t[1..] == s[k + 1..];
      if IsSpace(s[k]) {
        var m := SkipRun(s, k);
        assert SplitCount(t) == 1 + SplitCount(TrimStart(t[1..]));
        hide SplitCount, TrimStart;
        RunsSkipSpaces(s, k + 1, m);
        SplitCountSuffix(s, m);
      } else {
        assert SplitCount(t) == SplitCount(t[1..]);
        hide SplitCount;
        SplitCountSuffix(s, k + 1);
      }
    }
  }

  /** `split(/\s+/).length` is one more than the number of maximal whitespace runs. */
  lemma SplitCountRuns(s: string)
    ensures SplitCount(s) == 1 + RunsFrom(s, 0)
  {
    assert s[0..] == s;
    SplitCountSuffix(s, 0);
  }

  /** `s.split(sep)[0]`: the part before the first `sep`. */
  function Before(s: string, sep: char): (r: string)
    ensures r <= s && sep !in r
    ensures |r| < |s| ==> s[|r|] == sep
  {
    if s == [] || s[0] == sep then [] else [s[0]] + Before(s[1..], sep)
  }

  function DigitPrefix(s: string): (r: string)
    ensures r <= s && forall i :: 0 <= i < |r| ==> IsDigit(r[i])
    ensures |r| < |s| ==> !IsDigit(s[|r|])
  {
    if s != [] && IsDigit(s[0]) then [s[0]] + DigitPrefix(s[1..]) else []
  }

  function DigitsValue(d: string): nat
    requires forall i :: 0 <= i < |d| ==> IsDigit(d[i])
  {
    if d == [] then 0
    else
      var c := d[|d| - 1];
      assert IsDigit(c);
      DigitsValue(d[..|d| - 1]) * 10 + (c as int - '0' as int)
  }

  /**
   * `parseInt(s, 10)`: skip leading whitespace, read an optional sign and the
   * longest run of decimal digits; `None` stands for `NaN` (no digit).
   */
  function ParseInt(s: string): (r: Option<int>)
    ensures r.Some? <==> DigitPrefix(SignedBody(TrimStart(s))) != []
  {
    var t := TrimStart(s);
    var digits := DigitPrefix(SignedBody(t));
    if digits == [] then None
    else if t[0] == '-' then Some(-(DigitsValue(digits) as int))
    else Some(DigitsValue(digits))
  }

  /** A digit string is read whole: `parseInt` of it is its decimal value. */
  lemma ParseDigits(s: string)
    requires s != [] && forall i :: 0 <= i < |s| ==> IsDigit(s[i])
    ensures ParseInt(s) == Some(DigitsValue(s))
  {
    assert LeadingSpaces(s) == 0;
    assert s[0] != '-';
    DigitPrefixOfDigits(s);
  }

  lemma {:induction false} DigitPrefixOfDigits(s: string)
    requires forall i :: 0 <= i < |s| ==> IsDigit(s[i])
    ensures DigitPrefix(s) == s
  {
    if s != [] {
      DigitPrefixOfDigits(s[1..]);
    }
  }

  function SignedBody(t: string): string {
    if t != [] && (t[0] == '-' || t[0] == '+') then t[1..] else t
  }
}
