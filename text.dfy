/**
 * The handful of Python string operations the comparator relies on:
 * `str()` of integers, `int()` of decimal strings, `str.replace`,
 * `str.removeprefix`, the substring test `t in s`, `", ".join` and the
 * index-stripping regular expression `\[[^()]*\]` used for ignore paths.
 */
module Text {

  import opened Wrappers

  predicate IsDigit(c: char) { '0' <= c <= '9' }

  predicate AllDigits(s: string) { forall i :: 0 <= i < |s| ==> IsDigit(s[i]) }

  /** The decimal digit character for `d`. */
  function DigitChar(d: nat): (c: char)
    requires d < 10
    ensures IsDigit(c) && c as int - '0' as int == d
  {
    ('0' as int + d) as char
  }

  /** Python's `str(n)` for a non-negative integer: no sign, no leading zeros. */
  function NatToString(n: nat): (r: string)
    ensures |r| > 0 && AllDigits(r)
    ensures r[0] == '0' ==> n == 0
  {
    if n < 10 then [DigitChar(n)] else NatToString(n / 10) + [DigitChar(n % 10)]
  }

  /** Python's `str(i)` for any integer. */
  function IntToString(i: int): (r: string)
    ensures |r| > 0
    ensures i < 0 <==> r[0] == '-'
  {
    if i < 0 then "-" + NatToString(-i) else NatToString(i)
  }

  /** The value of a run of decimal digits (leading zeros allowed, as `int()` allows them). */
  function DigitsValue(s: string): nat
    requires AllDigits(s)
  {
    if s == [] then 0 else DigitsValue(s[..|s| - 1]) * 10 + (s[|s| - 1] as int - '0' as int)
  }

  /** Reading back the digits that `NatToString` writes gives the number again. */
  lemma {:induction false} DigitsValueOfNatToString(n: nat)
    ensures DigitsValue(NatToString(n)) == n
  {
    if n >= 10 {
      var prefix := NatToString(n / 10);
      var s := prefix + [DigitChar(n % 10)];
      assert s[..|s| - 1] == prefix;
      DigitsValueOfNatToString(n / 10);
    } else {
      var s := [DigitChar(n)];
      assert s[..|s| - 1] == [];
    }
  }

  /** The strings `int()` accepts in this model: an optional sign and at least one digit. */
  predicate IsDecimal(s: string)
  {
    if |s| > 0 && (s[0] == '-' || s[0] == '+') then |s| > 1 && AllDigits(s[1..])
    else |s| > 0 && AllDigits(s)
  }

  /** Python's `int(s)` on a string that `IsDecimal` accepts. */
  function ParseDecimal(s: string): int
    requires IsDecimal(s)
  {
    if s[0] == '-' then 0 - DigitsValue(s[1..])
    else if s[0] == '+' then DigitsValue(s[1..])
    else DigitsValue(s)
  }

  /** `int(str(i)) == i`. */
  lemma IntToStringRoundTrip(i: int)
    ensures IsDecimal(IntToString(i)) && ParseDecimal(IntToString(i)) == i
  {
    if i < 0 {
      var s := IntToString(i);
      assert s[1..] == NatToString(-i);
      DigitsValueOfNatToString(-i);
    } else {
      DigitsValueOfNatToString(i);
    }
  }

  /** Python's substring test `t in s` (the empty string is in every string). */
  predicate Contains(s: string, t: string)
    decreases |s|
  {
    t <= s || (|s| > 0 && Contains(s[1..], t))
  }

  /** Python's `s.removeprefix(p)`. */
  function RemovePrefix(s: string, p: string): (r: string)
    ensures p <= s ==> p + r == s
    ensures !(p <= s) ==> r == s
  {
    if p <= s then s[|p|..] else s
  }

  /**
   * Python's `s.replace(pat, rep)`: every non-overlapping occurrence of `pat`,
   * scanning left to right, becomes `rep`; an empty `pat` puts `rep` before every
   * character and at the end.
   */
  function Replace(s: string, pat: string, rep: string): string
    decreases |s|
  {
    if pat == [] then
      if s == [] then rep else rep + [s[0]] + Replace(s[1..], pat, rep)
    else if |s| < |pat| then s
    else if s[..|pat|] == pat then rep + Replace(s[|pat|..], pat, rep)
    else [s[0]] + Replace(s[1..], pat, rep)
  }

  /** Replacing a non-empty string that does not occur changes nothing. */
  lemma {:induction false} ReplaceAbsent(s: string, pat: string, rep: string)
    requires pat != [] && !Contains(s, pat)
    ensures Replace(s, pat, rep) == s
    decreases |s|
  {
    if |s| >= |pat| {
      assert !(pat <= s);
      assert s[..|pat|] != pat;
      ReplaceAbsent(s[1..], pat, rep);
    }
  }

  /** Replacing at the front: a string that starts with `pat` starts with `rep` afterwards. */
  lemma ReplaceLeading(pat: string, rest: string, rep: string)
    requires pat != []
    ensures Replace(pat + rest, pat, rep) == rep + Replace(rest, pat, rep)
  {
    assert (pat + rest)[..|pat|] == pat;
    assert (pat + rest)[|pat|..] == rest;
  }

  /**
   * Replacing through a first occurrence: when no occurrence of `pat` starts
   * inside `x` (none lies within `x` and the start of `pat` but the last
   * character), the first one replaced is the `pat` right after `x`.
   */
  lemma {:induction false} ReplaceThrough(x: string, pat: string, y: string, rep: string)
    requires pat != [] && !Contains(x + pat[..|pat| - 1], pat)
    ensures Replace(x + pat + y, pat, rep) == x + rep + Replace(y, pat, rep)
    decreases |x|
  {
    if x == [] {
      assert x + pat + y == pat + y;
      ReplaceLeading(pat, y, rep);
    } else {
      NoMatchAtHead(x, pat, y, rep);
      ReplaceThrough(x[1..], pat, y, rep);
      ConsConcat(x, rep, Replace(y, pat, rep));
    }
  }

  /**
   * Putting the head of a non-empty `x` back in front of its tail. Kept as a
   * lemma so that `ReplaceThrough` sees this fact alone, without the
   * definition of `Replace` in scope.
   */
  lemma ConsConcat(x: string, a: string, b: string)
    requires x != []
    ensures [x[0]] + (x[1..] + a + b) == x + a + b
  {
    assert x == [x[0]] + x[1..];
  }

  /** The first step of `ReplaceThrough`: `x + pat + y` does not start with `pat`, and the premise holds for `x[1..]`. */
  lemma NoMatchAtHead(x: string, pat: string, y: string, rep: string)
    requires pat != [] && x != [] && !Contains(x + pat[..|pat| - 1], pat)
    ensures Replace(x + pat + y, pat, rep) == [x[0]] + Replace(x[1..] + pat + y, pat, rep)
    ensures !Contains(x[1..] + pat[..|pat| - 1], pat)
  {
    var s := x + pat + y;
    var t := x + pat[..|pat| - 1];
    assert s[..|pat|] == t[..|pat|];
    assert t[1..] == x[1..] + pat[..|pat| - 1];
    assert s[1..] == x[1..] + pat + y;
  }

  /** Python's `sep.join(parts)`. */
  function Join(parts: seq<string>, sep: string): string
  {
    if |parts| == 0 then "" else if |parts| == 1 then parts[0] else parts[0] + sep + Join(parts[1..], sep)
  }

  predicate NoOpenBracket(s: string) { forall i :: 0 <= i < |s| ==> s[i] != '[' }

  predicate NoBrackets(s: string) { forall i :: 0 <= i < |s| ==> s[i] != '[' && s[i] != ']' }

  predicate NoParens(s: string) { forall i :: 0 <= i < |s| ==> s[i] != '(' && s[i] != ')' }

  /** The first index at or after `k` that holds `(` or `)`, or `|s|` when there is none. */
  function ParenFrom(s: string, k: nat): (r: nat)
    requires k <= |s|
    ensures k <= r <= |s|
    ensures forall j :: k <= j < r ==> s[j] != '(' && s[j] != ')'
    ensures r < |s| ==> s[r] == '(' || s[r] == ')'
    decreases |s| - k
  {
    if k == |s| || s[k] == '(' || s[k] == ')' then k else ParenFrom(s, k + 1)
  }

  /** The last index in `[lo, hi)` that holds `]`. */
  function LastClose(s: string, lo: nat, hi: nat): (r: Option<nat>)
    requires hi <= |s|
    ensures r.Some? ==> lo <= r.value < hi && s[r.value] == ']'
    ensures r.Some? ==> forall j :: r.value < j < hi ==> s[j] != ']'
    ensures r.None? ==> forall j :: lo <= j < hi ==> s[j] != ']'
    decreases hi
  {
    if hi <= lo then None
    else if s[hi - 1] == ']' then Some(hi - 1)
    else LastClose(s, lo, hi - 1)
  }

  /**
   * `re.sub("\[[^()]*\]", "", s)`. At a `[` the pattern's greedy middle runs up to
   * the first parenthesis, then backs off to the last `]` before it; the match, if
   * any, is deleted and scanning resumes after it.
   */
  function StripIndexes(s: string): string
    decreases |s|
  {
    if s == [] then []
    else if s[0] == '[' then
      match LastClose(s, 1, ParenFrom(s, 1))
      case Some(j) => StripIndexes(s[j + 1..])
      case None => [s[0]] + StripIndexes(s[1..])
    else [s[0]] + StripIndexes(s[1..])
  }

  /** A string without `[` has nothing to strip. */
  lemma {:induction false} StripIndexesNoBracket(s: string)
    requires NoOpenBracket(s)
    ensures StripIndexes(s) == s
    decreases |s|
  {
    if s != [] {
      StripIndexesNoBracket(s[1..]);
    }
  }

  /**
   * Everything from the first `[` to the last `]` goes, however many index
   * segments lie in between, as long as no parenthesis interrupts the run:
   * `StripIndexes(p + "[" + m + "]" + q) == p + q`.
   */
  lemma {:induction false} StripIndexesSegment(p: string, m: string, q: string)
    requires NoOpenBracket(p) && NoParens(m) && NoBrackets(q)
    ensures StripIndexes(p + "[" + m + "]" + q) == p + q
    decreases |p|
  {
    var s := p + "[" + m + "]" + q;
    if p == [] {
      assert s == "[" + m + "]" + q;
      var close := |m| + 1;
      assert s[close] == ']';
      var stop := ParenFrom(s, 1);
      assert forall j :: 1 <= j <= |m| ==> s[j] == m[j - 1];
      assert close < stop;
      assert forall j :: close < j < |s| ==> s[j] == q[j - close - 1];
      assert LastClose(s, 1, stop) == Some(close);
      assert s[close + 1..] == q;
      StripIndexesNoBracket(q);
    } else {
      assert s[0] == p[0] && s[0] != '[';
      assert s[1..] == p[1..] + "[" + m + "]" + q;
      StripIndexesSegment(p[1..], m, q);
    }
  }
}
