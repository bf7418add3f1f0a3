/**
 * String helpers: the brace span that the regular expression `/\{[\s\S]*\}/`
 * matches, substring containment for prompts, and the decimal rendering of
 * an integer inside a template string.
 */
module Text {
  import opened Wrappers

  /** Index of the first occurrence of `c` in `s`. */
  function FirstIndexOf(s: string, c: char): (r: Option<nat>)
    ensures r.Some? ==> r.value < |s| && s[r.value] == c
    ensures r.Some? ==> forall j :: 0 <= j < r.value ==> s[j] != c
    ensures r.None? ==> forall j :: 0 <= j < |s| ==> s[j] != c
  {
    if |s| == 0 then None
    else if s[0] == c then Some(0)
    else match FirstIndexOf(s[1..], c)
      case None => None
      case Some(i) => Some(i + 1)
  }

  /** Index of the last occurrence of `c` in `s`. */
  function LastIndexOf(s: string, c: char): (r: Option<nat>)
    ensures r.Some? ==> r.value < |s| && s[r.value] == c
    ensures r.Some? ==> forall j :: r.value < j < |s| ==> s[j] != c
    ensures r.None? ==> forall j :: 0 <= j < |s| ==> s[j] != c
  {
    if |s| == 0 then None
    else if s[|s| - 1] == c then Some(|s| - 1)
    else LastIndexOf(s[..|s| - 1], c)
  }

  /** `text[i..j]` is a string that `/\{[\s\S]*\}/` matches in full. */
  predicate IsBraceMatch(text: string, i: int, j: int) {
    0 <= i && i + 1 < j <= |text| && text[i] == '{' && text[j - 1] == '}'
  }

  /**
   * `text.match(/\{[\s\S]*\}/)?.[0]`: from the first '{' through the last
   * '}', when that '}' comes after the '{'.
   */
  function BraceSpan(text: string): (r: Option<string>)
    ensures r.None? <==> forall i, j :: 0 <= i < j < |text| ==> !(text[i] == '{' && text[j] == '}')
    ensures r.Some? ==> |r.value| >= 2 && r.value[0] == '{' && r.value[|r.value| - 1] == '}'
  {
    match (FirstIndexOf(text, '{'), LastIndexOf(text, '}'))
    case (Some(i), Some(j)) =>
      if i < j then Some(text[i..j + 1]) else None
    case _ => None
  }

  /**
   * The span is the leftmost match of the regular expression, and among the
   * matches that start there the longest one (its `[\s\S]*` is greedy).
   */
  lemma BraceSpanIsLeftmostLongest(text: string)
    ensures BraceSpan(text).Some? <==> exists i, j :: IsBraceMatch(text, i, j)
    ensures BraceSpan(text).Some? ==>
      exists i, j :: IsBraceMatch(text, i, j) && BraceSpan(text).value == text[i..j] &&
        forall i', j' :: IsBraceMatch(text, i', j') ==> i < i' || (i == i' && j' <= j)
  {
    var first, last := FirstIndexOf(text, '{'), LastIndexOf(text, '}');
    if exists i, j :: IsBraceMatch(text, i, j) {
      var i, j :| IsBraceMatch(text, i, j);
      assert text[j - 1] == '}';
      assert first.Some? && last.Some? && first.value <= i && j - 1 <= last.value;
      var f, l := first.value, last.value + 1;
      assert IsBraceMatch(text, f, l);
      forall i', j' | IsBraceMatch(text, i', j')
        ensures f < i' || (f == i' && j' <= l)
      {
        assert text[i'] == '{' && text[j' - 1] == '}';
      }
    } else {
      forall i, j | 0 <= i < j < |text|
        ensures !(text[i] == '{' && text[j] == '}')
      {
        assert !IsBraceMatch(text, i, j + 1);
      }
    }
  }

  /** `t` occurs in `s` starting at index `i`. */
  predicate OccursAt(s: string, t: string, i: int) {
    0 <= i && i + |t| <= |s| && s[i..i + |t|] == t
  }

  predicate Contains(s: string, t: string) {
    exists i | 0 <= i <= |s| - |t| :: OccursAt(s, t, i)
  }

  lemma ContainsMiddle(a: string, t: string, b: string)
    ensures Contains(a + t + b, t)
  {
    assert (a + t + b)[|a|..|a| + |t|] == t;
    assert OccursAt(a + t + b, t, |a|);
  }

  /** Both interpolated parts of a template `a${x}b${y}c` occur in its text. */
  lemma ContainsBoth(a: string, x: string, b: string, y: string, c: string)
    ensures Contains(a + x + b + y + c, x)
    ensures Contains(a + x + b + y + c, y)
  {
    var s := a + x + b + y + c;
    assert s == a + x + (b + y + c);
    ContainsMiddle(a, x, b + y + c);
    assert s == (a + x + b) + y + c;
    ContainsMiddle(a + x + b, y, c);
  }

  /** Each interpolated part of a template `a${w}b${x}c${y}d${z}e` occurs in its text. */
  lemma ContainsEachOfFour(a: string, w: string, b: string, x: string, c: string,
                           y: string, d: string, z: string, e: string)
    ensures var s := a + w + b + x + c + y + d + z + e;
      Contains(s, w) && Contains(s, x) && Contains(s, y) && Contains(s, z)
  {
    var s := a + w + b + x + c + y + d + z + e;
    assert s == a + w + (b + x + c + y + d + z + e);
    ContainsMiddle(a, w, b + x + c + y + d + z + e);
    assert s == (a + w + b) + x + (c + y + d + z + e);
    ContainsMiddle(a + w + b, x, c + y + d + z + e);
    assert s == (a + w + b + x + c) + y + (d + z + e);
    ContainsMiddle(a + w + b + x + c, y, d + z + e);
    assert s == (a + w + b + x + c + y + d) + z + e;
    ContainsMiddle(a + w + b + x + c + y + d, z, e);
  }

  function DigitChar(d: nat): char
    requires d < 10
  {
    "0123456789"[d]
  }

  function DigitValue(c: char): nat {
    if '0' <= c <= '9' then (c as int - '0' as int) as nat else 0
  }

  predicate IsDigits(s: string) {
    forall k :: 0 <= k < |s| ==> '0' <= s[k] <= '9'
  }

  /** Decimal digits of a natural number, most significant first. */
  function NatToString(n: nat): (r: string)
    ensures |r| > 0 && IsDigits(r)
    ensures n == 0 <==> r == "0"
    ensures n > 0 ==> r[0] != '0'
  {
    if n < 10 then [DigitChar(n)] else NatToString(n / 10) + [DigitChar(n % 10)]
  }

  /** An optional '-' followed by at least one decimal digit. */
  predicate IsIntText(s: string) {
    |s| > 0 && if s[0] == '-' then |s| > 1 && IsDigits(s[1..]) else IsDigits(s)
  }

  /** `${n}` for an integer n: an optional '-' and the decimal digits. */
  function IntToString(n: int): (r: string)
    ensures IsIntText(r)
    ensures r[0] == '-' <==> n < 0
    ensures n == 0 <==> r == "0"
    ensures n != 0 ==> r[if n < 0 then 1 else 0] != '0'  // no leading zeros
  {
    if n < 0 then "-" + NatToString(-n) else NatToString(n)
  }

  /** Reads back a string of decimal digits (the inverse of NatToString). */
  function ParseNat(s: string): nat
    requires IsDigits(s)
  {
    if s == [] then 0 else ParseNat(s[..|s| - 1]) * 10 + DigitValue(s[|s| - 1])
  }

  function ParseInt(s: string): int
    requires IsIntText(s)
  {
    var magnitude: int := if s[0] == '-' then ParseNat(s[1..]) else ParseNat(s);
    if s[0] == '-' then -magnitude else magnitude
  }

  lemma {:induction false} NatToStringRoundTrip(n: nat)
    ensures ParseNat(NatToString(n)) == n
  {
    var s := NatToString(n);
    if n >= 10 {
      NatToStringRoundTrip(n / 10);
      assert s[..|s| - 1] == NatToString(n / 10);
    }
  }

  /** The decimal text of an integer determines the integer. */
  lemma IntToStringRoundTrip(n: int)
    ensures ParseInt(IntToString(n)) == n
  {
    var s := IntToString(n);
    if n < 0 {
      NatToStringRoundTrip(-n);
      assert s[0] == '-' && s[1..] == NatToString(-n);
    } else {
      NatToStringRoundTrip(n);
      assert '0' <= s[0] <= '9';
    }
  }
}
