/**
 * The string operations the bot relies on: decimal rendering and Python's `int()` on
 * command arguments, ASCII case folding, `str.replace` of one character, substring
 * search and the `split(sep)[k]` indexing used by the claim buttons.
 */
module Text {
  import opened Wrappers

  predicate IsDigit(c: char) { '0' <= c <= '9' }

  predicate AllDigits(s: string) { forall i :: 0 <= i < |s| ==> IsDigit(s[i]) }

  function DigitChar(d: nat): (c: char)
    requires d < 10
    ensures IsDigit(c)
  {
    (d + '0' as int) as char
  }

  function DigitValue(c: char): (d: nat)
    requires IsDigit(c)
    ensures d < 10 && DigitChar(d) == c
  {
    c as int - '0' as int
  }

  /** Decimal digits of `n`, most significant first, as Python's `str(n)` writes them. */
  function NatToString(n: nat): (s: string)
    ensures |s| > 0 && AllDigits(s)
    ensures s[0] == '0' ==> n == 0
    decreases n
  {
    if n < 10 then [DigitChar(n)] else NatToString(n / 10) + [DigitChar(n % 10)]
  }

  /** Python's `str(n)` (an f-string field) for a possibly negative integer. */
  function IntToString(n: int): string {
    if n < 0 then "-" + NatToString(-n) else NatToString(n)
  }

  /** The value of a string of decimal digits (leading zeros allowed, as `int("08")` is 8). */
  function DigitsValue(s: string): nat
    requires AllDigits(s)
    decreases |s|
  {
    if |s| == 0 then 0 else DigitsValue(s[..|s| - 1]) * 10 + DigitValue(s[|s| - 1])
  }

  /**
   * CPython's default `sys.get_int_max_str_digits()`: `int()` refuses a decimal string
   * with more digits than this.
   */
  const MAX_STR_DIGITS := 4300

  /**
   * Python's `int(s)` on a command argument: an optional sign followed by one or more
   * digits, at most `MAX_STR_DIGITS` of them; anything else is the `ValueError` case,
   * here `None`.
   */
  function ParseInt(s: string): Option<int> {
    if |s| >= 2 && (s[0] == '-' || s[0] == '+') && AllDigits(s[1..]) then
      if |s| - 1 > MAX_STR_DIGITS then None
      else
        var v: int := DigitsValue(s[1..]);
        Some(if s[0] == '-' then -v else v)
    else if |s| >= 1 && AllDigits(s) then
      if |s| > MAX_STR_DIGITS then None else Some(DigitsValue(s))
    else
      None
  }

  /** A digit string longer than the limit. */
  predicate Overlong(s: string) { |s| > MAX_STR_DIGITS && AllDigits(s) }

  /** `int()` refuses a digit string longer than the limit, such as "1" followed by 4300 zeros, with or without a sign. */
  lemma TooManyDigits(s: string)
    requires Overlong(s)
    ensures ParseInt(s) == None
    ensures ParseInt("-" + s) == None && ParseInt("+" + s) == None
  {
    assert ("-" + s)[1..] == s;
    assert ("+" + s)[1..] == s;
  }

  function Abs(n: int): nat {
    if n < 0 then -n else n
  }

  lemma {:induction false} DigitsValueOfNatToString(n: nat)
    ensures DigitsValue(NatToString(n)) == n
    decreases n
  {
    var s := NatToString(n);
    if n >= 10 {
      assert s == NatToString(n / 10) + [DigitChar(n % 10)];
      assert s[..|s| - 1] == NatToString(n / 10);
      DigitsValueOfNatToString(n / 10);
    } else {
      assert s[..|s| - 1] == [];
    }
  }

  /** Reading back what `IntToString` wrote gives the same integer, for every integer of at most `MAX_STR_DIGITS` digits. */
  lemma ParseIntOfIntToString(n: int)
    requires |NatToString(Abs(n))| <= MAX_STR_DIGITS
    ensures ParseInt(IntToString(n)) == Some(n)
  {
    var s := IntToString(n);
    if n < 0 {
      var d := NatToString(-n);
      assert s == "-" + d && s[1..] == d;
      DigitsValueOfNatToString(-n);
      assert ParseInt(s) == Some(-(DigitsValue(d) as int));
    } else {
      assert s == NatToString(n) && IsDigit(s[0]);
      DigitsValueOfNatToString(n);
      assert ParseInt(s) == Some(DigitsValue(s));
    }
  }

  /** Distinct integers are written differently, so a rendered id names one user. */
  lemma IntToStringInjective(a: int, b: int)
    ensures IntToString(a) == IntToString(b) ==> a == b
  {
    if IntToString(a) == IntToString(b) {
      DigitsValueOfNatToString(Abs(a));
      DigitsValueOfNatToString(Abs(b));
      if a < 0 && b < 0 {
        assert NatToString(-a) == IntToString(a)[1..] == IntToString(b)[1..] == NatToString(-b);
      }
    }
  }

  predicate IsUpper(c: char) { 'A' <= c <= 'Z' }

  function LowerChar(c: char): char {
    if IsUpper(c) then (c as int + 32) as char else c
  }

  /** `str.lower()` on ASCII letters. */
  function Lower(s: string): string {
    seq(|s|, i requires 0 <= i < |s| => LowerChar(s[i]))
  }

  /** `s.replace(from, to)` for single characters. */
  function ReplaceChar(s: string, from: char, to: char): string {
    seq(|s|, i requires 0 <= i < |s| => if s[i] == from then to else s[i])
  }

  /** `t` occurs in `s` starting at position `i`. */
  predicate OccursAt(s: string, t: string, i: int) {
    0 <= i <= |s| - |t| && s[i..i + |t|] == t
  }

  /** Python's `t in s` for strings. */
  predicate Contains(s: string, t: string) {
    exists i :: 0 <= i <= |s| - |t| && OccursAt(s, t, i)
  }

  /** A string contains each character of any string it contains. */
  lemma ContainsFirstChar(s: string, t: string)
    requires |t| > 0 && Contains(s, t)
    ensures t[0] in s
  {
    var i :| 0 <= i <= |s| - |t| && OccursAt(s, t, i);
    assert 0 <= i <= |s| - |t|;
    assert s[i..i + |t|][0] == s[i];
  }

  /** Position of the first occurrence of `t` in `s` (`str.find`, with `None` for -1). */
  function IndexOf(s: string, t: string): (r: Option<nat>)
    requires |t| > 0
    ensures r.Some? ==> OccursAt(s, t, r.value)
    ensures r.Some? ==> forall j :: 0 <= j < r.value ==> !OccursAt(s, t, j)
    ensures r.None? <==> !Contains(s, t)
    decreases |s|
  {
    if |s| < |t| then None
    else if s[..|t|] == t then
      assert OccursAt(s, t, 0) by { assert s[0..|t|] == s[..|t|]; }
      Some(0)
    else
      match IndexOf(s[1..], t)
      case None =>
        IndexOfShift(s, t);
        None
      case Some(k) =>
        IndexOfShiftSome(s, t, k);
        Some(k + 1)
  }

  lemma IndexOfShift(s: string, t: string)
    requires |t| > 0 && |s| >= |t| && s[..|t|] != t && !Contains(s[1..], t)
    ensures !Contains(s, t)
  {
    if Contains(s, t) {
      var i :| 0 <= i <= |s| - |t| && OccursAt(s, t, i);
      assert 0 <= i <= |s| - |t|;
      assert i != 0 by { assert s[0..|t|] == s[..|t|]; }
      assert OccursAt(s[1..], t, i - 1) by {
        assert s[1..][i - 1..i - 1 + |t|] == s[i..i + |t|];
      }
      assert false;
    }
  }

  lemma IndexOfShiftSome(s: string, t: string, k: nat)
    requires |t| > 0 && |s| >= |t| && s[..|t|] != t
    requires OccursAt(s[1..], t, k) && forall j :: 0 <= j < k ==> !OccursAt(s[1..], t, j)
    ensures OccursAt(s, t, k + 1) && forall j :: 0 <= j < k + 1 ==> !OccursAt(s, t, j)
  {
    assert s[k + 1..k + 1 + |t|] == s[1..][k..k + |t|];
    forall j | 0 <= j < k + 1 ensures !OccursAt(s, t, j) {
      if j > 0 {
        assert s[j..j + |t|] == s[1..][j - 1..j - 1 + |t|];
        assert !OccursAt(s[1..], t, j - 1);
      } else {
        assert s[0..|t|] == s[..|t|];
      }
    }
  }

  /**
   * Python's `s.split(sep)[1]`: the text between the first and second occurrence of
   * `sep`; `None` is the `IndexError` raised when `sep` does not occur.
   */
  function SplitSecond(s: string, sep: string): (r: Option<string>)
    requires |sep| > 0
    ensures r.None? <==> !Contains(s, sep)
  {
    match IndexOf(s, sep)
    case None => None
    case Some(i) =>
      var rest := s[i + |sep|..];
      match IndexOf(rest, sep)
      case None => Some(rest)
      case Some(j) => Some(rest[..j])
  }

  /** Python's `s.split('\n')[0]`. */
  function FirstLine(s: string): string {
    match IndexOf(s, "\n")
    case None => s
    case Some(j) => s[..j]
  }

  /** Truthiness of an optional string argument: given and not empty. */
  predicate Truthy(s: Option<string>) { s.Some? && s.value != "" }

  /** Python's `s or fallback` for an optional string argument. */
  function OrElse(s: Option<string>, fallback: string): string {
    if Truthy(s) then s.value else fallback
  }

  /** Python's `sep.join(lines)`. */
  function Join(lines: seq<string>, sep: string): string
    decreases |lines|
  {
    if |lines| == 0 then "" else if |lines| == 1 then lines[0] else lines[0] + sep + Join(lines[1..], sep)
  }

  /** Python's `s.split(c)` for a one-character separator: the pieces between separators, never an empty list. */
  function SplitOn(s: string, c: char): (r: seq<string>)
    ensures |r| >= 1
    decreases |s|
  {
    if |s| == 0 then [""]
    else if s[0] == c then [""] + SplitOn(s[1..], c)
    else
      var rest := SplitOn(s[1..], c);
      [[s[0]] + rest[0]] + rest[1..]
  }

  /** A string without the separator splits into itself alone. */
  lemma {:induction false} SplitOnWithout(s: string, c: char)
    requires c !in s
    ensures SplitOn(s, c) == [s]
    decreases |s|
  {
    if |s| > 0 {
      assert c !in s[1..] by { forall k | 0 <= k < |s| - 1 ensures s[1..][k] != c { assert s[1..][k] == s[k + 1]; } }
      SplitOnWithout(s[1..], c);
      assert [s[0]] + s[1..] == s;
    }
  }

  /** Splitting `a`, a separator, then `b` gives `a` followed by the pieces of `b`, when `a` holds no separator. */
  lemma {:induction false} SplitOnAfter(a: string, b: string, c: char)
    requires c !in a
    ensures SplitOn(a + [c] + b, c) == [a] + SplitOn(b, c)
    decreases |a|
  {
    var s := a + [c] + b;
    if |a| == 0 {
      assert s == [c] + b && s[1..] == b;
    } else {
      assert s[0] == a[0] && s[1..] == a[1..] + [c] + b;
      assert c !in a[1..] by { forall k | 0 <= k < |a| - 1 ensures a[1..][k] != c { assert a[1..][k] == a[k + 1]; } }
      SplitOnAfter(a[1..], b, c);
      assert [a[0]] + a[1..] == a;
    }
  }

  /** Splitting on the separator undoes `Join` of lines that do not hold it. */
  lemma {:induction false} SplitOnJoin(lines: seq<string>, c: char)
    requires |lines| > 0
    requires forall i :: 0 <= i < |lines| ==> c !in lines[i]
    ensures SplitOn(Join(lines, [c]), c) == lines
    decreases |lines|
  {
    if |lines| == 1 {
      SplitOnWithout(lines[0], c);
    } else {
      assert Join(lines, [c]) == lines[0] + [c] + Join(lines[1..], [c]);
      SplitOnAfter(lines[0], Join(lines[1..], [c]), c);
      SplitOnJoin(lines[1..], c);
      assert [lines[0]] + lines[1..] == lines;
    }
  }
}
