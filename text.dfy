/** ASCII text helpers used by the chat-turn handler: lower-casing and
    substring search for the keyword checks, the digit filter and integer
    conversion used to read CPU and RAM counts, and the decimal formatting
    of integers inside f-strings.

    Python's `str.isdigit` and `str.lower` work on all of Unicode; this
    module models their ASCII part only. */
module Text {

  datatype Option<+T> = None | Some(value: T)

  // ---------------------------------------------------------------------
  // Lower-casing and substring search
  // ---------------------------------------------------------------------

  predicate IsUpper(c: char) { 'A' <= c <= 'Z' }

  function LowerChar(c: char): char
  {
    if IsUpper(c) then (c as int - 'A' as int + 'a' as int) as char else c
  }

  /** `s.lower()` on ASCII text. */
  function Lower(s: string): (r: string)
    ensures |r| == |s|
    ensures forall i :: 0 <= i < |s| ==> r[i] == LowerChar(s[i])
    ensures forall i :: 0 <= i < |r| ==> !IsUpper(r[i])
    ensures forall i :: 0 <= i < |s| && !IsUpper(s[i]) ==> r[i] == s[i]
  {
    if s == [] then [] else [LowerChar(s[0])] + Lower(s[1..])
  }

  predicate OccursAt(s: string, sub: string, i: nat)
  {
    i + |sub| <= |s| && s[i..i + |sub|] == sub
  }

  /** Python's `sub in s` for strings. */
  predicate Contains(s: string, sub: string)
  {
    exists i: nat :: i <= |s| && OccursAt(s, sub, i)
  }

  /** `any(keyword in text.lower() for keyword in keywords)`. */
  predicate MentionsAny(text: string, keywords: seq<string>)
  {
    exists k :: 0 <= k < |keywords| && Contains(Lower(text), keywords[k])
  }

  lemma LowerAppend(a: string, b: string)
    ensures Lower(a + b) == Lower(a) + Lower(b)
  {
    var l, r := Lower(a + b), Lower(a) + Lower(b);
    assert |l| == |r|;
    forall i | 0 <= i < |l| ensures l[i] == r[i] {
      if i < |a| { assert (a + b)[i] == a[i]; } else { assert (a + b)[i] == b[i - |a|]; }
    }
  }

  /** A substring of `s` is also a substring of `s` with any text around it. */
  lemma ContainsInContext(before: string, s: string, after: string, sub: string)
    requires Contains(s, sub)
    ensures Contains(before + s + after, sub)
  {
    var i: nat :| i <= |s| && OccursAt(s, sub, i);
    var t := before + s + after;
    var j := |before| + i;
    assert t[j..j + |sub|] == s[i..i + |sub|] by {
      forall k | j <= k < j + |sub| ensures t[k] == s[k - |before|] {
        assert t[k] == (before + s)[k];
      }
    }
    assert OccursAt(t, sub, j);
  }

  /** Keyword detection does not depend on the surrounding text: once a
      message mentions a keyword, every message containing it does too. */
  lemma MentionsAnyInContext(before: string, s: string, after: string, keywords: seq<string>)
    requires MentionsAny(s, keywords)
    ensures MentionsAny(before + s + after, keywords)
  {
    var k :| 0 <= k < |keywords| && Contains(Lower(s), keywords[k]);
    LowerAppend(before + s, after);
    LowerAppend(before, s);
    ContainsInContext(Lower(before), Lower(s), Lower(after), keywords[k]);
    assert Lower(before + s + after) == Lower(before) + Lower(s) + Lower(after);
  }

  /** Keyword detection ignores the case of ASCII letters. */
  lemma {:induction false} MentionsAnyIgnoresCase(s: string, t: string, keywords: seq<string>)
    requires |s| == |t|
    requires forall i :: 0 <= i < |s| ==> LowerChar(s[i]) == LowerChar(t[i])
    ensures MentionsAny(s, keywords) == MentionsAny(t, keywords)
  {
    assert Lower(s) == Lower(t);
  }

  // ---------------------------------------------------------------------
  // Digit filter and integer conversion
  // ---------------------------------------------------------------------

  /** `str.isdigit` on ASCII characters. */
  predicate IsDigit(c: char) { '0' <= c <= '9' }

  predicate AllDigits(s: string) { forall i :: 0 <= i < |s| ==> IsDigit(s[i]) }

  predicate NoDigits(s: string) { forall i :: 0 <= i < |s| ==> !IsDigit(s[i]) }

  /** `''.join(filter(str.isdigit, s))`: every digit character of `s`, in order. */
  function Digits(s: string): (r: string)
    ensures AllDigits(r)
    ensures |r| <= |s|
    ensures |r| == |s| <==> AllDigits(s)
  {
    if s == [] then []
    else if IsDigit(s[0]) then [s[0]] + Digits(s[1..])
    else Digits(s[1..])
  }

  function DigitValue(c: char): (d: nat)
    requires IsDigit(c)
    ensures d < 10
  {
    c as int - '0' as int
  }

  function DigitChar(d: nat): (c: char)
    requires d < 10
    ensures IsDigit(c) && DigitValue(c) == d
  {
    ('0' as int + d) as char
  }

  function Pow10(k: nat): (p: nat)
    ensures p >= 1
  {
    if k == 0 then 1 else 10 * Pow10(k - 1)
  }

  /** `int(ds)` for a string of decimal digits (leading zeros allowed). */
  function DecimalValue(ds: string): (n: nat)
    requires AllDigits(ds)
    ensures n < Pow10(|ds|)
  {
    if ds == [] then 0
    else 10 * DecimalValue(ds[..|ds| - 1]) + DigitValue(ds[|ds| - 1])
  }

  /** `int(''.join(filter(str.isdigit, s)))`: `None` stands for the
      `ValueError` that `int('')` raises when `s` holds no digit. */
  function ParseCount(s: string): (r: Option<nat>)
    ensures r.None? <==> NoDigits(s)
  {
    var ds := Digits(s);
    if ds == [] then
      NoDigitsWhenEmpty(s);
      None
    else
      DigitsNonEmpty(s);
      Some(DecimalValue(ds))
  }

  /** `str(n)` (and `{n}` in an f-string) for a non-negative integer. */
  function NatToString(n: nat): (s: string)
    ensures |s| >= 1 && AllDigits(s)
    ensures s[0] == '0' ==> n == 0
  {
    if n < 10 then [DigitChar(n)] else NatToString(n / 10) + [DigitChar(n % 10)]
  }

  lemma {:induction false} NoDigitsWhenEmpty(s: string)
    requires Digits(s) == []
    ensures NoDigits(s)
  {
    if s != [] {
      NoDigitsWhenEmpty(s[1..]);
      assert forall i :: 1 <= i < |s| ==> s[i] == s[1..][i - 1];
    }
  }

  lemma {:induction false} DigitsNonEmpty(s: string)
    requires Digits(s) != []
    ensures !NoDigits(s)
  {
    if !IsDigit(s[0]) {
      DigitsNonEmpty(s[1..]);
      var i :| 0 <= i < |s[1..]| && IsDigit(s[1..][i]);
      assert IsDigit(s[i + 1]);
    }
  }

  /** The digit filter distributes over concatenation. */
  lemma {:induction false} DigitsAppend(a: string, b: string)
    ensures Digits(a + b) == Digits(a) + Digits(b)
  {
    if a == [] {
      assert a + b == b;
    } else {
      assert (a + b)[1..] == a[1..] + b;
      DigitsAppend(a[1..], b);
    }
  }

  /** A string of digits passes the filter unchanged. */
  lemma {:induction false} DigitsOfDigits(s: string)
    requires AllDigits(s)
    ensures Digits(s) == s
  {
    if s != [] {
      DigitsOfDigits(s[1..]);
    }
  }

  /** Text without digits contributes nothing to the filter. */
  lemma {:induction false} DigitsOfText(s: string)
    requires NoDigits(s)
    ensures Digits(s) == []
  {
    if s != [] {
      DigitsOfText(s[1..]);
    }
  }

  /** Converting the decimal formatting of `n` back gives `n`. */
  lemma {:induction false} DecimalValueOfNatToString(n: nat)
    ensures DecimalValue(NatToString(n)) == n
  {
    var s := NatToString(n);
    if n >= 10 {
      DecimalValueOfNatToString(n / 10);
      assert s[..|s| - 1] == NatToString(n / 10);
    }
  }

  /** Reading a number out of a digit string appended to another. */
  lemma {:induction false} DecimalValueAppend(a: string, b: string)
    requires AllDigits(a) && AllDigits(b)
    ensures DecimalValue(a + b) == DecimalValue(a) * Pow10(|b|) + DecimalValue(b)
  {
    if b == [] {
      assert a + b == a;
    } else {
      var b' := b[..|b| - 1];
      assert AllDigits(b');
      assert AllDigits(a + b') && AllDigits(a + b);
      assert (a + b)[..|a + b| - 1] == a + b';
      assert (a + b)[|a + b| - 1] == b[|b| - 1];
      DecimalValueAppend(a, b');
      var x, y, d, p := DecimalValue(a), DecimalValue(b'), DigitValue(b[|b| - 1]), Pow10(|b'|);
      assert DecimalValue(a + b) == 10 * (x * p + y) + d;
      assert DecimalValue(b) == 10 * y + d;
      assert Pow10(|b|) == 10 * p;
      MulShift(x, p);
    }
  }

  /** Moving the factor 10 inside a product, kept apart so that the
      nonlinear step is proved in a context of its own. */
  lemma MulShift(x: nat, p: nat)
    ensures 10 * (x * p) == x * (10 * p)
  {
  }

  /** A number written among digit-free words is read back exactly:
      "I'll take 4" gives 4, "give me 16gb" gives 16. */
  lemma ParseCountOfEmbedded(before: string, n: nat, after: string)
    requires NoDigits(before) && NoDigits(after)
    ensures ParseCount(before + NatToString(n) + after) == Some(n)
  {
    var s := NatToString(n);
    DigitsAppend(before + s, after);
    DigitsAppend(before, s);
    DigitsOfText(before);
    DigitsOfText(after);
    DigitsOfDigits(s);
    assert Digits(before + s + after) == s;
    DecimalValueOfNatToString(n);
  }

  /** Every digit counts, wherever it stands: two numbers separated by
      digit-free text are read as their concatenation ("10 or 12" gives
      1012, not 10 or 12). */
  lemma ParseCountJoinsNumbers(before: string, m: nat, sep: string, n: nat)
    requires NoDigits(before) && NoDigits(sep)
    ensures ParseCount(before + NatToString(m) + sep + NatToString(n))
         == Some(m * Pow10(|NatToString(n)|) + n)
  {
    var a, b := NatToString(m), NatToString(n);
    DigitsAppend(before + a + sep, b);
    DigitsAppend(before + a, sep);
    DigitsAppend(before, a);
    DigitsOfText(before);
    DigitsOfDigits(a);
    DigitsOfDigits(b);
    DigitsOfText(sep);
    assert Digits(before + a + sep + b) == a + b;
    DecimalValueAppend(a, b);
    DecimalValueOfNatToString(m);
    DecimalValueOfNatToString(n);
  }
}
