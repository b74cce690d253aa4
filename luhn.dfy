/** Digits, the Luhn mod-10 sum (the "double-add-double" formula of
    ISO/IEC 7812-1, Annex B) and the validator that walks a card number
    from its rightmost digit. A "digit" is one of the ASCII characters
    '0'..'9'; every other character, including non-ASCII decimal digits,
    is a non-digit here. */
module Luhn {

  /** The value of one decimal digit. */
  type Digit = d: int | 0 <= d <= 9

  predicate IsDigit(c: char) {
    '0' <= c <= '9'
  }

  /** Every character of `s` is a digit (true of the empty string). */
  predicate AllDigits(s: string) {
    forall i :: 0 <= i < |s| ==> IsDigit(s[i])
  }

  /** The character that prints digit `d`. */
  function DigitChar(d: Digit): (c: char)
    ensures IsDigit(c) && c as int - '0' as int == d
  {
    ('0' as int + d) as char
  }

  /** The value of a digit character, inverse of DigitChar. */
  function DigitValue(c: char): (d: Digit)
    requires IsDigit(c)
    ensures DigitChar(d) == c
  {
    c as int - '0' as int
  }

  /** The ordered digit subsequence of `s`: every non-digit is dropped. */
  function DigitsOf(s: string): (ds: seq<Digit>)
    ensures |ds| <= |s|
  {
    if s == [] then []
    else if IsDigit(s[0]) then [DigitValue(s[0])] + DigitsOf(s[1..])
    else DigitsOf(s[1..])
  }

  /** The value of each character of an all-digit string, position by position. */
  function DigitValues(s: string): (ds: seq<Digit>)
    requires AllDigits(s)
    ensures |ds| == |s|
    ensures forall i :: 0 <= i < |s| ==> DigitChar(ds[i]) == s[i]
  {
    seq(|s|, i requires 0 <= i < |s| && AllDigits(s) => DigitValue(s[i]))
  }

  /** The printed form of a digit sequence. */
  function DigitString(ds: seq<Digit>): (s: string)
    ensures |s| == |ds| && AllDigits(s)
    ensures forall i :: 0 <= i < |ds| ==> DigitValue(s[i]) == ds[i]
  {
    seq(|ds|, i requires 0 <= i < |ds| => DigitChar(ds[i]))
  }

  /** What one digit adds to the sum: a doubled digit above 9 is reduced by 9. */
  function LuhnTerm(d: Digit, doubled: bool): Digit {
    if doubled then (if 2 * d > 9 then 2 * d - 9 else 2 * d) else d
  }

  /** The Luhn sum taken from the right: the rightmost digit is doubled
      exactly when `doubleLast` holds, and the flag alternates leftwards. */
  function LuhnSum(ds: seq<Digit>, doubleLast: bool): (sum: nat)
    ensures sum <= 9 * |ds|
  {
    if ds == [] then 0
    else LuhnSum(ds[..|ds| - 1], !doubleLast) + LuhnTerm(ds[|ds| - 1], doubleLast)
  }

  /** A card number passes the check when the Luhn sum of its digits,
      with the rightmost digit undoubled, is a multiple of 10. */
  predicate IsLuhnValid(s: string) {
    LuhnSum(DigitsOf(s), false) % 10 == 0
  }

  /** Whether the digit at index `i` of an `n`-digit sequence is doubled:
      its offset from the right, `n - 1 - i`, is odd (or even, when the
      rightmost digit itself is doubled). */
  predicate DoubledAt(n: nat, i: nat, doubleLast: bool) {
    ((n - 1 - i) % 2 == 1) != doubleLast
  }

  /** A reference formulation of the Luhn sum, read left to right: each
      digit's doubling is fixed by its offset from the right end. */
  function OffsetSum(ds: seq<Digit>, doubleLast: bool): (sum: nat)
    ensures sum <= 9 * |ds|
  {
    if ds == [] then 0
    else LuhnTerm(ds[0], DoubledAt(|ds|, 0, doubleLast)) + OffsetSum(ds[1..], doubleLast)
  }

  // ---------------------------------------------------------------------
  // Properties of the digit filter

  lemma {:induction false} DigitsOfAppend(a: string, b: string)
    ensures DigitsOf(a + b) == DigitsOf(a) + DigitsOf(b)
  {
    if a == [] {
      assert a + b == b;
    } else {
      assert (a + b)[1..] == a[1..] + b;
      DigitsOfAppend(a[1..], b);
    }
  }

  /** Inserting a non-digit character anywhere leaves the digits unchanged. */
  lemma DigitsOfIgnoresNonDigit(a: string, c: char, b: string)
    requires !IsDigit(c)
    ensures DigitsOf(a + [c] + b) == DigitsOf(a + b)
  {
    DigitsOfAppend(a + [c], b);
    DigitsOfAppend(a, [c]);
    DigitsOfAppend(a, b);
  }

  /** A string without digit characters has no digits. */
  lemma {:induction false} DigitsOfNoDigits(s: string)
    requires forall i :: 0 <= i < |s| ==> !IsDigit(s[i])
    ensures DigitsOf(s) == []
  {
    if s != [] {
      DigitsOfNoDigits(s[1..]);
    }
  }

  /** On an all-digit string the filter keeps every character. */
  lemma {:induction false} DigitsOfAllDigits(s: string)
    requires AllDigits(s)
    ensures DigitsOf(s) == DigitValues(s)
  {
    if s != [] {
      DigitsOfAllDigits(s[1..]);
      assert DigitValues(s) == [DigitValue(s[0])] + DigitValues(s[1..]);
    }
  }

  /** The filter drops nothing exactly when every character is a digit. */
  lemma {:induction false} DigitsOfKeepsAll(s: string)
    ensures AllDigits(s) <==> |DigitsOf(s)| == |s|
  {
    if s != [] {
      DigitsOfKeepsAll(s[1..]);
      if AllDigits(s[1..]) && IsDigit(s[0]) {
        assert AllDigits(s);
      }
    }
  }

  /** Printing digits and filtering them back gives the same digits. */
  lemma DigitsOfDigitString(ds: seq<Digit>)
    ensures DigitsOf(DigitString(ds)) == ds
  {
    DigitsOfAllDigits(DigitString(ds));
  }

  // ---------------------------------------------------------------------
  // Properties of the Luhn sum

  /** Appending a digit on the right: it becomes the undoubled rightmost
      digit and every earlier digit moves one place, flipping its doubling. */
  lemma LuhnSumAppend(ds: seq<Digit>, d: Digit, doubleLast: bool)
    ensures LuhnSum(ds + [d], doubleLast) == LuhnSum(ds, !doubleLast) + LuhnTerm(d, doubleLast)
  {
    assert (ds + [d])[..|ds|] == ds;
  }

  /** Peeling the leftmost digit: its doubling depends on how many digits
      follow it. */
  lemma {:induction false} LuhnSumPrepend(d: Digit, ds: seq<Digit>, doubleLast: bool)
    ensures LuhnSum([d] + ds, doubleLast)
         == LuhnTerm(d, DoubledAt(|ds| + 1, 0, doubleLast)) + LuhnSum(ds, doubleLast)
  {
    if ds != [] {
      var init, last := ds[..|ds| - 1], ds[|ds| - 1];
      assert ds == init + [last];
      assert [d] + ds == ([d] + init) + [last];
      LuhnSumAppend([d] + init, last, doubleLast);
      LuhnSumPrepend(d, init, !doubleLast);
      LuhnSumAppend(init, last, doubleLast);
    } else {
      assert ([d] + ds)[..0] == [];
    }
  }

  /** The right-to-left sum equals the left-to-right reference sum in
      which the digits at odd offsets from the right are the doubled ones. */
  lemma {:induction false} LuhnSumByOffset(ds: seq<Digit>, doubleLast: bool)
    ensures LuhnSum(ds, doubleLast) == OffsetSum(ds, doubleLast)
  {
    if ds != [] {
      assert ds == [ds[0]] + ds[1..];
      LuhnSumPrepend(ds[0], ds[1..], doubleLast);
      LuhnSumByOffset(ds[1..], doubleLast);
    }
  }

  /** Changing the digit at index `i` changes the sum by exactly the change
      of that digit's term. */
  lemma {:induction false} LuhnSumUpdate(ds: seq<Digit>, i: nat, d: Digit, doubleLast: bool)
    requires i < |ds|
    ensures LuhnSum(ds[i := d], doubleLast) - LuhnSum(ds, doubleLast)
         == LuhnTerm(d, DoubledAt(|ds|, i, doubleLast)) - LuhnTerm(ds[i], DoubledAt(|ds|, i, doubleLast))
  {
    var n := |ds|;
    var ds' := ds[i := d];
    assert ds'[..n - 1] == if i < n - 1 then ds[..n - 1][i := d] else ds[..n - 1];
    if i < n - 1 {
      LuhnSumUpdate(ds[..n - 1], i, d, !doubleLast);
    }
  }

  /** Doubling with the reduction by 9 gives the sum of the decimal digits
      of the doubled value: 2d - 9 is 1 + (2d - 10) for d >= 5. */
  lemma LuhnTermIsDigitSum(d: Digit, doubled: bool)
    ensures var v := if doubled then 2 * d else d; LuhnTerm(d, doubled) == v / 10 + v % 10
  {
  }

  /** Doubling with the reduction by 9 sends distinct digits to distinct terms. */
  lemma LuhnTermInjective(a: Digit, b: Digit, doubled: bool)
    requires a != b
    ensures LuhnTerm(a, doubled) != LuhnTerm(b, doubled)
  {
  }

  /** Changing any single digit of a valid digit sequence makes it invalid. */
  lemma SingleDigitErrorDetected(ds: seq<Digit>, i: nat, d: Digit)
    requires i < |ds| && d != ds[i]
    requires LuhnSum(ds, false) % 10 == 0
    ensures LuhnSum(ds[i := d], false) % 10 != 0
  {
    var doubled := DoubledAt(|ds|, i, false);
    LuhnSumUpdate(ds, i, d, false);
    LuhnTermInjective(d, ds[i], doubled);
    NonZeroShiftBreaksMultiple(LuhnSum(ds, false), LuhnTerm(d, doubled) - LuhnTerm(ds[i], doubled));
  }

  /** Moving a multiple of 10 by a non-zero amount below 10 leaves it no multiple. */
  lemma NonZeroShiftBreaksMultiple(a: int, delta: int)
    requires a % 10 == 0 && delta != 0 && -10 < delta < 10
    ensures (a + delta) % 10 != 0
  {
    var q := a / 10;
    assert a == 10 * q;
    if delta > 0 {
      assert a + delta == 10 * q + delta;
    } else {
      assert a + delta == 10 * (q - 1) + (10 + delta);
    }
  }

  /** Whether a card number passes depends only on its digit subsequence. */
  lemma ValidityIgnoresNonDigits(s: string, t: string)
    requires DigitsOf(s) == DigitsOf(t)
    ensures IsLuhnValid(s) <==> IsLuhnValid(t)
  {
  }

  /** Inserting a separator never changes the verdict. */
  lemma ValidityIgnoresSeparator(a: string, c: char, b: string)
    requires !IsDigit(c)
    ensures IsLuhnValid(a + [c] + b) <==> IsLuhnValid(a + b)
  {
    DigitsOfIgnoresNonDigit(a, c, b);
  }

  /** An input with no digit characters passes: its sum is 0. */
  lemma NoDigitsIsValid(s: string)
    requires forall i :: 0 <= i < |s| ==> !IsDigit(s[i])
    ensures IsLuhnValid(s)
  {
    DigitsOfNoDigits(s);
  }

  /** The sum of a concatenation: the digits of `b` keep their places, the
      digits of `a` shift by `|b|` places. */
  lemma {:induction false} LuhnSumConcat(a: seq<Digit>, b: seq<Digit>, doubleLast: bool)
    ensures LuhnSum(a + b, doubleLast) == LuhnSum(a, doubleLast != (|b| % 2 == 1)) + LuhnSum(b, doubleLast)
  {
    if b == [] {
      assert a + b == a;
    } else {
      var init, last := b[..|b| - 1], b[|b| - 1];
      assert a + b == (a + init) + [last];
      LuhnSumAppend(a + init, last, doubleLast);
      LuhnSumConcat(a, init, !doubleLast);
    }
  }

  /** The sums of the four-digit groups of the test numbers below. */
  lemma GroupSums()
    ensures LuhnSum([4, 1, 1, 1], false) == 12
    ensures LuhnSum([1, 1, 1, 1], false) == 6
    ensures LuhnSum([1, 1, 1, 2], false) == 7
  {
    var e: seq<Digit> := [];
    assert [4] == e + [4] && [1] == e + [1];
    assert [4, 1] == [4] + [1] && [4, 1, 1] == [4, 1] + [1] && [4, 1, 1, 1] == [4, 1, 1] + [1];
    assert [1, 1] == [1] + [1] && [1, 1, 1] == [1, 1] + [1];
    assert [1, 1, 1, 1] == [1, 1, 1] + [1] && [1, 1, 1, 2] == [1, 1, 1] + [2];
    LuhnSumAppend(e, 4, true);
    LuhnSumAppend([4], 1, false);
    LuhnSumAppend([4, 1], 1, true);
    LuhnSumAppend([4, 1, 1], 1, false);
    LuhnSumAppend(e, 1, true);
    LuhnSumAppend([1], 1, false);
    LuhnSumAppend([1, 1], 1, true);
    LuhnSumAppend([1, 1, 1], 1, false);
    LuhnSumAppend([1, 1, 1], 2, false);
  }

  /** The digits of the strings "4111", "1111", "1112" and "-". */
  lemma GroupDigits()
    ensures DigitsOf("4111") == [4, 1, 1, 1]
    ensures DigitsOf("1111") == [1, 1, 1, 1]
    ensures DigitsOf("1112") == [1, 1, 1, 2]
    ensures DigitsOf("-") == []
  {
    DigitsOfAllDigits("4111");
    DigitsOfAllDigits("1111");
    DigitsOfAllDigits("1112");
  }

  /** The digits of a number written as four four-digit groups. */
  lemma FourGroupDigits(g1: string, g2: string, g3: string, g4: string)
    ensures DigitsOf(g1 + g2 + g3 + g4) == DigitsOf(g1) + DigitsOf(g2) + DigitsOf(g3) + DigitsOf(g4)
  {
    DigitsOfAppend(g1, g2);
    DigitsOfAppend(g1 + g2, g3);
    DigitsOfAppend(g1 + g2 + g3, g4);
  }

  /** The Luhn sum of four four-digit groups is the sum of the group sums. */
  lemma FourGroupSum(g1: seq<Digit>, g2: seq<Digit>, g3: seq<Digit>, g4: seq<Digit>)
    requires |g1| == |g2| == |g3| == |g4| == 4
    ensures LuhnSum(g1 + g2 + g3 + g4, false)
         == LuhnSum(g1, false) + LuhnSum(g2, false) + LuhnSum(g3, false) + LuhnSum(g4, false)
  {
    assert g1 + g2 + g3 + g4 == (g1 + g2) + (g3 + g4);
    LuhnSumConcat(g1 + g2, g3 + g4, false);
    LuhnSumConcat(g1, g2, false);
    LuhnSumConcat(g3, g4, false);
  }

  lemma TestNumberDigits()
    ensures DigitsOf("4111111111111111") == [4, 1, 1, 1] + [1, 1, 1, 1] + [1, 1, 1, 1] + [1, 1, 1, 1]
  {
    GroupDigits();
    FourGroupDigits("4111", "1111", "1111", "1111");
    assert "4111" + "1111" + "1111" + "1111" == "4111111111111111";
  }

  lemma TestNumberSum()
    ensures LuhnSum([4, 1, 1, 1] + [1, 1, 1, 1] + [1, 1, 1, 1] + [1, 1, 1, 1], false) == 30
  {
    GroupSums();
    FourGroupSum([4, 1, 1, 1], [1, 1, 1, 1], [1, 1, 1, 1], [1, 1, 1, 1]);
  }

  /** The usual test number passes. */
  lemma TestNumberPasses()
    ensures IsLuhnValid("4111111111111111")
  {
    var ds: seq<Digit> := [4, 1, 1, 1] + [1, 1, 1, 1] + [1, 1, 1, 1] + [1, 1, 1, 1];
    TestNumberDigits();
    TestNumberSum();
    assert LuhnSum(DigitsOf("4111111111111111"), false) == LuhnSum(ds, false) == 30;
  }

  /** Its dashed form passes too, the dashes being no digits. */
  lemma DashedTestNumberPasses()
    ensures IsLuhnValid("4111-1111-1111-1111")
  {
    assert DigitsOf("4111-1111-1111-1111") == DigitsOf("4111111111111111") by {
      GroupDigits();
      FourGroupDigits("4111", "-1111", "-1111", "-1111");
      FourGroupDigits("4111", "1111", "1111", "1111");
      DigitsOfAppend("-", "1111");
    }
    TestNumberPasses();
  }

  lemma OffByOneDigits()
    ensures DigitsOf("4111111111111112") == [4, 1, 1, 1] + [1, 1, 1, 1] + [1, 1, 1, 1] + [1, 1, 1, 2]
  {
    GroupDigits();
    FourGroupDigits("4111", "1111", "1111", "1112");
    assert "4111" + "1111" + "1111" + "1112" == "4111111111111112";
  }

  lemma OffByOneSum()
    ensures LuhnSum([4, 1, 1, 1] + [1, 1, 1, 1] + [1, 1, 1, 1] + [1, 1, 1, 2], false) == 31
  {
    GroupSums();
    FourGroupSum([4, 1, 1, 1], [1, 1, 1, 1], [1, 1, 1, 1], [1, 1, 1, 2]);
  }

  /** The same number with its last digit one off fails. */
  lemma OffByOneFails()
    ensures !IsLuhnValid("4111111111111112")
  {
    OffByOneDigits();
    OffByOneSum();
  }

  /** A letters-only input passes, since its sum is 0. */
  lemma LettersOnlyPasses()
    ensures IsLuhnValid("abcd")
  {
    NoDigitsIsValid("abcd");
  }

  // ---------------------------------------------------------------------
  // The validator

  /** Drops non-digits, then walks the digits from the right, doubling
      every second one starting one in from the rightmost. */
  method LuhnAlgorithm(cardNumber: string) returns (valid: bool)
    ensures valid == IsLuhnValid(cardNumber)
    ensures valid <==> OffsetSum(DigitsOf(cardNumber), false) % 10 == 0
  {
    var digits := DigitsOf(cardNumber);
    var n := |digits|;
    var sum := 0;
    var secondDigit := false;
    assert digits[..n] == digits;
    for i := n downto 0
      invariant sum + LuhnSum(digits[..i], secondDigit) == LuhnSum(digits, false)
    {
      assert digits[..i + 1][..i] == digits[..i];
      var digit: int := digits[i];
      if secondDigit {
        digit := digit * 2;
        if digit > 9 {
          digit := digit - 9;
        }
      }
      sum := sum + digit;
      secondDigit := !secondDigit;
    }
    valid := sum % 10 == 0;
    LuhnSumByOffset(digits, false);
  }
}
