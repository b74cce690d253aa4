/** The card generator: a digit prefix, padded with random digits and
    closed by the Luhn check digit. The random digits are an input. */
module Generator {
  import opened Wrappers
  import opened Luhn

  /** What `str.isdigit` accepts on ASCII: a non-empty string of digits. */
  predicate IsDigitString(s: string): (r: bool)
    ensures r <==> |s| > 0 && |DigitsOf(s)| == |s|
  {
    DigitsOfKeepsAll(s);
    |s| > 0 && AllDigits(s)
  }

  /** The draw supplies one random digit per free position, that is,
      `length - |prefix| - 1` of them whenever that count is not negative. */
  predicate DrawFits(prefix: string, length: int, randomDigits: seq<Digit>) {
    length - |prefix| - 1 >= 0 ==> |randomDigits| == length - |prefix| - 1
  }

  /** The check digit for a base whose last digit is the second from the
      right of the finished number. */
  function CheckDigit(base: seq<Digit>): (c: Digit)
    ensures (LuhnSum(base, true) + c) % 10 == 0
  {
    (10 - LuhnSum(base, true) % 10) % 10
  }

  /** A finished card: `length` digits, starting with `prefix`, passing the check. */
  predicate IsGeneratedCard(card: string, prefix: string, length: int) {
    |card| == length && prefix <= card && AllDigits(card) && IsLuhnValid(card)
  }

  /** The generator as a value: None on a non-digit or empty prefix, or on
      a prefix that leaves no room; otherwise prefix, random digits, check digit. */
  function LuhnCard(prefix: string, length: int, randomDigits: seq<Digit>): (r: Option<string>)
    requires DrawFits(prefix, length, randomDigits)
    ensures r.None? <==> !IsDigitString(prefix) || |prefix| >= length
    ensures r.Some? ==> |r.value| == length && r.value[..|prefix|] == prefix
    ensures r.Some? ==> r.value[|prefix|..length - 1] == DigitString(randomDigits)
    ensures r.Some? ==> IsDigit(r.value[length - 1])
  {
    if !IsDigitString(prefix) || |prefix| >= length then None
    else
      var base := prefix + DigitString(randomDigits);
      var r := base + [DigitChar(CheckDigit(DigitValues(base)))];
      assert r[..|prefix|] == prefix && r[|prefix|..length - 1] == DigitString(randomDigits);
      Some(r)
  }

  /** A digit prefix padded with printed digits is all digits. */
  lemma BaseAllDigits(prefix: string, randomDigits: seq<Digit>)
    requires AllDigits(prefix)
    ensures AllDigits(prefix + DigitString(randomDigits))
  {
    var base := prefix + DigitString(randomDigits);
    forall i | 0 <= i < |base| ensures IsDigit(base[i]) {
      if i >= |prefix| { assert base[i] == DigitString(randomDigits)[i - |prefix|]; }
    }
  }

  /** The check digit is the only digit that brings a sum to a multiple of 10. */
  lemma CheckDigitUnique(sum: nat, c: Digit)
    ensures (sum + c) % 10 == 0 <==> c == (10 - sum % 10) % 10
  {
    var q, k := sum / 10, sum % 10;
    assert sum + c == 10 * q + (k + c);
    if k + c < 10 {
      assert (sum + c) % 10 == k + c;
    } else {
      assert sum + c == 10 * (q + 1) + (k + c - 10);
      assert (sum + c) % 10 == k + c - 10;
    }
  }

  /** Appending digit `c` to a string adds `c` undoubled to the sum of the
      old digits taken with the last one doubled. */
  lemma AppendDigitSum(base: string, c: Digit)
    ensures LuhnSum(DigitsOf(base + [DigitChar(c)]), false) == LuhnSum(DigitsOf(base), true) + c
  {
    var ch := DigitChar(c);
    DigitsOfAppend(base, [ch]);
    assert [ch][1..] == [];
    assert DigitsOf([ch]) == [c];
    LuhnSumAppend(DigitsOf(base), c, false);
  }

  /** A digit completes a base to a valid number exactly when it is the check digit. */
  lemma CheckDigitIff(base: string, c: Digit)
    ensures IsLuhnValid(base + [DigitChar(c)]) <==> c == CheckDigit(DigitsOf(base))
  {
    var total := LuhnSum(DigitsOf(base), true);
    AppendDigitSum(base, c);
    assert IsLuhnValid(base + [DigitChar(c)]) <==> (total + c) % 10 == 0;
    CheckDigitUnique(total, c);
    assert CheckDigit(DigitsOf(base)) == (10 - total % 10) % 10;
  }

  /** Round trip: every card the generator returns passes the validator,
      and is a `length`-digit number starting with the prefix. */
  lemma LuhnCardRoundTrip(prefix: string, length: int, randomDigits: seq<Digit>)
    requires DrawFits(prefix, length, randomDigits)
    ensures LuhnCard(prefix, length, randomDigits).Some? ==>
              IsGeneratedCard(LuhnCard(prefix, length, randomDigits).value, prefix, length)
  {
    if IsDigitString(prefix) && |prefix| < length {
      var base := prefix + DigitString(randomDigits);
      BaseAllDigits(prefix, randomDigits);
      DigitsOfAllDigits(base);
      CheckDigitIff(base, CheckDigit(DigitValues(base)));
    }
  }

  /** Whether generation fails does not depend on the random digits. */
  lemma FailureIgnoresDraw(prefix: string, length: int, r1: seq<Digit>, r2: seq<Digit>)
    requires DrawFits(prefix, length, r1) && DrawFits(prefix, length, r2)
    ensures LuhnCard(prefix, length, r1).None? <==> LuhnCard(prefix, length, r2).None?
  {
  }

  /** Mirrors the generator: checks the prefix and the room left, appends
      the drawn digits, then sums the base from its last digit with that
      digit doubled, since the check digit will follow it. */
  method GenerateLuhnCard(leadingDigits: string, length: int, randomDigits: seq<Digit>)
    returns (card: Option<string>)
    requires DrawFits(leadingDigits, length, randomDigits)
    ensures card == LuhnCard(leadingDigits, length, randomDigits)
    ensures card.Some? ==> IsGeneratedCard(card.value, leadingDigits, length)
  {
    if !IsDigitString(leadingDigits) {
      return None;
    }
    var leadingLen := |leadingDigits|;
    if leadingLen >= length {
      return None;
    }
    var remainingLength := length - leadingLen - 1;
    // The source's third guard, remaining_length < 0, cannot fire after the previous one.
    assert remainingLength >= 0;
    var base := leadingDigits + DigitString(randomDigits);
    BaseAllDigits(leadingDigits, randomDigits);
    var digits := DigitValues(base);
    var n := |digits|;
    var sum := 0;
    var secondDigit := true;
    assert digits[..n] == digits;
    for i := n downto 0
      invariant sum + LuhnSum(digits[..i], secondDigit) == LuhnSum(digits, true)
    {
      assert digits[..i + 1][..i] == digits[..i];
      var digit: int := digits[i];
      if secondDigit {
        digit := digit * 2;
        if digit > 9 {
          digit := digit - 9;
        }
      }
      sum := sum + digit;
      secondDigit := !secondDigit;
    }
    var checkDigit := (10 - sum % 10) % 10;
    assert checkDigit == CheckDigit(digits);
    card := Some(base + [DigitChar(checkDigit)]);
    LuhnCardRoundTrip(leadingDigits, length, randomDigits);
  }
}
