/** The batch-generation policy of the form handler: bounds on the card
    length and the card count, then one generator call per card, stopping
    at the first failure. Each call's random digits are an input. */
module Batch {
  import opened Wrappers
  import opened Luhn
  import opened Generator

  const LengthMessage: string := "Invalid card length (must be 8-19)."
  const CountMessage: string := "Number of cards must be between 1 and 10."
  const FailureMessage: string := "Card generation failed (check inputs)."

  predicate LengthInRange(length: int) {
    8 <= length <= 19
  }

  predicate CountInRange(count: int) {
    1 <= count <= 10
  }

  /** Every draw fits the generator's free positions. */
  predicate DrawsFit(prefix: string, length: int, draws: seq<seq<Digit>>) {
    forall k :: 0 <= k < |draws| ==> DrawFits(prefix, length, draws[k])
  }

  /** When the bounds hold, there is one draw per requested card. */
  predicate BatchDrawsFit(prefix: string, length: int, count: int, draws: seq<seq<Digit>>) {
    LengthInRange(length) && CountInRange(count) ==> |draws| == count && DrawsFit(prefix, length, draws)
  }

  /** The generation loop as a value: one card per draw, until a call fails,
      which ends the list with the failure message. */
  function Collect(prefix: string, length: int, draws: seq<seq<Digit>>): (out: seq<string>)
    requires DrawsFit(prefix, length, draws)
    ensures |out| <= |draws|
    ensures draws != [] ==> out != []
  {
    if draws == [] then []
    else match LuhnCard(prefix, length, draws[0])
      case None => [FailureMessage]
      case Some(card) => [card] + Collect(prefix, length, draws[1..])
  }

  /** The list the generate branch leaves in `generated_cards`. */
  function BatchOutput(prefix: string, length: int, count: int, draws: seq<seq<Digit>>): (out: seq<string>)
    requires BatchDrawsFit(prefix, length, count, draws)
    ensures out != []
    ensures LengthInRange(length) && CountInRange(count) ==> |out| <= count
  {
    if !LengthInRange(length) then [LengthMessage]
    else if !CountInRange(count) then [CountMessage]
    else Collect(prefix, length, draws)
  }

  /** A generator failure is decided by the prefix and the length alone, so
      the loop either fails on its first call or never. */
  lemma {:induction false} CollectAllOrNothing(prefix: string, length: int, draws: seq<seq<Digit>>)
    requires DrawsFit(prefix, length, draws)
    ensures !IsDigitString(prefix) || |prefix| >= length ==>
              Collect(prefix, length, draws) == if draws == [] then [] else [FailureMessage]
    ensures IsDigitString(prefix) && |prefix| < length ==>
              |Collect(prefix, length, draws)| == |draws| &&
              forall k :: 0 <= k < |draws| ==>
                LuhnCard(prefix, length, draws[k]) == Some(Collect(prefix, length, draws)[k])
  {
    if draws != [] {
      CollectAllOrNothing(prefix, length, draws[1..]);
      if IsDigitString(prefix) && |prefix| < length {
        var out := Collect(prefix, length, draws);
        forall k | 0 <= k < |draws|
          ensures LuhnCard(prefix, length, draws[k]) == Some(out[k])
        {
          if k > 0 {
            assert draws[1..][k - 1] == draws[k];
          }
        }
      }
    }
  }

  /** The policy: a length out of 8..19, or else a count out of 1..10, gives
      exactly one message; otherwise the output is either the single failure
      message (the prefix is unusable) or `count` valid cards. */
  lemma BatchPolicy(prefix: string, length: int, count: int, draws: seq<seq<Digit>>)
    requires BatchDrawsFit(prefix, length, count, draws)
    ensures !LengthInRange(length) ==> BatchOutput(prefix, length, count, draws) == [LengthMessage]
    ensures LengthInRange(length) && !CountInRange(count) ==>
              BatchOutput(prefix, length, count, draws) == [CountMessage]
    ensures LengthInRange(length) && CountInRange(count) && (!IsDigitString(prefix) || |prefix| >= length) ==>
              BatchOutput(prefix, length, count, draws) == [FailureMessage]
    ensures LengthInRange(length) && CountInRange(count) && IsDigitString(prefix) && |prefix| < length ==>
              var out := BatchOutput(prefix, length, count, draws);
              |out| == count &&
              forall k :: 0 <= k < count ==> IsGeneratedCard(out[k], prefix, length)
  {
    if LengthInRange(length) && CountInRange(count) {
      CollectAllOrNothing(prefix, length, draws);
      var out := BatchOutput(prefix, length, count, draws);
      forall k | 0 <= k < |out| && IsDigitString(prefix) && |prefix| < length
        ensures IsGeneratedCard(out[k], prefix, length)
      {
        LuhnCardRoundTrip(prefix, length, draws[k]);
      }
    }
  }

  /** The loop's shape as written: never more than `count` entries, every
      entry but the last a generated card, and a failure only as the last entry. */
  lemma BatchShape(prefix: string, length: int, count: int, draws: seq<seq<Digit>>)
    requires LengthInRange(length) && CountInRange(count)
    requires BatchDrawsFit(prefix, length, count, draws)
    ensures var out := BatchOutput(prefix, length, count, draws);
            0 < |out| <= count &&
            (forall k :: 0 <= k < |out| - 1 ==> IsGeneratedCard(out[k], prefix, length)) &&
            (out[|out| - 1] == FailureMessage || IsGeneratedCard(out[|out| - 1], prefix, length))
  {
    BatchPolicy(prefix, length, count, draws);
  }

  /** One turn of the loop: the draw at index `k` either fails, ending the
      list, or yields the next card. */
  lemma CollectStep(prefix: string, length: int, draws: seq<seq<Digit>>, k: nat)
    requires DrawsFit(prefix, length, draws) && k < |draws|
    ensures DrawsFit(prefix, length, draws[k..]) && DrawsFit(prefix, length, draws[k + 1..])
    ensures Collect(prefix, length, draws[k..])
         == match LuhnCard(prefix, length, draws[k])
            case None => [FailureMessage]
            case Some(card) => [card] + Collect(prefix, length, draws[k + 1..])
  {
    assert draws[k..][0] == draws[k] && draws[k..][1..] == draws[k + 1..];
  }

  /** Mirrors the generate branch: the bounds checks, then the loop that
      appends each card and breaks after appending the failure message. */
  method GenerateCards(leadingDigits: string, cardLength: int, numCards: int, draws: seq<seq<Digit>>)
    returns (generatedCards: seq<string>)
    requires BatchDrawsFit(leadingDigits, cardLength, numCards, draws)
    ensures generatedCards == BatchOutput(leadingDigits, cardLength, numCards, draws)
  {
    generatedCards := [];
    if !(8 <= cardLength <= 19) {
      generatedCards := generatedCards + [LengthMessage];
    } else if !(1 <= numCards <= 10) {
      generatedCards := generatedCards + [CountMessage];
    } else {
      for k := 0 to numCards
        invariant generatedCards + Collect(leadingDigits, cardLength, draws[k..])
               == Collect(leadingDigits, cardLength, draws)
      {
        var card := GenerateLuhnCard(leadingDigits, cardLength, draws[k]);
        CollectStep(leadingDigits, cardLength, draws, k);
        if card.None? {
          assert Collect(leadingDigits, cardLength, draws[k..]) == [FailureMessage];
          generatedCards := generatedCards + [FailureMessage];
          break;
        }
        assert Collect(leadingDigits, cardLength, draws[k..])
            == [card.value] + Collect(leadingDigits, cardLength, draws[k + 1..]);
        generatedCards := generatedCards + [card.value];
      }
      assert draws[numCards..] == [];
    }
  }
}
