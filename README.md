# Luhn card-number checker and generator, modelled in Dafny

This project models the core of a small card-number tool, `app.py`. The core has four parts:

- **The validator** (`luhn_algorithm`). It drops every non-digit character and walks the digits from the right. Every second digit, starting one in from the rightmost, is doubled, and 9 is subtracted when the doubled value exceeds 9. The input passes when the total is a multiple of 10. This is the Luhn mod-10 formula of ISO/IEC 7812-1, Annex B.
- **The generator** (`generate_luhn_card`). It rejects a prefix that is not a non-empty digit string, and a prefix that leaves no room for the requested length. Otherwise it pads the prefix with `length - len(prefix) - 1` random digits. It computes the check digit with the doubling flag starting at true, because the digit about to be appended shifts every position by one, and returns base plus check digit.
- **The batch policy** (the generate branch of the form handler). The card length must be in 8..19 and the count in 1..10. The generator is then called once per card, and the loop stops at the first failure, which appends a failure message.
- **The upload row filter.** It builds a header row followed by the entries that mention neither "failed" nor "invalid" in any letter case. A sheet is uploaded only when at least one data row remains.

Modules, one per component:

- `wrappers.dfy`: module `Wrappers`, the `Option` result.
- `luhn.dfy`: module `Luhn`. It holds digits, the digit filter, the Luhn sum `LuhnSum` (taken from the right, as the source's loop runs), a left-to-right reference sum `OffsetSum`, and the validator method `LuhnAlgorithm`.
- `generator.dfy`: module `Generator`. It holds the generator as a function (`LuhnCard`), its round trip with the validator, and the method `GenerateLuhnCard` that mirrors the source's loop.
- `batch.dfy`: module `Batch`. It holds the batch output as a function (`BatchOutput`) and the method `GenerateCards` that mirrors the source's loop with its `break`.
- `upload.dfy`: module `Upload`. It holds the row filter as written and a corrected filter; see Findings.

Randomness is an input. Each generator call receives its random digits as a `seq<Digit>` of length `length - len(prefix) - 1`, and a batch receives one such sequence per card.

An input with no digit characters passes, since the empty sum is 0; `luhn_algorithm` has no separate "not applicable" outcome (`Luhn.NoDigitsIsValid`, `Luhn.LettersOnlyPasses`). The empty prefix is rejected by the generator, because `"".isdigit()` is false.

## Model

| member | source | states |
|---|---|---|
| `Luhn.DigitsOf` | app.py:125-126 | the filtered digits are never more than the characters of the input |
| `Luhn.DigitsOfAppend` | app.py:125 | filtering distributes over concatenation, so order is kept |
| `Luhn.DigitsOfIgnoresNonDigit` | app.py:125 | inserting a non-digit character anywhere leaves the digit sequence unchanged |
| `Luhn.DigitsOfNoDigits` | app.py:125 | a string with no digit characters yields no digits |
| `Luhn.DigitsOfKeepsAll` | app.py:125 | the filter drops no character exactly when every character is a digit |
| `Luhn.DigitsOfAllDigits` | app.py:150 | on an all-digit string, the digit filter and the per-character conversion agree |
| `Luhn.DigitValues` | app.py:150 | converting an all-digit string gives one value per character, and each value prints back as that character |
| `Luhn.DigitString` | app.py:149 | printing random digits gives an all-digit string of the same length whose characters read back as those digits |
| `Luhn.DigitsOfDigitString` | app.py:149-150 | printed random digits filter back to the same digits |
| `Luhn.LuhnTerm` | app.py:132-134 | the contribution of one digit: the digit itself, or twice the digit less 9 when the doubled value exceeds 9 |
| `Luhn.LuhnTermIsDigitSum` | app.py:132-134 | each contribution is the sum of the decimal digits of the digit, doubled where its position calls for it |
| `Luhn.LuhnSum` | app.py:128-136 | the right-to-left sum is a natural number at most 9 per digit |
| `Luhn.IsLuhnValid` | app.py:125-137 | the verdict: the right-to-left sum of the filtered digits, rightmost undoubled, is a multiple of 10; `Luhn.LuhnSumByOffset` and `Luhn.LuhnAlgorithm` tie it to the left-to-right form and to the loop |
| `Luhn.OffsetSum` | app.py:130-136 | the left-to-right reference sum, each digit doubled by its offset from the right, is at most 9 per digit |
| `Luhn.LuhnSumPrepend` | app.py:130-136 | the leftmost digit is doubled according to how many digits follow it |
| `Luhn.LuhnSumByOffset` | app.py:128-137 | the right-to-left sum equals the left-to-right sum in which exactly the digits at odd offsets from the right are doubled |
| `Luhn.LuhnSumConcat` | app.py:130-136 | the sum of a concatenation is the sum of the right part plus the left part shifted by the right part's length |
| `Luhn.LuhnSumUpdate` | app.py:131-135 | changing one digit changes the sum by exactly the change of that digit's term |
| `Luhn.SingleDigitErrorDetected` | app.py:137 | changing any single digit of a passing number makes it fail |
| `Luhn.ValidityIgnoresSeparator` | app.py:125-137 | inserting a separator such as '-' never changes the verdict |
| `Luhn.NoDigitsIsValid` | app.py:125-137 | an input with no digit characters passes, since its sum is 0 |
| `Luhn.TestNumberPasses` | app.py:123-137 | "4111111111111111" passes |
| `Luhn.DashedTestNumberPasses` | app.py:123-137 | "4111-1111-1111-1111" passes |
| `Luhn.OffByOneFails` | app.py:123-137 | "4111111111111112" fails |
| `Luhn.LettersOnlyPasses` | app.py:123-137 | "abcd" passes, as the code returns True when there are no digits |
| `Luhn.LuhnAlgorithm` | app.py:123-137 | the loop's verdict is "sum of the filtered digits, rightmost undoubled, is divisible by 10", also in the by-offset form |
| `Generator.CheckDigit` | app.py:161 | the check digit brings the sum of the base, last digit doubled, to a multiple of 10 |
| `Generator.CheckDigitUnique` | app.py:161 | `(10 - sum % 10) % 10` is the one digit that makes `sum + c` divisible by 10 |
| `Generator.AppendDigitSum` | app.py:153-162 | appending digit c adds c to the base's sum taken with its last digit doubled |
| `Generator.CheckDigitIff` | app.py:150-162 | a digit completes a base to a passing number exactly when it is the check digit |
| `Generator.IsDigitString` | app.py:144 | `str.isdigit` on the prefix holds exactly when the prefix is non-empty and the digit filter drops none of its characters |
| `Generator.LuhnCard` | app.py:142-162 | fails exactly on a non-digit or empty prefix or a prefix of at least `length` characters; on success the card has length `length`, begins with the prefix, continues with the drawn digits and ends in a digit |
| `Generator.LuhnCardRoundTrip` | app.py:142-162 | every card the generator returns is an all-digit string of length `length` that starts with the prefix and passes `luhn_algorithm` |
| `Generator.GenerateLuhnCard` | app.py:142-162 | the loop's result is the generator's value, and every card it returns passes the validator |
| `Batch.Collect` | app.py:205-211 | the generation loop never produces more entries than draws |
| `Batch.CollectAllOrNothing` | app.py:205-211 | an unusable prefix gives just the failure message; otherwise one card per draw, each the generator's card for that draw |
| `Batch.BatchOutput` | app.py:200-211 | the batch list is never empty, and with both bounds met it has at most `count` entries |
| `Batch.BatchPolicy` | app.py:200-211 | a length outside 8..19, or else a count outside 1..10, gives exactly one message; otherwise either only the failure message or `count` valid cards |
| `Batch.BatchShape` | app.py:204-211 | at most `count` entries, every entry before the last a generated card, the last a card or the failure message |
| `Batch.GenerateCards` | app.py:193-211 | the loop with its break leaves exactly the batch output in `generated_cards` |
| `Upload.Lower` | app.py:231 | lower-casing keeps the length, leaves no capital letter, turns each capital into the same letter in lower case and changes no other character |
| `Upload.Contains` | app.py:231 | the empty word is in every text; a word in a text is no longer than the text, and each of its characters occurs in the text |
| `Upload.LooksLikeCard` | app.py:231 | an entry is dropped only when its lower-cased form holds each of the letters a, i, l and d, which both flagged words share |
| `Upload.Rows` | app.py:231 | never more data rows than entries |
| `Upload.RowsExact` | app.py:231 | every data row is one entry that passes the test, and every passing entry has its row |
| `Upload.RowsAppend` | app.py:231 | filtering distributes over concatenation, so the rows keep the entries' order |
| `Upload.RowsKeepAll` | app.py:231 | when every entry passes, the rows are exactly the entries, in order, one per row |
| `Upload.SheetData` | app.py:230-231 | the sheet starts with the header row, and every later row is a single entry of the list that passes the written test |
| `Upload.ShouldUpload` | app.py:230-233 | an upload happens exactly when some entry passes the written test |
| `Upload.FlaggedWordFiltered` | app.py:231 | an entry holding a word that lower-cases to "failed" or "invalid" is dropped, wherever the word stands |
| `Upload.AllDigitsLooksLikeCard` | app.py:231 | every digit string passes the filter |
| `Upload.FailureMessageFiltered` | app.py:231 | the generation-failure message is filtered out |
| `Upload.LengthMessageFiltered` | app.py:231 | the length message is filtered out |
| `Upload.CountMessagePasses` | app.py:231 | the count message passes the filter |
| `Upload.SuccessfulBatchUploadsAllCards` | app.py:205-233 | a successful batch uploads a sheet holding the header and every card, in order |
| `Upload.FailedBatchUploadsNothing` | app.py:200-233 | a rejected length or a failed generation uploads nothing |
| `Upload.CountMessageIsUploaded` | app.py:202-233 | a count of 0 with length 16 yields the count message, and the sheet is uploaded with it as a card row |
| `Upload.CardRowsAreDataRows` | app.py:231 | every row the corrected filter keeps is also kept by the written filter |
| `Upload.CardSheetIsBatchCards` | app.py:200-233 | with the corrected filter, a batch uploads exactly when it generated cards, and the sheet is the header plus those cards |

## Left out

- Google credentials, `share_file_with_email` and `upload_to_drive_as_sheet` (app.py:27-119): these are network calls to a third-party service. The model stops at the rows handed to the upload and the decision to upload.
- Flask routing, form reading, template rendering and the validate branch's wiring (app.py:168-191, 263-269): this is request plumbing around the modelled functions.
- The hidden-field round trip (app.py:180-184, 212, 220-226, 260-261): the batch list is joined with newlines and split again before upload. The model hands the batch list to the filter directly, so an entry containing a newline is not modelled.
- `int()` parsing of the length and count fields, and the "Invalid input for length or number of cards." message of the `ValueError` branch (app.py:196-198, 214-216): length and count are model inputs that are already integers.
- Randomness (app.py:149, 228): the random digits are an input and the random file name is not modelled.
- Luhn.LuhnAlgorithm: returns a `bool`, never the source's `None`. That result comes only from a caught `ValueError` or `TypeError`, for non-string input or for characters that `str.isdigit` accepts and `int()` rejects, such as superscript digits (app.py:138-139).
- Generator.GenerateLuhnCard: does not model the catch-all exception handler or its diagnostic output (app.py:163-165): with string inputs the only exceptions come from characters outside the ASCII reading of digits. The default `length=16` is not modelled either, because every caller passes a length.
- Luhn.LuhnAlgorithm, Luhn.IsLuhnValid, Generator.LuhnCard and Generator.GenerateLuhnCard: a digit is one of the ASCII characters '0'..'9'. Python's `str.isdigit` and `int()` also accept other decimal digits, such as '٤' (U+0664) or '４' (U+FF14), and read them as digit values (app.py:125-126, 144, 150). The model treats them as non-digits: it drops '٤' from "٤2" and rejects the prefix "٤". `Luhn.ValidityIgnoresSeparator` and `Luhn.DigitsOfIgnoresNonDigit` hold for such characters only in this ASCII reading.
- Upload.Lower: Python's `str.lower` on ASCII letters only; other letters are left unchanged.
- Diagnostic `print` calls throughout.

## Findings

| source | as written | input that shows it | evidently intended | confidence | as-written member | corrected member |
|---|---|---|---|---|---|---|
| app.py:231-233 | the filter drops only entries that contain "failed" or "invalid", and the count message "Number of cards must be between 1 and 10." contains neither | generate with card length 16 and number of cards 0, then upload: the rows are the header plus the count message, so the sheet is uploaded | only card numbers reach the sheet (the comment at line 231 says that only valid-looking cards are to be uploaded); with none, "No valid card numbers were generated to upload." is shown (line 250) | medium, not executed | `Upload.CountMessageIsUploaded` | `Upload.CardSheetIsBatchCards` |

The corrected filter (`Upload.CardSheetData`, which is `Upload.Rows` with the test `Generator.IsDigitString`) keeps an entry only when it is a non-empty string of digits. `Upload.CardRowsAreDataRows` shows that every row it keeps is also kept by the written test.
