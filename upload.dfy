/** The row filter of the upload branch: a header row, then one single-cell
    row per entry that mentions neither "failed" nor "invalid" in any
    letter case; a sheet is uploaded only when a data row remains. */
module Upload {
  import opened Luhn
  import opened Generator
  import opened Batch

  const SheetHeader: string := "Generated Credit Card Numbers"

  /** `str.lower` restricted to ASCII letters. */
  function LowerChar(c: char): char {
    if 'A' <= c <= 'Z' then (c as int - 'A' as int + 'a' as int) as char else c
  }

  /** Lower-casing leaves no capital letter, turns each capital into the same
      letter in lower case, and changes no other character. */
  function Lower(s: string): (r: string)
    ensures |r| == |s|
    ensures forall i :: 0 <= i < |r| ==> !('A' <= r[i] <= 'Z')
    ensures forall i :: 0 <= i < |s| && !('A' <= s[i] <= 'Z') ==> r[i] == s[i]
    ensures forall i :: 0 <= i < |s| && 'A' <= s[i] <= 'Z' ==>
              r[i] as int - 'a' as int == s[i] as int - 'A' as int
  {
    seq(|s|, i requires 0 <= i < |s| => LowerChar(s[i]))
  }

  /** `t` occurs in `s` starting at index `i`. */
  predicate OccursAt(s: string, t: string, i: int) {
    0 <= i <= |s| - |t| && s[i..i + |t|] == t
  }

  /** Every character of an occurring word is a character of the text. */
  lemma OccursAtChars(s: string, t: string)
    ensures forall i :: OccursAt(s, t, i) ==> forall j :: 0 <= j < |t| ==> t[j] in s
  {
    forall i, j | OccursAt(s, t, i) && 0 <= j < |t| ensures t[j] in s {
      assert s[i..i + |t|][j] == s[i + j];
    }
  }

  /** Python's `t in s` on strings: `t` occurs in `s` as a contiguous block.
      The empty word is in every text; a word that is in a text is no longer
      than it, and each of its characters occurs there. */
  predicate Contains(s: string, t: string): (r: bool)
    ensures |t| == 0 ==> r
    ensures r ==> |t| <= |s| && forall j :: 0 <= j < |t| ==> t[j] in s
  {
    OccursAtChars(s, t);
    assert |t| == 0 ==> OccursAt(s, t, 0);
    exists i :: 0 <= i <= |s| - |t| && OccursAt(s, t, i)
  }

  /** The test an entry must pass to reach the sheet, as written. Both flagged
      words hold the letters a, i, l and d, so only an entry holding all four,
      in either case, can be dropped. */
  predicate LooksLikeCard(entry: string): (r: bool)
    ensures !r ==> var low := Lower(entry); 'a' in low && 'i' in low && 'l' in low && 'd' in low
  {
    assert "failed"[1] == 'a' && "failed"[2] == 'i' && "failed"[3] == 'l' && "failed"[5] == 'd';
    assert "invalid"[3] == 'a' && "invalid"[0] == 'i' && "invalid"[4] == 'l' && "invalid"[6] == 'd';
    !Contains(Lower(entry), "failed") && !Contains(Lower(entry), "invalid")
  }

  /** The data rows, in order: one single-cell row per entry that `keep` accepts. */
  function Rows(entries: seq<string>, keep: string -> bool): (rows: seq<seq<string>>)
    ensures |rows| <= |entries|
  {
    if entries == [] then []
    else if keep(entries[0]) then [[entries[0]]] + Rows(entries[1..], keep)
    else Rows(entries[1..], keep)
  }

  /** The rows keep exactly the accepted entries, each as a one-cell row. */
  lemma {:induction false} RowsExact(entries: seq<string>, keep: string -> bool)
    ensures forall row :: row in Rows(entries, keep) ==>
              |row| == 1 && row[0] in entries && keep(row[0])
    ensures forall e :: e in entries && keep(e) ==> [e] in Rows(entries, keep)
  {
    if entries != [] {
      RowsExact(entries[1..], keep);
      forall e | e in entries && keep(e) ensures [e] in Rows(entries, keep) {
        if e != entries[0] {
          assert e in entries[1..];
        }
      }
    }
  }

  /** Filtering distributes over concatenation, so rows keep the entries' order. */
  lemma {:induction false} RowsAppend(a: seq<string>, b: seq<string>, keep: string -> bool)
    ensures Rows(a + b, keep) == Rows(a, keep) + Rows(b, keep)
  {
    if a != [] {
      assert (a + b)[0] == a[0] && (a + b)[1..] == a[1..] + b;
      RowsAppend(a[1..], b, keep);
    } else {
      assert a + b == b;
    }
  }

  /** When every entry is accepted, every entry is kept, in order. */
  lemma {:induction false} RowsKeepAll(entries: seq<string>, keep: string -> bool)
    requires forall k :: 0 <= k < |entries| ==> keep(entries[k])
    ensures Rows(entries, keep) == seq(|entries|, k requires 0 <= k < |entries| => [entries[k]])
  {
    if entries != [] {
      RowsKeepAll(entries[1..], keep);
    }
  }

  /** `data_for_sheet`: the header row, then the rows of the entries that
      pass the written test. */
  function SheetData(entries: seq<string>): (sheet: seq<seq<string>>)
    ensures sheet != [] && sheet[0] == [SheetHeader]
    ensures forall k :: 1 <= k < |sheet| ==>
              |sheet[k]| == 1 && sheet[k][0] in entries && LooksLikeCard(sheet[k][0])
  {
    RowsExact(entries, LooksLikeCard);
    [[SheetHeader]] + Rows(entries, LooksLikeCard)
  }

  /** The upload happens only when some row follows the header, that is,
      exactly when some entry passes the written test. */
  predicate ShouldUpload(entries: seq<string>): (r: bool)
    ensures r <==> exists e :: e in entries && LooksLikeCard(e)
  {
    var rows := Rows(entries, LooksLikeCard);
    RowsExact(entries, LooksLikeCard);
    assert rows != [] ==> rows[0] in rows;
    |SheetData(entries)| > 1
  }

  /** Every digit string passes: it holds no 'i', which both flagged words have. */
  lemma AllDigitsLooksLikeCard(s: string)
    requires AllDigits(s)
    ensures LooksLikeCard(s)
  {
    var low := Lower(s);
    assert forall k :: 0 <= k < |low| ==> low[k] == s[k];
  }

  /** An entry holding a word that lower-cases to a flagged word is dropped. */
  lemma FlaggedWordFiltered(pre: string, w: string, post: string)
    requires Lower(w) == "failed" || Lower(w) == "invalid"
    ensures !LooksLikeCard(pre + w + post)
  {
    var s := pre + w + post;
    var low, i := Lower(s), |pre|;
    forall j | 0 <= j < |w| ensures low[i..i + |w|][j] == Lower(w)[j] {
      assert s[i + j] == w[j];
    }
    assert low[i..i + |w|] == Lower(w);
    assert OccursAt(low, Lower(w), i);
  }

  lemma FailureMessageWords()
    ensures FailureMessage == "Card generation " + "failed" + " (check inputs)."
    ensures Lower("failed") == "failed"
  {
  }

  lemma LengthMessageWords()
    ensures LengthMessage == "" + "Invalid" + " card length (must be 8-19)."
  {
  }

  lemma InvalidLowered()
    ensures Lower("Invalid") == "invalid"
  {
  }

  lemma FailureMessageFiltered()
    ensures !LooksLikeCard(FailureMessage)
  {
    FailureMessageWords();
    FlaggedWordFiltered("Card generation ", "failed", " (check inputs).");
  }

  lemma LengthMessageFiltered()
    ensures !LooksLikeCard(LengthMessage)
  {
    LengthMessageWords();
    InvalidLowered();
    FlaggedWordFiltered("", "Invalid", " card length (must be 8-19).");
  }

  /** As written, the count message passes the filter: it has no 'i'. */
  lemma CountMessagePasses()
    ensures LooksLikeCard(CountMessage)
  {
    var low := Lower(CountMessage);
    assert forall k :: 0 <= k < |CountMessage| ==> CountMessage[k] != 'i' && CountMessage[k] != 'I';
    assert forall k :: 0 <= k < |low| ==> low[k] != 'i';
  }

  /** A batch that generated its cards uploads all of them, in order. */
  lemma SuccessfulBatchUploadsAllCards(prefix: string, length: int, count: int, draws: seq<seq<Digit>>)
    requires BatchDrawsFit(prefix, length, count, draws)
    requires LengthInRange(length) && CountInRange(count) && IsDigitString(prefix) && |prefix| < length
    ensures var out := BatchOutput(prefix, length, count, draws);
            ShouldUpload(out) && SheetData(out) == [[SheetHeader]] + seq(|out|, k requires 0 <= k < |out| => [out[k]])
  {
    var out := BatchOutput(prefix, length, count, draws);
    BatchPolicy(prefix, length, count, draws);
    forall k | 0 <= k < |out| ensures LooksLikeCard(out[k]) {
      AllDigitsLooksLikeCard(out[k]);
    }
    RowsKeepAll(out, LooksLikeCard);
  }

  /** A failed generation, or a length out of range, uploads nothing. */
  lemma FailedBatchUploadsNothing(prefix: string, length: int, count: int, draws: seq<seq<Digit>>)
    requires BatchDrawsFit(prefix, length, count, draws)
    requires !LengthInRange(length) || (CountInRange(count) && (!IsDigitString(prefix) || |prefix| >= length))
    ensures !ShouldUpload(BatchOutput(prefix, length, count, draws))
  {
    BatchPolicy(prefix, length, count, draws);
    FailureMessageFiltered();
    LengthMessageFiltered();
  }

  /** The discrepancy: a count out of range leaves the count message in the
      list, and the filter uploads it as if it were a card number. */
  lemma CountMessageIsUploaded(prefix: string)
    ensures BatchDrawsFit(prefix, 16, 0, [])
    ensures BatchOutput(prefix, 16, 0, []) == [CountMessage]
    ensures ShouldUpload(BatchOutput(prefix, 16, 0, []))
    ensures SheetData(BatchOutput(prefix, 16, 0, [])) == [[SheetHeader], [CountMessage]]
  {
    CountMessagePasses();
  }

  // ---------------------------------------------------------------------
  // The filter as intended: only card numbers reach the sheet

  /** The corrected sheet: the header row, then the rows of the entries that
      are card numbers, that is, non-empty strings of digits. */
  function CardSheetData(entries: seq<string>): seq<seq<string>> {
    [[SheetHeader]] + Rows(entries, IsDigitString)
  }

  predicate CardShouldUpload(entries: seq<string>) {
    |CardSheetData(entries)| > 1
  }

  /** The corrected filter keeps no row that the written one drops. */
  lemma CardRowsAreDataRows(entries: seq<string>)
    ensures forall row :: row in Rows(entries, IsDigitString) ==> row in Rows(entries, LooksLikeCard)
  {
    RowsExact(entries, IsDigitString);
    RowsExact(entries, LooksLikeCard);
    forall row | row in Rows(entries, IsDigitString) ensures row in Rows(entries, LooksLikeCard) {
      AllDigitsLooksLikeCard(row[0]);
      assert row == [row[0]];
    }
  }

  /** With the corrected filter, a batch produces a sheet exactly when it
      generated cards, and the sheet holds exactly those cards, in order. */
  lemma CardSheetIsBatchCards(prefix: string, length: int, count: int, draws: seq<seq<Digit>>)
    requires BatchDrawsFit(prefix, length, count, draws)
    ensures var out := BatchOutput(prefix, length, count, draws);
            CardShouldUpload(out) <==>
              LengthInRange(length) && CountInRange(count) && IsDigitString(prefix) && |prefix| < length
    ensures var out := BatchOutput(prefix, length, count, draws);
            CardShouldUpload(out) ==>
              CardSheetData(out) == [[SheetHeader]] + seq(|out|, k requires 0 <= k < |out| => [out[k]])
  {
    var out := BatchOutput(prefix, length, count, draws);
    BatchPolicy(prefix, length, count, draws);
    if LengthInRange(length) && CountInRange(count) && IsDigitString(prefix) && |prefix| < length {
      RowsKeepAll(out, IsDigitString);
    } else {
      assert out == [LengthMessage] || out == [CountMessage] || out == [FailureMessage];
      assert !IsDigitString(out[0]) by {
        assert out[0][0] == 'I' || out[0][0] == 'N' || out[0][0] == 'C';
      }
    }
  }
}
