/** Two string helpers: truncation with a suffix, and the one-line
    "key: value | key: value" summary of a dict. */
module Helpers {

  import opened Wrappers
  import opened Strings

  /** Where Python's `text[:k]` ends for a text of length `len`: a negative
      `k` counts from the end, and both ends are clamped to the text. */
  function SliceEnd(len: nat, k: int): (e: nat)
    ensures e <= len
    ensures 0 <= k <= len ==> e == k
  {
    if k >= 0 then (if k <= len then k else len)
    else if len + k >= 0 then len + k else 0
  }

  /** `truncate_string`: the text itself when it fits, otherwise the text cut
      so that, with the suffix appended, it is `maxLength` long. With a
      `maxLength` below the suffix length the cut point is negative and
      Python counts it from the end of the text. */
  function TruncateString(text: string, maxLength: int, suffix: string): (r: string)
    ensures |text| <= maxLength ==> r == text
    ensures |text| > maxLength ==> EndsWith(r, suffix) && StartsWith(text, r[..|r| - |suffix|])
    ensures maxLength >= |suffix| ==> |r| <= maxLength
    ensures maxLength >= |suffix| && |text| > maxLength ==> |r| == maxLength
    ensures maxLength >= |suffix| ==> (r == text <==> |text| <= maxLength)
  {
    if |text| <= maxLength then text
    else
      var cut := SliceEnd(|text|, maxLength - |suffix|);
      var r := text[..cut] + suffix;
      assert r[..|r| - |suffix|] == text[..cut];
      assert r[|r| - |suffix|..] == suffix;
      r
  }

  /** Truncating a truncated text again with the same arguments changes
      nothing, as long as the limit leaves room for the suffix. */
  lemma TruncateIdempotent(text: string, maxLength: int, suffix: string)
    requires maxLength >= |suffix|
    ensures TruncateString(TruncateString(text, maxLength, suffix), maxLength, suffix) == TruncateString(text, maxLength, suffix)
  {
  }

  /** Below the suffix length the negative cut makes the result longer than
      the limit, and a second truncation cuts into the suffix. */
  lemma TruncateBelowSuffixLength()
    ensures TruncateString("abcdef", 1, "...") == "abcd..."
    ensures TruncateString("abcd...", 1, "...") == "abcd...."
  {
    assert SliceEnd(6, -2) == 4;
    assert "abcdef"[..4] == "abcd";
    assert SliceEnd(7, -2) == 5;
    assert "abcd..."[..5] == "abcd.";
  }

  /** The "k: v" items of `generate_summary`, for the entries whose value is
      not `None`, in insertion order. Values arrive already rendered. */
  function SummaryItems(data: seq<(string, Option<string>)>): (items: seq<string>)
    ensures |items| <= |data|
    ensures |items| == 0 <==> forall i :: 0 <= i < |data| ==> data[i].1.None?
    ensures forall x :: x in items <==> exists i :: 0 <= i < |data| && data[i].1.Some? && x == data[i].0 + ": " + data[i].1.value
  {
    if |data| == 0 then []
    else
      var rest := SummaryItems(data[1..]);
      assert forall i :: 1 <= i < |data| ==> data[i] == data[1..][i - 1];
      if data[0].1.Some? then [data[0].0 + ": " + data[0].1.value] + rest else rest
  }

  /** Items keep the order of the entries: the items of two runs of entries
      are the items of the first followed by those of the second. */
  lemma {:induction false} SummaryItemsAppend(a: seq<(string, Option<string>)>, b: seq<(string, Option<string>)>)
    ensures SummaryItems(a + b) == SummaryItems(a) + SummaryItems(b)
  {
    if |a| > 0 {
      assert (a + b)[1..] == a[1..] + b;
      SummaryItemsAppend(a[1..], b);
    } else {
      assert a + b == b;
    }
  }

  /** `generate_summary`: the items joined with " | "; the empty string when
      every value is `None`. */
  function GenerateSummary(data: seq<(string, Option<string>)>): (summary: string)
    ensures (forall i :: 0 <= i < |data| ==> data[i].1.None?) ==> summary == ""
    ensures |SummaryItems(data)| == 1 ==> summary == SummaryItems(data)[0]
  {
    Join(SummaryItems(data), " | ")
  }

  lemma {:induction false} JoinAppend(x: seq<string>, y: seq<string>, sep: string)
    requires |x| > 0 && |y| > 0
    ensures Join(x + y, sep) == Join(x, sep) + sep + Join(y, sep)
  {
    if |x| == 1 {
      assert (x + y)[1..] == y;
    } else {
      assert (x + y)[1..] == x[1..] + y;
      JoinAppend(x[1..], y, sep);
    }
  }

  /** A summary of two runs of entries, each with some value, is the summary
      of the first, " | ", and the summary of the second. */
  lemma SummaryOfConcatenation(a: seq<(string, Option<string>)>, b: seq<(string, Option<string>)>)
    requires exists i :: 0 <= i < |a| && a[i].1.Some?
    requires exists i :: 0 <= i < |b| && b[i].1.Some?
    ensures GenerateSummary(a + b) == GenerateSummary(a) + " | " + GenerateSummary(b)
  {
    SummaryItemsAppend(a, b);
    JoinAppend(SummaryItems(a), SummaryItems(b), " | ");
  }
}
