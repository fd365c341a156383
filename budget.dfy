/**
 * Budget extraction and budget filtering of the job processor
 * (src/services/jobProcessor.js `extractBudget`, `filterJobsByBudget` and
 * the budget breakdown that `processJobs` logs).
 *
 * The text fallback applies the pattern
 *   (\d{1,3}(?:,\d{3})*)\s*(?:บาท|THB|baht)   with the `i` flag
 * and takes the first match. `MatchEndAt` decides the match at one start
 * position directly; `PatternAt` is the plain reading of the pattern as a
 * regular language, and `MatchEndAtSound`/`MatchEndAtComplete` show the two agree and that every
 * way of matching at a position captures the same text, so the order in
 * which the regular-expression engine backtracks cannot change the result.
 */
module Budget {
  import opened Common
  import opened Text
  import opened Fastwork

  /** One `,\d{3}` group starts at `j`. */
  predicate GroupAt(s: string, j: nat)
  {
    j + 4 <= |s| && s[j] == ',' && IsDigit(s[j + 1]) && IsDigit(s[j + 2]) && IsDigit(s[j + 3])
  }

  /** Groups follow one another from `j` up to `e`. */
  predicate GroupsSpan(s: string, j: nat, e: nat)
    decreases e - j
  {
    j == e || (j < e && GroupAt(s, j) && GroupsSpan(s, j + 4, e))
  }

  /** Where the greedy `(?:,\d{3})*` starting at `j` stops. */
  function GroupsEnd(s: string, j: nat): (e: nat)
    requires j <= |s|
    ensures j <= e <= |s|
    ensures !GroupAt(s, e)
    ensures GroupsSpan(s, j, e)
    ensures forall k :: j <= k < e ==> IsDigit(s[k]) || s[k] == ','
    decreases |s| - j
  {
    if GroupAt(s, j) then GroupsEnd(s, j + 4) else j
  }

  /** Where the greedy `\s*` starting at `j` stops. */
  function SpacesEnd(s: string, j: nat): (e: nat)
    requires j <= |s|
    ensures j <= e <= |s|
    ensures forall k :: j <= k < e ==> IsJsSpace(s[k])
    ensures e == |s| || !IsJsSpace(s[e])
    decreases |s| - j
  {
    if j < |s| && IsJsSpace(s[j]) then SpacesEnd(s, j + 1) else j
  }

  /**
   * One of the currency words starts at `j`. Without the `u` flag the `i`
   * flag folds case only between ASCII letters, and the Thai word has no case.
   */
  predicate CurrencyAt(s: string, j: nat)
  {
    FoldedAt(s, j, "บาท") || FoldedAt(s, j, "thb") || FoldedAt(s, j, "baht")
  }

  /** The lower-case word `w` occurs at `j` up to ASCII case. */
  predicate FoldedAt(s: string, j: nat, w: string)
    decreases |w|
  {
    w == [] || (j < |s| && LowerChar(s[j]) == w[0] && FoldedAt(s, j + 1, w[1..]))
  }

  /** The end of the captured number when the pattern matches at `i`. */
  function MatchEndAt(s: string, i: nat): (r: Option<nat>)
    requires i <= |s|
    ensures r.Some? ==> i < r.value <= |s|
  {
    var d := DigitRun(s, i);
    if 1 <= d <= 3 then
      var e := GroupsEnd(s, i + d);
      if CurrencyAt(s, SpacesEnd(s, e)) then Some(e) else None
    else None
  }

  /** A captured number is made of digits and commas only. */
  lemma MatchEndAtChars(s: string, i: nat)
    requires i <= |s| && MatchEndAt(s, i).Some?
    ensures forall k :: i <= k < MatchEndAt(s, i).value ==> IsDigit(s[k]) || s[k] == ','
  {
  }

  /** `s[i..j]` are all digits. */
  predicate DigitsIn(s: string, i: nat, j: nat)
  {
    i <= j <= |s| && forall k :: i <= k < j ==> IsDigit(s[k])
  }

  /** `s[i..j]` are all `\s` characters. */
  predicate SpacesIn(s: string, i: nat, j: nat)
  {
    i <= j <= |s| && forall k :: i <= k < j ==> IsJsSpace(s[k])
  }

  /**
   * The pattern read as a regular language: one to three digits from `i`
   * to `a`, groups from `a` to `e`, spaces from `e` to `f`, then a currency
   * word at `f`; the capture is `s[i..e]`.
   */
  predicate PatternAt(s: string, i: nat, a: nat, e: nat, f: nat)
  {
    && i + 1 <= a <= i + 3
    && DigitsIn(s, i, a)
    && GroupsSpan(s, a, e)
    && SpacesIn(s, e, f)
    && CurrencyAt(s, f)
  }

  /** A currency word starts with a character that is no digit, comma or space. */
  lemma CurrencyStart(s: string, j: nat)
    requires CurrencyAt(s, j)
    ensures j < |s| && !IsDigit(s[j]) && s[j] != ',' && !IsJsSpace(s[j])
  {
    if FoldedAt(s, j, "บาท") {
      assert LowerChar(s[j + 0]) == "บาท"[0];
    } else if FoldedAt(s, j, "thb") {
      assert LowerChar(s[j + 0]) == "thb"[0];
    } else {
      assert LowerChar(s[j + 0]) == "baht"[0];
    }
  }

  lemma {:induction false} GroupsSpanFacts(s: string, j: nat, e: nat)
    requires j <= |s| && GroupsSpan(s, j, e)
    ensures j <= e <= |s|
    ensures j < e ==> s[j] == ','
    decreases e - j
  {
    if j < e {
      GroupsSpanFacts(s, j + 4, e);
    }
  }

  /** The greedy group loop stops at `e` when the groups reach `e` and no group follows. */
  lemma {:induction false} GroupsEndExact(s: string, j: nat, e: nat)
    requires j <= |s| && GroupsSpan(s, j, e)
    requires !GroupAt(s, e)
    ensures GroupsEnd(s, j) == e
    decreases e - j
  {
    GroupsSpanFacts(s, j, e);
    if j < e {
      GroupsEndExact(s, j + 4, e);
    }
  }

  lemma {:induction false} SpacesEndExact(s: string, j: nat, f: nat)
    requires SpacesIn(s, j, f)
    requires f == |s| || !IsJsSpace(s[f])
    ensures SpacesEnd(s, j) == f
    decreases f - j
  {
    if j < f {
      SpacesEndExact(s, j + 1, f);
    }
  }

  lemma {:induction false} DigitRunExact(s: string, i: nat, a: nat)
    requires DigitsIn(s, i, a)
    requires a == |s| || !IsDigit(s[a])
    ensures DigitRun(s, i) == a - i
    decreases a - i
  {
    if i < a {
      DigitRunExact(s, i + 1, a);
    }
  }

  /** Every match `MatchEndAt` reports is a match of the pattern. */
  lemma MatchEndAtSound(s: string, i: nat)
    requires i <= |s| && MatchEndAt(s, i).Some?
    ensures exists a: nat, f: nat :: PatternAt(s, i, a, MatchEndAt(s, i).value, f)
  {
    var a := i + DigitRun(s, i);
    var e := GroupsEnd(s, a);
    var f := SpacesEnd(s, e);
    assert PatternAt(s, i, a, e, f);
  }

  /**
   * Every way the pattern matches at `i` is found by `MatchEndAt` and
   * captures the same number, whatever order the engine backtracks in.
   */
  lemma MatchEndAtComplete(s: string, i: nat, a: nat, e: nat, f: nat)
    requires PatternAt(s, i, a, e, f)
    ensures MatchEndAt(s, i) == Some(e)
  {
    CurrencyStart(s, f);
    GroupsSpanFacts(s, a, e);
    assert !IsDigit(s[e]) && s[e] != ',' by {
      if e < f { assert IsJsSpace(s[e]); }
    }
    assert !IsDigit(s[a]) by {
      if a < e { assert s[a] == ','; }
    }
    DigitRunExact(s, i, a);
    GroupsEndExact(s, a, e);
    SpacesEndExact(s, e, f);
  }


  /** `MatchEndAt` at every position of `s`. */
  function MatchAt(s: string): nat -> Option<nat>
  {
    (k: nat) => if k <= |s| then MatchEndAt(s, k) else None
  }

  /** The leftmost match starting at or after `start`: its start and the end of its capture. */
  function FirstMatch(s: string, start: nat): (r: Option<(nat, nat)>)
    requires start <= |s|
    ensures r.Some? ==> start <= r.value.0 <= |s| && MatchEndAt(s, r.value.0) == Some(r.value.1)
  {
    FirstSome(MatchAt(s), start, |s|)
  }

  /** No match starts before the one `FirstMatch` reports, and none at all when it reports none. */
  lemma FirstMatchLeftmost(s: string, start: nat)
    requires start <= |s|
    ensures var r := FirstMatch(s, start);
      && (r.Some? ==> forall k :: start <= k < r.value.0 ==> MatchEndAt(s, k).None?)
      && (r.None? ==> forall k :: start <= k <= |s| ==> MatchEndAt(s, k).None?)
  {
    FirstSomeLeftmost(MatchAt(s), start, |s|);
    forall k | start <= k <= |s|
      ensures MatchAt(s)(k) == MatchEndAt(s, k)
    {
    }
  }

  /** The capture of a match, without its commas, is all digits. */
  lemma CaptureDigits(text: string, i: nat, e: nat)
    requires i <= |text| && MatchEndAt(text, i) == Some(e)
    ensures AllDigits(RemoveCommas(text[i..e]))
  {
    var digits := RemoveCommas(text[i..e]);
    MatchEndAtChars(text, i);
    RemoveCommasMembers(text[i..e]);
    forall k | 0 <= k < |digits| ensures IsDigit(digits[k]) {
      assert digits[k] in digits;
      var j :| 0 <= j < |text[i..e]| && text[i..e][j] == digits[k];
    }
  }

  /** `parseInt(match[1].replace(/,/g, ''))` of a text, or `None` when the pattern does not occur. */
  function TextBudget(text: string): (r: Option<nat>)
    ensures r.None? <==> forall k :: 0 <= k <= |text| ==> MatchEndAt(text, k).None?
  {
    FirstMatchLeftmost(text, 0);
    var m := FirstMatch(text, 0);
    if m.None? then None
    else
      var (i, e) := m.value;
      var digits := RemoveCommas(text[i..e]);
      CaptureDigits(text, i, e);
      Some(DigitsValue(digits))
  }

  /**
   * `JobProcessor.extractBudget`: the first of `budget`, `budget_min`,
   * `price` that is a non-zero number, else the number written in
   * `budget_text` (or, when that is empty, the description), else 0.
   */
  function ExtractBudget(job: Listing): (b: int)
    ensures NonZeroNumber(job.budget).Some? ==> b == job.budget.n
    ensures NonZeroNumber(job.budget).None? && NonZeroNumber(job.budgetMin).Some? ==> b == job.budgetMin.n
    ensures (NonZeroNumber(job.budget).None? && NonZeroNumber(job.budgetMin).None? && NonZeroNumber(job.price).Some?)
              ==> b == job.price.n
    ensures (NonZeroNumber(job.budget).None? && NonZeroNumber(job.budgetMin).None? && NonZeroNumber(job.price).None?)
              ==> b >= 0 && b == (if TextBudget(BudgetText(job)).Some? then TextBudget(BudgetText(job)).value else 0)
  {
    var fromBudget := NonZeroNumber(job.budget);
    var fromMin := NonZeroNumber(job.budgetMin);
    var fromPrice := NonZeroNumber(job.price);
    if fromBudget.Some? then fromBudget.value
    else if fromMin.Some? then fromMin.value
    else if fromPrice.Some? then fromPrice.value
    else
      var t := TextBudget(BudgetText(job));
      if t.Some? then t.value else 0
  }

  /** `job.budget_text || job.description || ''`. */
  function BudgetText(job: Listing): (t: string)
    ensures t == job.budgetText || t == job.description
    ensures t == "" <==> job.budgetText == "" && job.description == ""
  {
    if job.budgetText != "" then job.budgetText else job.description
  }

  /** In `12,500 THB` the leftmost match starts at the first digit and captures `12,500`. */
  lemma GroupedMatch(s: string)
    requires s == "12,500 THB"
    ensures FirstMatch(s, 0) == Some((0, 6))
  {
    assert DigitsIn(s, 0, 2);
    assert GroupsSpan(s, 2, 6) by { assert GroupAt(s, 2); }
    assert SpacesIn(s, 6, 7);
    assert FoldedAt(s, 7, "thb");
    MatchEndAtComplete(s, 0, 2, 6, 7);
  }

  /** The amount `TextBudget` reads is that of the leftmost match, with its commas removed. */
  lemma TextBudgetOfMatch(text: string, i: nat, e: nat)
    requires FirstMatch(text, 0) == Some((i, e))
    ensures i < e <= |text| && AllDigits(RemoveCommas(text[i..e]))
    ensures TextBudget(text) == Some(DigitsValue(RemoveCommas(text[i..e])))
  {
    CaptureDigits(text, i, e);
  }

  /** `12,500` without its comma is `12500`. */
  lemma UngroupedForm()
    ensures RemoveCommas("12,500") == "12500"
  {
  }

  /** `12500` reads as 12500. */
  lemma ValueOfGrouped()
    ensures AllDigits("12500") && DigitsValue("12500") == 12500
  {
    assert DigitsValue("1") == 1;
    assert "12"[..1] == "1";
    assert DigitsValue("12") == 12;
    assert "125"[..2] == "12";
    assert DigitsValue("125") == 125;
    assert "1250"[..3] == "125";
    assert DigitsValue("1250") == 1250;
    assert "12500"[..4] == "1250";
  }

  /** A grouped amount followed by a currency word is read in full. */
  lemma GroupedAmountIsRead(s: string)
    requires s == "12,500 THB"
    ensures TextBudget(s) == Some(12500)
  {
    GroupedMatch(s);
    TextBudgetOfMatch(s, 0, 6);
    assert s[0..6] == "12,500";
    UngroupedForm();
    ValueOfGrouped();
  }

  /**
   * The pattern has no left boundary, so in an ungrouped amount of five
   * digits the leftmost match is the one on its last three digits.
   */
  lemma UngroupedMatch(s: string)
    requires |s| == 9 && DigitsIn(s, 0, 5) && s[5] == ' '
    requires FoldedAt(s, 6, "thb") || FoldedAt(s, 6, "บาท")
    ensures FirstMatch(s, 0) == Some((2, 5))
  {
    DigitRunExact(s, 0, 5);
    DigitRunExact(s, 1, 5);
    assert DigitsIn(s, 2, 5) && SpacesIn(s, 5, 6);
    MatchEndAtComplete(s, 2, 5, 5, 6);
    var f := MatchAt(s);
    assert f(2) == Some(5);
    assert FirstSome(f, 2, 9) == Some((2, 5));
    assert f(1).None?;
    assert FirstSome(f, 1, 9) == Some((2, 5));
    assert f(0).None?;
  }

  /** `345` reads as 345. */
  lemma ValueOf345()
    ensures RemoveCommas("345") == "345" && AllDigits("345") && DigitsValue("345") == 345
  {
    assert DigitsValue("3") == 3;
    assert "34"[..1] == "3";
    assert DigitsValue("34") == 34;
    assert "345"[..2] == "34";
  }

  /** `000` reads as 0. */
  lemma ValueOf000()
    ensures RemoveCommas("000") == "000" && AllDigits("000") && DigitsValue("000") == 0
  {
    assert DigitsValue("0") == 0;
    assert "00"[..1] == "0";
    assert DigitsValue("00") == 0;
    assert "000"[..2] == "00";
  }

  /** An ungrouped amount of more than three digits is not read as a whole: `12345 THB` gives 345. */
  lemma UngroupedAmountLosesLeadingDigits(s: string)
    requires s == "12345 THB"
    ensures TextBudget(s) == Some(345)
  {
    assert DigitsIn(s, 0, 5) && FoldedAt(s, 6, "thb");
    UngroupedMatch(s);
    TextBudgetOfMatch(s, 2, 5);
    assert s[2..5] == "345";
    ValueOf345();
  }

  /** A Thai amount written without grouping, `15000 บาท`, gives 0 and so counts as no budget. */
  lemma UngroupedThaiAmountReadsAsZero(t: string)
    requires t == "15000 บาท"
    ensures TextBudget(t) == Some(0)
  {
    assert DigitsIn(t, 0, 5) && FoldedAt(t, 6, "บาท");
    UngroupedMatch(t);
    TextBudgetOfMatch(t, 2, 5);
    assert t[2..5] == "000";
    ValueOf000();
  }

  /** `JobProcessor.filterJobsByBudget`: everything when the minimum is 0, else the jobs at or above it. */
  function FilterJobsByBudget(jobs: seq<Listing>, minBudget: int): (r: seq<Listing>)
    ensures minBudget == 0 ==> r == jobs
    ensures minBudget != 0 ==> r == AtLeast(jobs, minBudget)
  {
    if minBudget == 0 then jobs else AtLeast(jobs, minBudget)
  }

  /** The jobs whose extracted budget is at least `minBudget`, in order. */
  function AtLeast(jobs: seq<Listing>, minBudget: int): (r: seq<Listing>)
    ensures |r| <= |jobs|
    ensures forall j :: j in r ==> j in jobs && ExtractBudget(j) >= minBudget
    ensures forall i :: 0 <= i < |jobs| && ExtractBudget(jobs[i]) >= minBudget ==> jobs[i] in r
  {
    if jobs == [] then []
    else
      var init, last := jobs[..|jobs| - 1], jobs[|jobs| - 1];
      assert forall i :: 0 <= i < |jobs| - 1 ==> jobs[i] == init[i];
      AtLeast(init, minBudget) + (if ExtractBudget(last) >= minBudget then [last] else [])
  }

  /** The budget filter distributes over concatenation, so the kept jobs stay in their order. */
  lemma {:induction false} AtLeastAppend(a: seq<Listing>, b: seq<Listing>, minBudget: int)
    ensures AtLeast(a + b, minBudget) == AtLeast(a, minBudget) + AtLeast(b, minBudget)
    decreases |b|
  {
    if b == [] {
      assert a + b == a;
    } else {
      var binit, last := b[..|b| - 1], b[|b| - 1];
      assert (a + b)[..|a + b| - 1] == a + binit && (a + b)[|a + b| - 1] == last;
      AtLeastAppend(a, binit, minBudget);
    }
  }

  /** A single job is kept exactly when its budget reaches the minimum. */
  lemma AtLeastSingle(j: Listing, minBudget: int)
    ensures AtLeast([j], minBudget) == if ExtractBudget(j) >= minBudget then [j] else []
  {
    assert [j][..0] == [];
  }

  /** The budget filter keeps every qualifying job as often as it occurs, and no other job. */
  lemma {:induction false} AtLeastMultiset(jobs: seq<Listing>, minBudget: int, x: Listing)
    ensures multiset(AtLeast(jobs, minBudget))[x] == if ExtractBudget(x) >= minBudget then multiset(jobs)[x] else 0
  {
    if jobs != [] {
      var init, last := jobs[..|jobs| - 1], jobs[|jobs| - 1];
      assert jobs == init + [last];
      AtLeastMultiset(init, minBudget, x);
    }
  }

  /** The high/low/none budget breakdown logged by `processJobs`. */
  datatype Breakdown = Breakdown(high: nat, low: nat, none: nat)

  /** The `reduce` that classifies each fetched job by its extracted budget. */
  function BudgetCounts(jobs: seq<Listing>, minBudget: int): (c: Breakdown)
  {
    if jobs == [] then Breakdown(0, 0, 0)
    else
      var acc := BudgetCounts(jobs[..|jobs| - 1], minBudget);
      var b := ExtractBudget(jobs[|jobs| - 1]);
      if b >= minBudget then acc.(high := acc.high + 1)
      else if b > 0 then acc.(low := acc.low + 1)
      else acc.(none := acc.none + 1)
  }

  /**
   * Every fetched job lands in exactly one bucket, and the high bucket
   * counts exactly the jobs at or above the minimum, which with a non-zero
   * minimum are the jobs the filter keeps.
   */
  lemma {:induction false} BudgetCountsPartition(jobs: seq<Listing>, minBudget: int)
    ensures BudgetCounts(jobs, minBudget).high + BudgetCounts(jobs, minBudget).low
            + BudgetCounts(jobs, minBudget).none == |jobs|
    ensures BudgetCounts(jobs, minBudget).high == |AtLeast(jobs, minBudget)|
    ensures minBudget != 0 ==> BudgetCounts(jobs, minBudget).high == |FilterJobsByBudget(jobs, minBudget)|
  {
    if jobs != [] {
      BudgetCountsPartition(jobs[..|jobs| - 1], minBudget);
    }
  }
}
