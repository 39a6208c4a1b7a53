/**
 * The log processor: a line buffer that is flushed in batches, and the
 * summary of a batch (line counts, error and warning lines, deduplicated
 * errors, masked key issues) that is sent for triage.
 */
module LogProcessing {
  import opened Text
  import opened LogMasking

  const BatchSize := 100
  const BatchTimeMs := 3000
  const KeyLength := 100
  const MaxUniqueErrors := 10

  // ---------------------------------------------------------------------
  // Line classification

  /** `/error|exception|fail/i`: the pattern is ASCII, so ASCII folding is the whole of `i`. */
  predicate IsErrorLine(line: string) {
    var l := LowerAscii(line);
    Contains(l, "error") || Contains(l, "exception") || Contains(l, "fail")
  }

  /** `/warn|warning/i`. */
  predicate IsWarningLine(line: string) {
    var l := LowerAscii(line);
    Contains(l, "warn") || Contains(l, "warning")
  }

  /** The second alternative of the warning pattern adds nothing: every "warning" contains "warn". */
  lemma WarningIsWarn(line: string)
    ensures IsWarningLine(line) <==> Contains(LowerAscii(line), "warn")
  {
    var l := LowerAscii(line);
    if Contains(l, "warning") {
      var i :| 0 <= i <= |l| - 7 && OccursAt(l, "warning", i);
      assert l[i..i + 4] == l[i..i + 7][..4];
      assert OccursAt(l, "warn", i);
    }
  }

  /** `array.filter(keep)`. */
  function Filter(s: seq<string>, keep: string -> bool): (r: seq<string>)
    ensures |r| <= |s|
    ensures forall x :: x in r <==> x in s && keep(x)
  {
    if s == [] then [] else (if keep(s[0]) then [s[0]] else []) + Filter(s[1..], keep)
  }

  /** Filtering a sequence that already satisfies the test keeps all of it. */
  lemma {:induction false} FilterKeepsAll(s: seq<string>, keep: string -> bool)
    requires forall x :: x in s ==> keep(x)
    ensures Filter(s, keep) == s
  {
    if s != [] {
      assert s[0] in s;
      assert forall x :: x in s[1..] ==> x in s;
      FilterKeepsAll(s[1..], keep);
      assert s == [s[0]] + s[1..];
    }
  }

  /** Filtering distributes over concatenation. */
  lemma {:induction false} FilterAppend(a: seq<string>, b: seq<string>, keep: string -> bool)
    ensures Filter(a + b, keep) == Filter(a, keep) + Filter(b, keep)
    decreases |a|
  {
    if a == [] {
      assert a + b == b;
    } else {
      assert (a + b)[0] == a[0] && (a + b)[1..] == a[1..] + b;
      FilterAppend(a[1..], b, keep);
    }
  }

  /** Each value passing the test is kept as many times as it occurs; every other value is dropped. */
  lemma {:induction false} FilterCounts(s: seq<string>, keep: string -> bool)
    ensures forall x :: multiset(Filter(s, keep))[x] == if keep(x) then multiset(s)[x] else 0
    decreases |s|
  {
    if s != [] {
      FilterCounts(s[1..], keep);
      assert s == [s[0]] + s[1..];
    }
  }

  /** The indices of the elements of `s` that pass `keep`. */
  function Positions(s: seq<string>, keep: string -> bool): set<nat> {
    set i: nat | i < |s| && keep(s[i])
  }

  lemma PositionsSnoc(init: seq<string>, last: string, keep: string -> bool)
    ensures Positions(init + [last], keep) == Positions(init, keep) + (if keep(last) then {|init|} else {})
    ensures |init| !in Positions(init, keep)
  {
    var s := init + [last];
    assert forall i :: 0 <= i < |init| ==> s[i] == init[i];
  }

  lemma FilterSingle(x: string, keep: string -> bool)
    ensures Filter([x], keep) == if keep(x) then [x] else []
  {
    assert [x][1..] == [];
  }

  /** The length of a filtered sequence is the number of positions that pass the test. */
  lemma {:induction false} FilterCountsPositions(s: seq<string>, keep: string -> bool)
    ensures |Filter(s, keep)| == |Positions(s, keep)|
    decreases |s|
  {
    if s != [] {
      var init, last := s[..|s| - 1], s[|s| - 1];
      assert s == init + [last];
      FilterAppend(init, [last], keep);
      FilterSingle(last, keep);
      FilterCountsPositions(init, keep);
      PositionsSnoc(init, last, keep);
    }
  }

  predicate NotBlank(line: string) {
    !IsBlank(line)
  }

  /** `logs.split('\n').filter(l => l.trim())`: every non-blank piece, as often as it occurs. */
  function NonBlankLines(logs: string): (lines: seq<string>)
    ensures forall x :: multiset(lines)[x] == if IsBlank(x) then 0 else multiset(Split(logs))[x]
    ensures forall x :: x in lines <==> x in Split(logs) && !IsBlank(x)
    ensures forall x :: x in lines ==> NoLineFeed(x)
  {
    FilterCounts(Split(logs), NotBlank);
    Filter(Split(logs), NotBlank)
  }

  /** Joining lines that are neither blank nor contain line feeds, then reading them back, loses nothing. */
  lemma NonBlankLinesOfJoin(lines: seq<string>)
    requires forall x :: x in lines ==> !IsBlank(x) && NoLineFeed(x)
    ensures NonBlankLines(Join(lines)) == lines
  {
    if lines == [] {
      assert Split(Join(lines)) == [""];
      assert IsBlank("");
    } else {
      SplitJoin(lines);
      FilterKeepsAll(lines, NotBlank);
    }
  }

  // ---------------------------------------------------------------------
  // Error deduplication

  function LeadingDigits(s: string): (n: nat)
    ensures n <= |s|
    ensures forall k :: 0 <= k < n ==> IsDigit(s[k])
    ensures n < |s| ==> !IsDigit(s[n])
  {
    if s == [] || !IsDigit(s[0]) then 0 else 1 + LeadingDigits(s[1..])
  }

  /** `s.replace(/\d+/g, 'N')`. */
  function CollapseDigits(s: string): (r: string)
    ensures |r| <= |s|
    decreases |s|
  {
    if s == [] then []
    else if IsDigit(s[0]) then "N" + CollapseDigits(s[LeadingDigits(s)..])
    else [s[0]] + CollapseDigits(s[1..])
  }

  /** No digit survives the collapse. */
  lemma {:induction false} CollapsedHasNoDigit(s: string)
    ensures forall i :: 0 <= i < |CollapseDigits(s)| ==> !IsDigit(CollapseDigits(s)[i])
    decreases |s|
  {
    if s != [] {
      if IsDigit(s[0]) {
        CollapsedHasNoDigit(s[LeadingDigits(s)..]);
      } else {
        CollapsedHasNoDigit(s[1..]);
      }
    }
  }

  /** `s.substring(0, n)`. */
  function Prefix<T>(s: seq<T>, n: nat): (r: seq<T>)
    ensures |r| == if |s| <= n then |s| else n
    ensures r == s[..|r|]
  {
    if |s| <= n then s else s[..n]
  }

  /** The key two error lines are compared by. */
  function NormalizeKey(error: string): (key: string)
    ensures |key| <= KeyLength
    ensures forall i :: 0 <= i < |key| ==> !IsDigit(key[i])
  {
    CollapsedHasNoDigit(error);
    Prefix(CollapseDigits(error), KeyLength)
  }

  /** Collapsing digit runs distributes over a concatenation that does not split a run. */
  lemma {:induction false} CollapseDigitsAppend(a: string, b: string)
    requires a == [] || b == [] || !IsDigit(a[|a| - 1]) || !IsDigit(b[0])
    ensures CollapseDigits(a + b) == CollapseDigits(a) + CollapseDigits(b)
    decreases |a|
  {
    if a == [] {
      assert a + b == b;
    } else if b == [] {
      assert a + b == a;
    } else {
      AppendStep(a, b);
      CollapseDigitsAppend(a[StepLength(a)..], b);
      AppendCombine(a, b);
    }
  }

  /** One collapse step on `a + b` consumes and emits what it does on `a`. */
  lemma AppendStep(a: string, b: string)
    requires a != [] && b != [] && (!IsDigit(a[|a| - 1]) || !IsDigit(b[0]))
    ensures StepLength(a + b) == StepLength(a) && StepHead(a + b) == StepHead(a)
    ensures (a + b)[StepLength(a)..] == a[StepLength(a)..] + b
    ensures var r := a[StepLength(a)..]; r == [] || !IsDigit(r[|r| - 1]) || !IsDigit(b[0])
  {
    var n := StepLength(a);
    if IsDigit(a[0]) {
      LeadingDigitsAppend(a, b);
    }
    SliceOfAppend(a, b, n);
  }

  /** The step equations and the collapse of the rest give the collapse of the whole. */
  lemma AppendCombine(a: string, b: string)
    requires a != []
    requires StepLength(a + b) == StepLength(a) && StepHead(a + b) == StepHead(a)
    requires (a + b)[StepLength(a)..] == a[StepLength(a)..] + b
    requires CollapseDigits(a[StepLength(a)..] + b) == CollapseDigits(a[StepLength(a)..]) + CollapseDigits(b)
    ensures CollapseDigits(a + b) == CollapseDigits(a) + CollapseDigits(b)
  {
    CollapseStep(a + b);
    CollapseStep(a);
    ConcatAssoc(StepHead(a), CollapseDigits(a[StepLength(a)..]), CollapseDigits(b));
  }

  /** How much of a non-empty text one step of the collapse consumes, and what it emits. */
  function StepLength(s: string): (n: nat)
    requires s != []
    ensures 0 < n <= |s|
  {
    if IsDigit(s[0]) then LeadingDigits(s) else 1
  }

  function StepHead(s: string): string
    requires s != []
  {
    if IsDigit(s[0]) then "N" else [s[0]]
  }

  lemma CollapseStep(s: string)
    requires s != []
    ensures CollapseDigits(s) == StepHead(s) + CollapseDigits(s[StepLength(s)..])
  {
  }

  /** Dropping a prefix of `a` from `a + b`, and the last character of what is left. */
  lemma SliceOfAppend(a: string, b: string, n: nat)
    requires 0 < n <= |a|
    ensures (a + b)[0] == a[0] && (a + b)[n..] == a[n..] + b
    ensures n < |a| ==> a[n..][|a| - n - 1] == a[|a| - 1]
  {
  }

  lemma ConcatAssoc<T>(x: seq<T>, y: seq<T>, z: seq<T>)
    ensures x + (y + z) == (x + y) + z
  {
  }

  /** A digit run of `a` that a non-digit ends is the digit run of `a + b`. */
  lemma LeadingDigitsAppend(a: string, b: string)
    requires LeadingDigits(a) < |a| || b == [] || !IsDigit(b[0])
    ensures LeadingDigits(a + b) == LeadingDigits(a)
  {
    var n := LeadingDigits(a);
    assert forall k :: 0 <= k < n ==> (a + b)[k] == a[k];
    if n < |a| {
      assert (a + b)[n] == a[n];
    } else if b != [] {
      assert (a + b)[n] == b[0];
    }
    RunOfDigits(a + b, n);
  }

  /** The three conditions of `LeadingDigits` determine it. */
  lemma RunOfDigits(s: string, n: nat)
    requires n <= |s|
    requires forall k :: 0 <= k < n ==> IsDigit(s[k])
    requires n < |s| ==> !IsDigit(s[n])
    ensures LeadingDigits(s) == n
  {
  }

  /** A run of digits collapses to a single 'N'. */
  lemma CollapseDigitRun(d: string)
    requires |d| > 0 && forall k :: 0 <= k < |d| ==> IsDigit(d[k])
    ensures CollapseDigits(d) == "N"
  {
    RunOfDigits(d, |d|);
    assert d[|d|..] == [];
  }

  /**
   * Two error lines that differ only in the digits of one number have the
   * same key: "timeout after 30s" and "timeout after 4500s" are one issue.
   */
  lemma NumbersDoNotSplitKeys(p: string, d1: string, d2: string, q: string)
    requires |d1| > 0 && forall k :: 0 <= k < |d1| ==> IsDigit(d1[k])
    requires |d2| > 0 && forall k :: 0 <= k < |d2| ==> IsDigit(d2[k])
    requires p == [] || !IsDigit(p[|p| - 1])
    requires q == [] || !IsDigit(q[0])
    ensures NormalizeKey(p + d1 + q) == NormalizeKey(p + d2 + q)
  {
    CollapseAroundNumber(p, d1, q);
    CollapseAroundNumber(p, d2, q);
  }

  /** A whole number between two texts collapses to one 'N' between their collapses. */
  lemma CollapseAroundNumber(p: string, d: string, q: string)
    requires |d| > 0 && forall k :: 0 <= k < |d| ==> IsDigit(d[k])
    requires p == [] || !IsDigit(p[|p| - 1])
    requires q == [] || !IsDigit(q[0])
    ensures CollapseDigits(p + d + q) == CollapseDigits(p) + ("N" + CollapseDigits(q))
  {
    CollapseDigitRun(d);
    CollapseDigitsAppend(d, q);
    ConcatAssoc(p, d, q);
    CollapseDigitsAppend(p, d + q);
  }

  function KeysOf(errors: seq<string>): set<string> {
    set e | e in errors :: NormalizeKey(e)
  }

  predicate DistinctKeys(errors: seq<string>) {
    forall i, j :: 0 <= i < j < |errors| ==> NormalizeKey(errors[i]) != NormalizeKey(errors[j])
  }

  lemma KeysOfSnoc(errors: seq<string>, e: string)
    ensures KeysOf(errors + [e]) == KeysOf(errors) + {NormalizeKey(e)}
  {
    var both := errors + [e];
    assert forall x :: x in both <==> x in errors || x == e;
  }

  /** The error lines whose key no earlier error line has, in their original order. */
  function FirstOfEachKey(errors: seq<string>): (unique: seq<string>)
    ensures |unique| <= |errors|
    ensures forall x :: x in unique ==> x in errors
    decreases |errors|
  {
    if errors == [] then []
    else
      var init, last := errors[..|errors| - 1], errors[|errors| - 1];
      var kept := FirstOfEachKey(init);
      if NormalizeKey(last) in KeysOf(init) then kept else kept + [last]
  }

  /** The kept lines have pairwise different keys, and every key of the input is among them. */
  lemma {:induction false} FirstOfEachKeyCovers(errors: seq<string>)
    ensures DistinctKeys(FirstOfEachKey(errors))
    ensures KeysOf(FirstOfEachKey(errors)) == KeysOf(errors)
    decreases |errors|
  {
    if errors != [] {
      var init, last := errors[..|errors| - 1], errors[|errors| - 1];
      assert errors == init + [last];
      FirstOfEachKeyCovers(init);
      KeysOfSnoc(init, last);
      var kept := FirstOfEachKey(init);
      if NormalizeKey(last) !in KeysOf(init) {
        KeysOfSnoc(kept, last);
        var u := kept + [last];
        forall i, j | 0 <= i < j < |u|
          ensures NormalizeKey(u[i]) != NormalizeKey(u[j])
        {
          if j == |u| - 1 {
            assert u[i] in kept;
          } else {
            assert u[i] == kept[i] && u[j] == kept[j];
          }
        }
      }
    }
  }

  lemma FirstOfEachKeySnoc(errors: seq<string>, e: string)
    ensures FirstOfEachKey(errors + [e])
      == if NormalizeKey(e) in KeysOf(errors) then FirstOfEachKey(errors) else FirstOfEachKey(errors) + [e]
  {
    var both := errors + [e];
    assert both[..|both| - 1] == errors;
  }

  /** The positions of the lines `FirstOfEachKey` keeps. */
  function FirstPositions(errors: seq<string>): seq<nat>
    decreases |errors|
  {
    if errors == [] then []
    else
      var init := errors[..|errors| - 1];
      var kept := FirstPositions(init);
      if NormalizeKey(errors[|errors| - 1]) in KeysOf(init) then kept else kept + [|errors| - 1]
  }

  /** A line is the first of its key when no line before it has that key. */
  predicate IsFirstOfKey(errors: seq<string>, i: int) {
    0 <= i < |errors| && NormalizeKey(errors[i]) !in KeysOf(errors[..i])
  }

  /**
   * The kept lines are the input's lines at its first-of-key positions, taken
   * in increasing order: an order-preserving subsequence that misses no key.
   */
  lemma {:induction false} FirstOfEachKeyInOrder(errors: seq<string>)
    ensures var unique, idx := FirstOfEachKey(errors), FirstPositions(errors);
      |idx| == |unique|
      && (forall k :: 0 <= k < |idx| ==> IsFirstOfKey(errors, idx[k]) && unique[k] == errors[idx[k]])
      && (forall k, l :: 0 <= k < l < |idx| ==> idx[k] < idx[l])
      && (forall i :: IsFirstOfKey(errors, i) ==> i in idx)
  {
    FirstPositionsPick(errors);
    FirstPositionsIncrease(errors);
    FirstPositionsComplete(errors);
  }

  /** One step of `FirstOfEachKey` and `FirstPositions` together: both grow exactly when the last key is new. */
  lemma FirstStep(errors: seq<string>)
    requires errors != []
    ensures var n := |errors| - 1;
      var isNew := NormalizeKey(errors[n]) !in KeysOf(errors[..n]);
      FirstOfEachKey(errors) == (if isNew then FirstOfEachKey(errors[..n]) + [errors[n]] else FirstOfEachKey(errors[..n]))
      && FirstPositions(errors) == (if isNew then FirstPositions(errors[..n]) + [n] else FirstPositions(errors[..n]))
  {
  }

  lemma {:induction false} FirstPositionsPick(errors: seq<string>)
    ensures var unique, idx := FirstOfEachKey(errors), FirstPositions(errors);
      |idx| == |unique|
      && forall k :: 0 <= k < |idx| ==> IsFirstOfKey(errors, idx[k]) && unique[k] == errors[idx[k]]
    decreases |errors|
  {
    if errors != [] {
      var n := |errors| - 1;
      var init := errors[..n];
      FirstPositionsPick(init);
      FirstPositionsIncrease(init);
      FirstStep(errors);
      var unique, idx := FirstOfEachKey(errors), FirstPositions(errors);
      var unique0, idx0 := FirstOfEachKey(init), FirstPositions(init);
      forall k | 0 <= k < |idx|
        ensures IsFirstOfKey(errors, idx[k]) && unique[k] == errors[idx[k]]
      {
        if k < |idx0| {
          assert idx[k] == idx0[k] && unique[k] == unique0[k];
          FirstOfKeySnocAt(errors, idx0[k]);
        } else {
          assert idx[k] == n && unique[k] == errors[n];
        }
      }
    }
  }

  lemma {:induction false} FirstPositionsIncrease(errors: seq<string>)
    ensures var idx := FirstPositions(errors);
      forall k :: 0 <= k < |idx| ==> idx[k] < |errors| && forall l :: k < l < |idx| ==> idx[k] < idx[l]
    decreases |errors|
  {
    if errors != [] {
      var n := |errors| - 1;
      FirstPositionsIncrease(errors[..n]);
      FirstStep(errors);
      var idx, idx0 := FirstPositions(errors), FirstPositions(errors[..n]);
      assert forall k :: 0 <= k < |idx0| ==> idx[k] == idx0[k];
    }
  }

  lemma {:induction false} FirstPositionsComplete(errors: seq<string>)
    ensures forall i :: IsFirstOfKey(errors, i) ==> i in FirstPositions(errors)
    decreases |errors|
  {
    if errors != [] {
      var n := |errors| - 1;
      FirstPositionsComplete(errors[..n]);
      FirstStep(errors);
      forall i | IsFirstOfKey(errors, i)
        ensures i in FirstPositions(errors)
      {
        if i < n {
          FirstOfKeySnocAt(errors, i);
        }
      }
    }
  }

  /** Before the last line, being first of a key does not depend on the last line. */
  lemma FirstOfKeySnocAt(errors: seq<string>, i: nat)
    requires i < |errors| - 1
    ensures var n := |errors| - 1;
      errors[i] == errors[..n][i] && (IsFirstOfKey(errors, i) <==> IsFirstOfKey(errors[..n], i))
  {
    assert errors[..i] == errors[..|errors| - 1][..i];
  }

  /** One turn of the deduplication loop keeps its `seen` map and its output in step with the specification. */
  lemma DedupStep(errors: seq<string>, i: nat, seen: map<string, nat>, kept: seq<string>, key: string, count: nat)
    requires i < |errors|
    requires seen.Keys == KeysOf(errors[..i]) && forall k :: k in seen ==> seen[k] > 0
    requires kept == FirstOfEachKey(errors[..i])
    requires key == NormalizeKey(errors[i]) && count == (if key in seen then seen[key] else 0)
    ensures seen[key := count + 1].Keys == KeysOf(errors[..i + 1])
    ensures (if count == 0 then kept + [errors[i]] else kept) == FirstOfEachKey(errors[..i + 1])
  {
    assert errors[..i + 1] == errors[..i] + [errors[i]];
    KeysOfSnoc(errors[..i], errors[i]);
    FirstOfEachKeySnoc(errors[..i], errors[i]);
  }

  /** An error line whose key is new at its position is kept. */
  lemma {:induction false} FirstOccurrenceKept(errors: seq<string>, i: nat)
    requires i < |errors| && NormalizeKey(errors[i]) !in KeysOf(errors[..i])
    ensures errors[i] in FirstOfEachKey(errors)
    decreases |errors|
  {
    var init := errors[..|errors| - 1];
    if i < |errors| - 1 {
      assert init[..i] == errors[..i];
      FirstOccurrenceKept(init, i);
    }
  }

  /** `deduplicateErrors`: the first error of each key, at most ten of them. */
  function Dedup(errors: seq<string>): seq<string> {
    Prefix(FirstOfEachKey(errors), MaxUniqueErrors)
  }

  lemma {:induction false} DistinctKeysCount(unique: seq<string>)
    requires DistinctKeys(unique)
    ensures |KeysOf(unique)| == |unique|
    decreases |unique|
  {
    if unique != [] {
      var init, last := unique[..|unique| - 1], unique[|unique| - 1];
      assert unique == init + [last];
      DistinctKeysCount(init);
      KeysOfSnoc(init, last);
    }
  }

  /** One issue per distinct key, up to ten. */
  lemma DedupSize(errors: seq<string>)
    ensures var d := Dedup(errors);
      |d| == if |KeysOf(errors)| <= MaxUniqueErrors then |KeysOf(errors)| else MaxUniqueErrors
  {
    FirstOfEachKeyCovers(errors);
    DistinctKeysCount(FirstOfEachKey(errors));
  }

  /** The same error repeated any number of times is listed once. */
  lemma {:induction false} RepeatedErrorListedOnce(errors: seq<string>)
    requires |errors| > 0
    requires forall i :: 0 <= i < |errors| ==> NormalizeKey(errors[i]) == NormalizeKey(errors[0])
    ensures Dedup(errors) == [errors[0]]
    decreases |errors|
  {
    var u := FirstOfEachKey(errors);
    assert KeysOf(errors) == {NormalizeKey(errors[0])};
    FirstOfEachKeyCovers(errors);
    DistinctKeysCount(u);
    assert |u| == 1;
    FirstOccurrenceKept(errors, 0);
  }

  // ---------------------------------------------------------------------
  // The summary

  function Header(total: nat, errors: nat, warnings: nat): string {
    "Total lines: " + NatToString(total) + "\nErrors: " + NatToString(errors)
    + "\nWarnings: " + NatToString(warnings) + "\n\nKey Issues:\n"
  }

  /** The deduplicated errors, then every warning, joined and masked. */
  function KeyIssues(lines: seq<string>): string {
    var errors := Filter(lines, IsErrorLine);
    var warnings := Filter(lines, IsWarningLine);
    MaskSensitiveData(Join(Dedup(errors) + warnings))
  }

  /** `summarize(logs)`. */
  function SummaryOf(logs: string): string {
    var lines := NonBlankLines(logs);
    Header(|lines|, |Filter(lines, IsErrorLine)|, |Filter(lines, IsWarningLine)|) + KeyIssues(lines)
  }

  /** The key issues sent out hold no e-mail address, no long key and no bearer token. */
  lemma KeyIssuesRedacted(lines: seq<string>)
    ensures var m := KeyIssues(lines);
      NoEmail(m) && NoKey(m, false) && MaskBearer(m) == m
  {
    MaskSensitiveDataLeavesNothing(Join(Dedup(Filter(lines, IsErrorLine)) + Filter(lines, IsWarningLine)));
  }

  /**
   * The header counts the non-blank lines of the batch, then the error lines
   * and the warning lines among them, each by position: a repeated line is
   * counted every time and a line that is both an error and a warning is
   * counted in both.
   */
  lemma SummaryCounts(logs: string)
    ensures var lines := NonBlankLines(logs);
      StartsWith(SummaryOf(logs), Header(|Positions(Split(logs), NotBlank)|,
        |Positions(lines, IsErrorLine)|, |Positions(lines, IsWarningLine)|))
  {
    var lines := NonBlankLines(logs);
    FilterCountsPositions(Split(logs), NotBlank);
    FilterCountsPositions(lines, IsErrorLine);
    FilterCountsPositions(lines, IsWarningLine);
  }

  /**
   * The error count in the header counts error lines before deduplication:
   * the errors listed under the key issues are error lines of the batch, at
   * most ten of them and never more than the header's count.
   */
  lemma ErrorCountBeforeDedup(logs: string)
    ensures var lines := NonBlankLines(logs);
      var listed := Dedup(Filter(lines, IsErrorLine));
      |listed| <= MaxUniqueErrors && |listed| <= |Positions(lines, IsErrorLine)|
      && forall x :: x in listed ==> x in lines && IsErrorLine(x)
  {
    FilterCountsPositions(NonBlankLines(logs), IsErrorLine);
  }

  predicate IsErrorOrWarningLine(line: string) {
    IsErrorLine(line) || IsWarningLine(line)
  }

  predicate IsErrorAndWarningLine(line: string) {
    IsErrorLine(line) && IsWarningLine(line)
  }

  /** The error and warning counts add up to the lines that are either, plus those that are both. */
  lemma CountsOverlap(lines: seq<string>)
    ensures |Positions(lines, IsErrorLine)| + |Positions(lines, IsWarningLine)|
      == |Positions(lines, IsErrorOrWarningLine)| + |Positions(lines, IsErrorAndWarningLine)|
  {
    var e, w := Positions(lines, IsErrorLine), Positions(lines, IsWarningLine);
    assert e + w == Positions(lines, IsErrorOrWarningLine);
    assert e * w == Positions(lines, IsErrorAndWarningLine);
  }

  /** An empty batch gives zero counts and an empty key-issue section. */
  lemma EmptyBatchSummary()
    ensures SummaryOf("") == Header(0, 0, 0)
  {
    assert NonBlankLines("") == [] by {
      assert Split("") == [""];
      assert IsBlank("");
    }
    assert KeyIssues([]) == "" by {
      assert Join([]) == "";
      assert MaskSensitiveData("") == "";
    }
  }

  // ---------------------------------------------------------------------
  // The processor

  class LogProcessor {
    var buffer: seq<string>
    var lastBatchTime: int

    constructor(now: int)
      ensures buffer == [] && lastBatchTime == now
    {
      buffer := [];
      lastBatchTime := now;
    }

    method AddLine(line: string)
      modifies this
      ensures buffer == old(buffer) + [line]
      ensures lastBatchTime == old(lastBatchTime)
    {
      buffer := buffer + [line];
    }

    /** A batch is due once 3000 ms have passed since the last one, or 100 lines are waiting. */
    predicate ShouldBatch(now: int)
      reads this
      ensures ShouldBatch(now) <==> now - lastBatchTime >= BatchTimeMs || |buffer| >= BatchSize
    {
      now - lastBatchTime >= BatchTimeMs || |buffer| >= BatchSize
    }

    predicate HasData()
      reads this
      ensures HasData() <==> buffer != []
    {
      |buffer| > 0
    }

    /** Takes the whole buffer as one newline-joined text and restarts the batch clock. */
    method GetBatch(now: int) returns (batch: string)
      modifies this
      ensures batch == Join(old(buffer))
      ensures buffer == [] && lastBatchTime == now
      ensures (forall x :: x in old(buffer) ==> !IsBlank(x) && NoLineFeed(x))
        ==> NonBlankLines(batch) == old(buffer)
    {
      batch := Join(buffer);
      if forall x :: x in buffer ==> !IsBlank(x) && NoLineFeed(x) {
        NonBlankLinesOfJoin(buffer);
      }
      buffer := [];
      lastBatchTime := now;
    }

    /** `deduplicateErrors`, with its `seen` map of key counts. */
    method DeduplicateErrors(errors: seq<string>) returns (unique: seq<string>)
      ensures unique == Dedup(errors)
    {
      var seen: map<string, nat> := map[];
      var kept: seq<string> := [];
      for i := 0 to |errors|
        invariant seen.Keys == KeysOf(errors[..i])
        invariant forall k :: k in seen ==> seen[k] > 0
        invariant kept == FirstOfEachKey(errors[..i])
      {
        var normalized := NormalizeKey(errors[i]);
        var count := if normalized in seen then seen[normalized] else 0;
        DedupStep(errors, i, seen, kept, normalized, count);
        if count == 0 {
          kept := kept + [errors[i]];
        }
        seen := seen[normalized := count + 1];
      }
      assert errors[..|errors|] == errors;
      unique := Prefix(kept, MaxUniqueErrors);
    }

    /** `summarize`: counts, deduplicated errors and warnings, masked. */
    method Summarize(logs: string) returns (summary: string)
      ensures summary == SummaryOf(logs)
    {
      var lines := NonBlankLines(logs);
      var errors := Filter(lines, IsErrorLine);
      var warnings := Filter(lines, IsWarningLine);
      var unique := DeduplicateErrors(errors);
      var masked := MaskSensitiveData(Join(unique + warnings));
      summary := Header(|lines|, |errors|, |warnings|) + masked;
    }
  }
}
