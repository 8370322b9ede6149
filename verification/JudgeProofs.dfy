/** What the judge's one-pass fold computes, stated without the fold. */
module JudgeProofs {
  import opened Basics
  import opened Text
  import opened Judge

  /** The candidates not rejected on their own, under their keys and in order. */
  function Survivors(items: seq<Item>, changed: ChangedLines): seq<Entry> {
    if items == [] then []
    else
      var e := Survivor(items[|items| - 1], changed);
      Survivors(items[..|items| - 1], changed) + (if e.Some? then [e.value] else [])
  }

  // ------------------------------------------------------------ the group-by

  ghost predicate HasKey(entries: seq<Entry>, key: string) { exists i :: 0 <= i < |entries| && entries[i].key == key }

  /** The keys in order of first appearance. */
  function Keys(all: seq<Entry>): seq<string> {
    if all == [] then []
    else
      var keys, key := Keys(all[..|all| - 1]), all[|all| - 1].key;
      if key in keys then keys else keys + [key]
  }

  /** The entry that wins for a key. */
  function Best(all: seq<Entry>, key: string): Option<Entry> {
    if all == [] then None
    else
      var best, e := Best(all[..|all| - 1], key), all[|all| - 1];
      if e.key == key && (best.Some? ==> Stronger(e.finding, best.value.finding)) then Some(e) else best
  }

  /** One winner per key. */
  ghost predicate IsGroupBy(all: seq<Entry>, accepted: seq<Entry>) {
    |accepted| == |Keys(all)| && forall i :: 0 <= i < |accepted| ==> Best(all, Keys(all)[i]) == Some(accepted[i])
  }

  /** `i` is the first of the strongest entries with its key. */
  ghost predicate LeftmostStrongest(all: seq<Entry>, i: nat) {
    && i < |all|
    && forall j :: 0 <= j < |all| && all[j].key == all[i].key ==>
         !Stronger(all[j].finding, all[i].finding) && (j < i ==> Stronger(all[i].finding, all[j].finding))
  }

  /** The winner of a key is the first of the strongest entries with that key. */
  lemma {:induction false} BestIsLeftmostStrongest(all: seq<Entry>, key: string) returns (i: nat)
    ensures Best(all, key).None? ==> !HasKey(all, key)
    ensures Best(all, key).Some? ==> LeftmostStrongest(all, i) && all[i].key == key && Best(all, key).value == all[i]
  {
    if all == [] {
      i := 0;
    } else {
      var n := |all| - 1;
      var rest, e := all[..n], all[n];
      i := BestIsLeftmostStrongest(rest, key);
      assert forall j :: 0 <= j < n ==> rest[j] == all[j];
      if Best(rest, key).None? {
        assert forall j :: 0 <= j < n ==> all[j].key != key by {
          forall j | 0 <= j < n ensures all[j].key != key {
            assert rest[j].key == all[j].key;
          }
        }
        i := n;
      } else if e.key == key && Stronger(e.finding, rest[i].finding) {
        forall j | 0 <= j < n && all[j].key == key ensures Stronger(e.finding, all[j].finding) {
          assert !Stronger(rest[j].finding, rest[i].finding);
        }
        i := n;
      } else {
        assert all[i] == rest[i];
      }
    }
  }

  lemma HasKeyStep(all: seq<Entry>, key: string)
    requires all != []
    ensures HasKey(all, key) <==> HasKey(all[..|all| - 1], key) || key == all[|all| - 1].key
  {
    var n := |all| - 1;
    var rest := all[..n];
    if HasKey(all, key) {
      var i :| 0 <= i < |all| && all[i].key == key;
      assert i < n ==> rest[i].key == key;
    }
    if HasKey(rest, key) {
      var i :| 0 <= i < |rest| && rest[i].key == key;
      assert all[i].key == key;
    }
  }

  lemma IndexOfKeyStep(all: seq<Entry>, key: string)
    requires all != [] && HasKey(all[..|all| - 1], key)
    ensures IndexOfKey(all, key) == IndexOfKey(all[..|all| - 1], key) < |all| - 1
  {
    var rest := all[..|all| - 1];
    var i := IndexOfKey(rest, key);
    assert forall j :: 0 <= j < |rest| ==> rest[j] == all[j];
    assert i < |rest| && all[i].key == key;
  }

  lemma NewKeyIndex(all: seq<Entry>)
    requires all != [] && !HasKey(all[..|all| - 1], all[|all| - 1].key)
    ensures IndexOfKey(all, all[|all| - 1].key) == |all| - 1
  {
    var rest := all[..|all| - 1];
    forall j | 0 <= j < |rest| ensures all[j].key != all[|all| - 1].key {
      assert rest[j] == all[j];
    }
  }

  lemma {:induction false} KeysAre(all: seq<Entry>)
    ensures Distinct(Keys(all))
    ensures forall key :: key in Keys(all) <==> HasKey(all, key)
    ensures forall a, b :: 0 <= a < b < |Keys(all)| ==> IndexOfKey(all, Keys(all)[a]) < IndexOfKey(all, Keys(all)[b])
  {
    if all != [] {
      var n := |all| - 1;
      var rest, e := all[..n], all[n];
      KeysAre(rest);
      forall key ensures HasKey(all, key) <==> HasKey(rest, key) || key == e.key {
        HasKeyStep(all, key);
      }
      forall key | key in Keys(rest) ensures IndexOfKey(all, key) == IndexOfKey(rest, key) < n {
        IndexOfKeyStep(all, key);
      }
      if e.key !in Keys(rest) {
        NewKeyIndex(all);
      }
    }
  }

  lemma GroupByPositions(all: seq<Entry>, accepted: seq<Entry>)
    requires IsGroupBy(all, accepted)
    ensures forall i :: 0 <= i < |accepted| ==> accepted[i].key == Keys(all)[i]
  {
    forall i | 0 <= i < |accepted| ensures accepted[i].key == Keys(all)[i] {
      var k := BestIsLeftmostStrongest(all, Keys(all)[i]);
    }
  }

  lemma AcceptedIffUsed(all: seq<Entry>, accepted: seq<Entry>, key: string)
    requires IsGroupBy(all, accepted)
    ensures IndexOfKey(accepted, key) < |accepted| <==> HasKey(all, key)
    ensures HasKey(all, key) ==> Some(accepted[IndexOfKey(accepted, key)]) == Best(all, key)
  {
    GroupByPositions(all, accepted);
    KeysAre(all);
    var i := IndexOfKey(accepted, key);
    if i < |accepted| {
      assert Keys(all)[i] == key;
    }
    if HasKey(all, key) {
      var k :| 0 <= k < |Keys(all)| && Keys(all)[k] == key;
      assert accepted[k].key == key;
    }
  }

  /** Merging one more entry keeps the group-by. */
  lemma MergeKeepsGroupBy(all: seq<Entry>, v: Verdict, e: Entry, c: Candidate)
    requires IsGroupBy(all, v.accepted)
    ensures IsGroupBy(all + [e], Merge(v, e, c).accepted)
  {
    var next := all + [e];
    assert next[..|all|] == all && next[|all|] == e;
    GroupByPositions(all, v.accepted);
    KeysAre(all);
    AcceptedIffUsed(all, v.accepted, e.key);
    var merged := Merge(v, e, c).accepted;
    var keys := Keys(all);
    forall i | 0 <= i < |merged| ensures Best(next, Keys(next)[i]) == Some(merged[i]) {
      if i < |keys| {
        assert Keys(next)[i] == keys[i];
      } else {
        var k := BestIsLeftmostStrongest(all, e.key);
        assert Keys(next)[i] == e.key;
      }
    }
  }

  ghost predicate SomeRaises(items: seq<Item>, changed: ChangedLines) {
    exists i :: 0 <= i < |items| && Raises(items[i], changed)
  }

  lemma SomeRaisesStep(items: seq<Item>, changed: ChangedLines)
    requires items != []
    ensures SomeRaises(items, changed) <==>
      SomeRaises(items[..|items| - 1], changed) || Raises(items[|items| - 1], changed)
  {
    var rest := items[..|items| - 1];
    if i :| 0 <= i < |rest| && Raises(rest[i], changed) {
      assert items[i] == rest[i];
    }
    if i :| 0 <= i < |items| && Raises(items[i], changed) {
      assert i < |rest| ==> rest[i] == items[i];
    }
  }

  /**
     The fold raises exactly if some candidate that is not rejected has an unknown severity.
     Otherwise it accepts, per key, the first of the strongest candidates, keys in order of first
     appearance, and accounts for every candidate once.
   */
  lemma {:induction false} FoldIsGroupBy(items: seq<Item>, changed: ChangedLines)
    ensures Judged(items, changed).Raised? <==> SomeRaises(items, changed)
    ensures Judged(items, changed).Ok? ==>
      var v := Judged(items, changed).value;
      IsGroupBy(Survivors(items, changed), v.accepted) && |v.accepted| + |v.rejected| == |items|
  {
    if items != [] {
      var rest, item := items[..|items| - 1], items[|items| - 1];
      FoldIsGroupBy(rest, changed);
      SomeRaisesStep(items, changed);
      if Judged(rest, changed).Ok? {
        var e := Survivor(item, changed);
        if e.Some? {
          MergeKeepsGroupBy(Survivors(rest, changed), Judged(rest, changed).value, e.value, item.candidate);
        } else {
          assert Survivors(items, changed) == Survivors(rest, changed);
        }
      }
    }
  }

  lemma {:induction false} SurvivorsAre(items: seq<Item>, changed: ChangedLines, e: Entry)
    ensures e in Survivors(items, changed) <==> exists i :: 0 <= i < |items| && Survivor(items[i], changed) == Some(e)
  {
    if items != [] {
      var rest := items[..|items| - 1];
      SurvivorsAre(rest, changed, e);
      assert forall i :: 0 <= i < |rest| ==> items[i] == rest[i];
      if Survivor(items[|rest|], changed) != Some(e) {
        if i :| 0 <= i < |items| && Survivor(items[i], changed) == Some(e) {
          assert rest[i] == items[i];
        }
      }
    }
  }

  // ------------------------------------------------------ in terms of the report

  /** The severities from the gravest to the slightest. */
  const BY_GRAVITY: seq<Severity> := [Fatal, High, Medium, Low, Info]

  ghost predicate Graver(s: Severity, t: Severity) {
    exists a, b :: 0 <= a < b < |BY_GRAVITY| && BY_GRAVITY[a] == s && BY_GRAVITY[b] == t
  }

  /** At least as good a finding to keep; a better one if `strictly`. */
  ghost predicate Outdoes(f: Finding, g: Finding, strictly: bool) {
    || Graver(f.severity, g.severity)
    || (f.severity == g.severity && (if strictly then f.confidence > g.confidence else f.confidence >= g.confidence))
  }

  lemma StrongerIsGraverOrSurer(f: Finding, g: Finding)
    ensures Stronger(f, g) <==> Outdoes(f, g, true)
    ensures !Stronger(g, f) <==> Outdoes(f, g, false)
  {
    GraverMeans(f.severity, g.severity);
    GraverMeans(g.severity, f.severity);
  }

  lemma GraverMeans(s: Severity, t: Severity)
    ensures Graver(s, t) <==> SeverityRank(s) > SeverityRank(t)
  {
    if SeverityRank(s) > SeverityRank(t) {
      var a, b := 5 - SeverityRank(s), 5 - SeverityRank(t);
      assert BY_GRAVITY[a] == s && BY_GRAVITY[b] == t;
    }
  }

  /** Position `w` holds the candidate that wins the key: no other is stronger, and earlier ones are weaker. */
  ghost predicate WinsAt(items: seq<Item>, changed: ChangedLines, e: Entry, w: nat) {
    && w < |items| && Survivor(items[w], changed) == Some(e)
    && forall j, f :: 0 <= j < |items| && Survivor(items[j], changed) == Some(f) && f.key == e.key ==>
         !Stronger(f.finding, e.finding) && (j < w ==> Stronger(e.finding, f.finding))
  }

  /** No candidate has the key. */
  ghost predicate Unclaimed(items: seq<Item>, changed: ChangedLines, key: string) {
    forall j, f :: 0 <= j < |items| && Survivor(items[j], changed) == Some(f) ==> f.key != key
  }

  ghost predicate Won(items: seq<Item>, changed: ChangedLines, key: string, best: Option<Entry>, w: nat) {
    match best
    case None => Unclaimed(items, changed, key)
    case Some(e) => e.key == key && WinsAt(items, changed, e, w)
  }

  /** The better of the winner so far and the next survivor. */
  function Better(best: Option<Entry>, last: Option<Entry>, key: string): Option<Entry> {
    if last.None? || last.value.key != key then best
    else if best.None? || Stronger(last.value.finding, best.value.finding) then last
    else best
  }

  lemma WinsLast(items: seq<Item>, item: Item, changed: ChangedLines, key: string, best: Option<Entry>, w: nat)
    requires Won(items, changed, key, best, w)
    requires Better(best, Survivor(item, changed), key) == Survivor(item, changed) != best
    ensures Won(items + [item], changed, key, Survivor(item, changed), |items|)
  {
    var all, e := items + [item], Survivor(item, changed).value;
    forall j, f | 0 <= j < |all| && Survivor(all[j], changed) == Some(f) && f.key == e.key
      ensures !Stronger(f.finding, e.finding) && (j < |items| ==> Stronger(e.finding, f.finding))
    {
      if j < |items| {
        assert all[j] == items[j];
      }
    }
  }

  lemma WinsStill(items: seq<Item>, item: Item, changed: ChangedLines, key: string, best: Option<Entry>, w: nat)
    requires Won(items, changed, key, best, w) && Better(best, Survivor(item, changed), key) == best
    ensures Won(items + [item], changed, key, best, w)
  {
  }

  lemma WonStep(items: seq<Item>, item: Item, changed: ChangedLines, key: string, w: nat) returns (w': nat)
    requires Won(items, changed, key, Best(Survivors(items, changed), key), w)
    ensures Won(items + [item], changed, key, Best(Survivors(items + [item], changed), key), w')
  {
    var best := Best(Survivors(items, changed), key);
    BestStep(items, item, changed, key);
    if Better(best, Survivor(item, changed), key) == best {
      WinsStill(items, item, changed, key, best, w);
      w' := w;
    } else {
      WinsLast(items, item, changed, key, best, w);
      w' := |items|;
    }
  }

  lemma {:induction false} BestWinsAt(items: seq<Item>, changed: ChangedLines, key: string) returns (w: nat)
    ensures Won(items, changed, key, Best(Survivors(items, changed), key), w)
  {
    w := 0;
    if items != [] {
      var rest, item := items[..|items| - 1], items[|items| - 1];
      w := BestWinsAt(rest, changed, key);
      w := WonStep(rest, item, changed, key, w);
      assert rest + [item] == items;
    }
  }

  lemma BestStep(items: seq<Item>, item: Item, changed: ChangedLines, key: string)
    ensures Best(Survivors(items + [item], changed), key)
      == Better(Best(Survivors(items, changed), key), Survivor(item, changed), key)
  {
    var before, last := Survivors(items, changed), Survivor(item, changed);
    assert (items + [item])[..|items|] == items;
    if last.Some? {
      assert Survivors(items + [item], changed) == before + [last.value];
      assert (before + [last.value])[..|before|] == before;
    } else {
      assert Survivors(items + [item], changed) == before + [] == before;
    }
  }

  /**
     What is accepted under a key is the first of the gravest reports with that key, and among equally
     grave ones of those with the greatest confidence.
   */
  lemma AcceptedIsGravestThenSurest(items: seq<Item>, changed: ChangedLines, e: Entry) returns (w: nat)
    requires Judged(items, changed).Ok? && e in Judged(items, changed).value.accepted
    ensures w < |items| && Survivor(items[w], changed) == Some(e)
    ensures forall j, f :: 0 <= j < |items| && Survivor(items[j], changed) == Some(f) && f.key == e.key ==>
      Outdoes(e.finding, f.finding, j < w)
  {
    FoldIsGroupBy(items, changed);
    var accepted, all := Judged(items, changed).value.accepted, Survivors(items, changed);
    var k :| 0 <= k < |accepted| && accepted[k] == e;
    GroupByPositions(all, accepted);
    w := BestWinsAt(items, changed, Keys(all)[k]);
    forall j, f | 0 <= j < |items| && Survivor(items[j], changed) == Some(f) && f.key == e.key
      ensures Outdoes(e.finding, f.finding, j < w)
    {
      StrongerIsGraverOrSurer(e.finding, f.finding);
    }
  }

  /** The words that stand for a severity. */
  function SeverityNames(s: Severity): set<string> {
    match s
    case Fatal => {"fatal", "critical"}
    case High => {"high"}
    case Medium => {"medium"}
    case Low => {"low"}
    case Info => {"info"}
  }

  predicate HasItsTexts(c: Candidate) { c.title != "" && c.detail != "" && c.file != "" }

  /** A confidence that is not given is full. */
  predicate Confident(c: Candidate) { c.confidence.Some? ==> c.confidence.value >= 0.3 }

  /** Without a line, or in a file whose changed lines are not known, any place will do. */
  predicate OnChangedLine(c: Candidate, changed: ChangedLines) {
    c.line.Some? && c.file in changed ==> c.line.value in changed[c.file]
  }

  ghost predicate NamesATest(file: string) {
    var path := Lower(file);
    || (exists i :: PartAt(path, "/test/", i))
    || (|path| >= 7 && path[|path| - 7..] == "test.py")
  }

  predicate PartAt(s: string, part: string, i: int) { 0 <= i <= |s| - |part| && s[i..i + |part|] == part }

  lemma {:induction false} ContainsMeans(s: string, part: string)
    ensures Contains(s, part) <==> exists i :: PartAt(s, part, i)
  {
    if part <= s {
      assert PartAt(s, part, 0);
    } else if s != [] {
      ContainsMeans(s[1..], part);
      if i :| PartAt(s[1..], part, i) {
        assert PartAt(s, part, i + 1);
      }
      assert PartAt(s, part, 0) ==> part <= s;
      if i :| PartAt(s, part, i) {
        assert s[i..i + |part|] == s[1..][i - 1..i - 1 + |part|];
        assert PartAt(s[1..], part, i - 1);
      }
    }
  }

  /** The reason is the first of the four that applies. */
  lemma RejectionMeans(c: Candidate, changed: ChangedLines)
    ensures var reason := RejectionReason(c, changed);
      && (reason == Some(SchemaIncomplete) <==> !HasItsTexts(c))
      && (reason == Some(LowConfidence) <==> HasItsTexts(c) && !Confident(c))
      && (reason == Some(NeedsEvidence) <==> HasItsTexts(c) && Confident(c) && !OnChangedLine(c, changed))
      && (reason == Some(TestOnly) <==>
            HasItsTexts(c) && Confident(c) && OnChangedLine(c, changed) && NamesATest(c.file))
      && reason != Some(DuplicateMerged)
  {
    var path := Lower(c.file);
    ContainsMeans(path, "/test/");
    if EndsWith(path, "_test.py") {
      assert path[|path| - 7..] == path[|path| - 8..][1..];
      assert "_test.py"[1..] == "test.py";
    }
  }

  lemma SeverityIsNamed(text: string, s: Severity)
    ensures NormalizeSeverity(text) == Ok(s) <==> Lower(Strip(text)) in SeverityNames(s)
  {
  }

  /** What a report contributes: itself, under the severity that its word names. */
  lemma SurvivorIsReported(item: Item, changed: ChangedLines, e: Entry)
    ensures var c, f := item.candidate, e.finding;
      Survivor(item, changed) == Some(e) <==>
        && RejectionReason(c, changed).None?
        && Lower(Strip(if c.severity == "" then "medium" else c.severity)) in SeverityNames(f.severity)
        && f.file == c.file && f.line == c.line && f.title == c.title && f.detail == c.detail
        && f.suggestion == c.suggestion && f.source == item.source
        && f.confidence == (if c.confidence.Some? then c.confidence.value else 1.0)
        && e.key == f.file + (":" + (LineText(f.line) + (":" + Lower(Strip(f.title)))))
  {
    SeverityIsNamed(if item.candidate.severity == "" then "medium" else item.candidate.severity, e.finding.severity);
  }

  /** Letter case and surrounding blanks do not matter. */
  lemma WrittenSeverities()
    ensures NormalizeSeverity("critical") == Ok(Fatal) && NormalizeSeverity("HIGH ") == Ok(High)
  {
  }

  /** Nothing is accepted exactly if every candidate is rejected on its own account. */
  lemma NothingAcceptedIffAllRejected(items: seq<Item>, changed: ChangedLines)
    requires Judged(items, changed).Ok?
    ensures Judged(items, changed).value.accepted == [] <==>
            forall i :: 0 <= i < |items| ==> RejectionReason(items[i].candidate, changed).Some?
  {
    FoldIsGroupBy(items, changed);
    var all := Survivors(items, changed);
    KeysAre(all);
    if all == [] {
      forall i | 0 <= i < |items| ensures RejectionReason(items[i].candidate, changed).Some? {
        assert !Raises(items[i], changed);
        if e :| Survivor(items[i], changed) == Some(e) {
          SurvivorsAre(items, changed, e);
        }
      }
    } else {
      assert HasKey(all, all[0].key);
      SurvivorsAre(items, changed, all[0]);
    }
  }

  // ------------------------------------------------------------------ rejections

  /** Candidate `i` becomes a rejection entry: on its own account, or because its key is taken. */
  ghost predicate IsRejected(items: seq<Item>, changed: ChangedLines, i: nat)
    requires i < |items|
  {
    || RejectionReason(items[i].candidate, changed).Some?
    || (Survivor(items[i], changed).Some?
      && HasKey(Survivors(items[..i], changed), Survivor(items[i], changed).value.key))
  }

  /** Entry `r` records candidate `i`. */
  ghost predicate Records(items: seq<Item>, changed: ChangedLines, r: Rejection, i: nat) {
    && i < |items|
    && IsRejected(items, changed, i)
    && r.candidate == items[i].candidate
    && var own := RejectionReason(items[i].candidate, changed);
    if own.Some? then r.reason == own.value && r.source == items[i].source
    else r.reason == DuplicateMerged && LosesAt(items, changed, r.source, i)
  }

  /** The source is that of the weaker of candidate `i` and the winner so far; of the former at equal rank. */
  ghost predicate LosesAt(items: seq<Item>, changed: ChangedLines, source: Source, i: nat)
    requires i < |items|
  {
    var e := Survivor(items[i], changed);
    e.Some?
    && var best := Best(Survivors(items[..i], changed), e.value.key);
       best.Some?
       && source == (if Stronger(e.value.finding, best.value.finding) then best.value.finding.source
                     else items[i].source)
  }

  lemma RejectionStep(items: seq<Item>, changed: ChangedLines) returns (r: Rejection)
    requires items != [] && Judged(items, changed).Ok?
    ensures var n := |items| - 1; var before := Judged(items[..n], changed);
      && before.Ok?
      && if IsRejected(items, changed, n)
         then Judged(items, changed).value.rejected == before.value.rejected + [r] && Records(items, changed, r, n)
         else Judged(items, changed).value.rejected == before.value.rejected
  {
    var n := |items| - 1;
    var rest, e := items[..n], Survivor(items[n], changed);
    FoldIsGroupBy(rest, changed);
    if e.Some? {
      AcceptedIffUsed(Survivors(rest, changed), Judged(rest, changed).value.accepted, e.value.key);
      EntryForIsBest(Survivors(rest, changed), Judged(rest, changed).value.accepted, e.value.key);
    }
    var rejected := Judged(items, changed).value.rejected;
    if IsRejected(items, changed, n) {
      r := rejected[|rejected| - 1];
    } else {
      r := Rejection(items[n].source, DuplicateMerged, items[n].candidate);
    }
  }

  ghost predicate RecordsAt(items: seq<Item>, changed: ChangedLines, rejected: seq<Rejection>, at: seq<nat>) {
    && |at| == |rejected|
    && (forall k :: 0 <= k < |at| ==> Records(items, changed, rejected[k], at[k]))
    && (forall k, m :: 0 <= k < m < |at| ==> at[k] < at[m])
    && (forall i :: 0 <= i < |items| && IsRejected(items, changed, i) ==> i in at)
  }

  lemma RecordsKept(items: seq<Item>, changed: ChangedLines, rejected: seq<Rejection>, at: seq<nat>)
    requires items != [] && RecordsAt(items[..|items| - 1], changed, rejected, at)
    ensures forall k :: 0 <= k < |at| ==> Records(items, changed, rejected[k], at[k]) && at[k] < |items| - 1
    ensures forall i :: 0 <= i < |items| - 1 && IsRejected(items, changed, i) ==> i in at
  {
    var n := |items| - 1;
    var rest := items[..n];
    forall k | 0 <= k < |at| ensures Records(items, changed, rejected[k], at[k]) && at[k] < n {
      assert Records(rest, changed, rejected[k], at[k]);
      assert rest[..at[k]] == items[..at[k]];
    }
    forall i | 0 <= i < n && IsRejected(items, changed, i) ensures i in at {
      assert rest[..i] == items[..i] && rest[i] == items[i];
      assert IsRejected(rest, changed, i);
    }
  }

  lemma RecordsExtend(items: seq<Item>, changed: ChangedLines, rejected: seq<Rejection>, at: seq<nat>, r: Rejection)
    requires items != [] && RecordsAt(items[..|items| - 1], changed, rejected, at)
    requires IsRejected(items, changed, |items| - 1) && Records(items, changed, r, |items| - 1)
    ensures RecordsAt(items, changed, rejected + [r], at + [|items| - 1])
  {
    RecordsKept(items, changed, rejected, at);
    var n := |items| - 1;
    var rs, ps := rejected + [r], at + [n];
    forall k | 0 <= k < |ps| ensures Records(items, changed, rs[k], ps[k]) {
      if k < |at| {
        assert rs[k] == rejected[k] && ps[k] == at[k];
      }
    }
    forall i | 0 <= i < |items| && IsRejected(items, changed, i) ensures i in ps {
      if i == n {
        assert ps[|at|] == n;
      }
    }
  }

  /**
     The rejection entries follow the input: the k-th entry records the candidate at position
     `at[k]`, positions increase, and every rejected candidate is among them. An entry for a
     duplicate carries the incoming candidate, whichever of the two findings won.
   */
  lemma {:induction false} RejectionsFollowInput(items: seq<Item>, changed: ChangedLines) returns (at: seq<nat>)
    requires Judged(items, changed).Ok?
    ensures RecordsAt(items, changed, Judged(items, changed).value.rejected, at)
  {
    if items == [] {
      at := [];
    } else {
      var n := |items| - 1;
      var r := RejectionStep(items, changed);
      at := RejectionsFollowInput(items[..n], changed);
      var rejected := Judged(items[..n], changed).value.rejected;
      if IsRejected(items, changed, n) {
        RecordsExtend(items, changed, rejected, at, r);
        at := at + [n];
      } else {
        RecordsKept(items, changed, rejected, at);
      }
    }
  }

  // ---------------------------------------------------------------- permutations

  /** Two results for a key agree in rank. */
  predicate Equivalent(x: Option<Entry>, y: Option<Entry>) {
    (x.Some? <==> y.Some?) && (x.Some? ==> SameRank(x.value.finding, y.value.finding))
  }

  lemma BestDependsOnElements(xs: seq<Entry>, ys: seq<Entry>, key: string)
    requires forall e :: e in xs <==> e in ys
    ensures Equivalent(Best(xs, key), Best(ys, key))
  {
    BestIsStrongest(xs, key);
    BestIsStrongest(ys, key);
  }

  lemma BestIsStrongest(all: seq<Entry>, key: string)
    ensures Best(all, key).Some? ==> Best(all, key).value in all && Best(all, key).value.key == key
    ensures forall e ::
      e in all && e.key == key ==> Best(all, key).Some? && !Stronger(e.finding, Best(all, key).value.finding)
  {
    var i := BestIsLeftmostStrongest(all, key);
    forall e | e in all && e.key == key
      ensures Best(all, key).Some? && !Stronger(e.finding, Best(all, key).value.finding)
    {
      var j :| 0 <= j < |all| && all[j] == e;
      assert HasKey(all, all[j].key);
    }
  }

  /**
     Under any permutation of the candidates the fold raises or not alike, and the rank that wins a
     key is the same; in particular the accepted keys, and whether anything is accepted.
   */
  lemma PermutationKeepsWinners(xs: seq<Item>, ys: seq<Item>, changed: ChangedLines)
    requires multiset(xs) == multiset(ys)
    ensures Judged(xs, changed).Raised? == Judged(ys, changed).Raised?
    ensures Judged(xs, changed).Ok? ==>
      var u, v := Judged(xs, changed).value.accepted, Judged(ys, changed).value.accepted;
      && (forall key :: Equivalent(EntryFor(u, key), EntryFor(v, key)))
      && (u == [] <==> v == [])
  {
    FoldIsGroupBy(xs, changed);
    FoldIsGroupBy(ys, changed);
    SameElements(xs, ys);
    SameRaising(xs, ys, changed);
    SameRaising(ys, xs, changed);
    if Judged(xs, changed).Ok? {
      var u, v := Judged(xs, changed).value.accepted, Judged(ys, changed).value.accepted;
      var p, q := Survivors(xs, changed), Survivors(ys, changed);
      SameSurvivors(xs, ys, changed);
      forall key ensures Equivalent(EntryFor(u, key), EntryFor(v, key)) {
        EntryForIsBest(p, u, key);
        EntryForIsBest(q, v, key);
        BestDependsOnElements(p, q, key);
      }
      if u != [] {
        assert EntryFor(u, u[0].key).Some?;
      }
      if v != [] {
        assert EntryFor(v, v[0].key).Some?;
      }
    }
  }

  /** The accepted entry under a key. */
  function EntryFor(accepted: seq<Entry>, key: string): Option<Entry> {
    var i := IndexOfKey(accepted, key);
    if i < |accepted| then Some(accepted[i]) else None
  }

  lemma EntryForIsBest(all: seq<Entry>, accepted: seq<Entry>, key: string)
    requires IsGroupBy(all, accepted)
    ensures EntryFor(accepted, key) == Best(all, key)
  {
    AcceptedIffUsed(all, accepted, key);
    var i := BestIsLeftmostStrongest(all, key);
    if Best(all, key).Some? {
      assert all[i].key == key;
    }
  }

  lemma SameElements(xs: seq<Item>, ys: seq<Item>)
    requires multiset(xs) == multiset(ys)
    ensures forall x :: x in xs <==> x in ys
  {
    forall x ensures x in xs <==> x in ys {
      assert x in xs <==> x in multiset(xs);
      assert x in ys <==> x in multiset(ys);
    }
  }

  lemma SameRaising(xs: seq<Item>, ys: seq<Item>, changed: ChangedLines)
    requires forall x :: x in xs <==> x in ys
    ensures SomeRaises(xs, changed) ==> SomeRaises(ys, changed)
  {
    if i :| 0 <= i < |xs| && Raises(xs[i], changed) {
      assert xs[i] in ys;
      var j :| 0 <= j < |ys| && ys[j] == xs[i];
      assert Raises(ys[j], changed);
    }
  }

  lemma SurvivorsIncluded(xs: seq<Item>, ys: seq<Item>, changed: ChangedLines, e: Entry)
    requires (forall x :: x in xs <==> x in ys) && e in Survivors(xs, changed)
    ensures e in Survivors(ys, changed)
  {
    SurvivorsAre(xs, changed, e);
    SurvivorsAre(ys, changed, e);
    var i :| 0 <= i < |xs| && Survivor(xs[i], changed) == Some(e);
    assert xs[i] in ys;
    var j :| 0 <= j < |ys| && ys[j] == xs[i];
  }

  lemma SameSurvivors(xs: seq<Item>, ys: seq<Item>, changed: ChangedLines)
    requires multiset(xs) == multiset(ys)
    ensures forall e :: e in Survivors(xs, changed) <==> e in Survivors(ys, changed)
  {
    SameElements(xs, ys);
    forall e ensures e in Survivors(xs, changed) <==> e in Survivors(ys, changed) {
      if e in Survivors(xs, changed) {
        SurvivorsIncluded(xs, ys, changed, e);
      }
      if e in Survivors(ys, changed) {
        SurvivorsIncluded(ys, xs, changed, e);
      }
    }
  }

  // ------------------------------------------------------------------------- keys

  /** The position of the first colon, or the length if there is none. */
  function ColonAt(s: string): (n: nat)
    ensures n <= |s| && ':' !in s[..n] && (n < |s| ==> s[n] == ':') && (n == |s| <==> ':' !in s)
  {
    if s == "" || s[0] == ':' then 0 else 1 + ColonAt(s[1..])
  }

  lemma {:induction false} ColonAfter(a: string, x: string)
    requires ':' !in a
    ensures ColonAt(a + (":" + x)) == |a|
  {
    if a == "" {
      assert a + (":" + x) == ":" + x;
    } else {
      assert (a + (":" + x))[1..] == a[1..] + (":" + x);
      ColonAfter(a[1..], x);
    }
  }

  /** Only the first colon counts. */
  lemma FirstColon(a: string, x: string, b: string, y: string)
    requires ':' !in a && ':' !in b && a + (":" + x) == b + (":" + y)
    ensures a == b && x == y
  {
    ColonAfter(a, x);
    ColonAfter(b, y);
    SameCut(a, x, b, y);
  }

  lemma SameCut(a: string, x: string, b: string, y: string)
    requires |a| == |b| && a + (":" + x) == b + (":" + y)
    ensures a == b && x == y
  {
    var s, n := a + (":" + x), |a|;
    assert s[..n] == a && s[..n] == b;
    assert s[n + 1..] == x && s[n + 1..] == y;
  }

  lemma LaterCut(a: string, x: string, b: string, y: string) returns (rest: string)
    requires |a| < |b| && a + (":" + x) == b + (":" + y)
    ensures b == a + (":" + rest) && x == rest + (":" + y)
  {
    var s, n := a + (":" + x), |a|;
    rest := b[n + 1..];
    assert s[..n] == a && s[..n] == b[..n];
    assert s[n] == ':' && s[n] == b[n];
    assert s[n + 1..] == x && s[n + 1..] == rest + (":" + y);
  }

  lemma Reassociate(a: string, rest: string, y: string)
    ensures (a + (":" + rest)) + (":" + y) == a + (":" + (rest + (":" + y)))
  {
  }

  lemma LineTextHasNoColon(line: Option<int>)
    ensures ':' !in LineText(line)
  {
  }

  lemma LineTextNamesTheLine(a: Option<int>, b: Option<int>)
    requires LineText(a) == LineText(b)
    ensures a == b
  {
    LineTextStart(a);
    LineTextStart(b);
    var m, n := if a.Some? then a.value else 0, if b.Some? then b.value else 0;
    assert m < 0 ==> LineText(a)[1..] == NatText(-m);
    assert n < 0 ==> LineText(b)[1..] == NatText(-n);
    NatTextRoundTrip(if m < 0 then -m else m);
    NatTextRoundTrip(if n < 0 then -n else n);
  }

  lemma LineTextStart(line: Option<int>)
    ensures LineText(line) != ""
    ensures line.None? <==> LineText(line)[0] == 'N'
    ensures line.Some? && line.value < 0 <==> LineText(line)[0] == '-'
  {
  }

  /** The same file, line and title, up to case and surrounding blanks. */
  predicate SamePlace(f: Finding, g: Finding) { f.file == g.file && f.line == g.line && PlainTitle(f) == PlainTitle(g) }

  /** The path of `g` goes on, after the path of `f` and a colon, with `rest`. */
  predicate Continues(f: Finding, g: Finding, rest: string) { g.file == f.file + (":" + rest) }

  /**
     The path of `g` goes on with the line of `f`, alone or before another colon, and the title of
     `f` holds what is left of the path of `g`, its line and its title.
   */
  ghost predicate Swallows(f: Finding, g: Finding) {
    || (Continues(f, g, LineText(f.line)) && PlainTitle(f) == Tail(g))
    || exists m: string :: Continues(f, g, LineText(f.line) + (":" + m)) && PlainTitle(f) == m + (":" + Tail(g))
  }

  /** Exactly when two findings share a key. */
  lemma KeysEqualIff(f: Finding, g: Finding)
    ensures DedupeKey(f) == DedupeKey(g) <==> SamePlace(f, g) || Swallows(f, g) || Swallows(g, f)
  {
    if DedupeKey(f) == DedupeKey(g) {
      if |f.file| < |g.file| {
        LongerPathSwallows(f, g);
      } else if |g.file| < |f.file| {
        LongerPathSwallows(g, f);
      } else {
        SamePathSamePlace(f, g);
      }
    }
    if Swallows(f, g) {
      SwallowedKeysAreEqual(f, g);
    }
    if Swallows(g, f) {
      SwallowedKeysAreEqual(g, f);
    }
  }

  /** The key after the path and its colon. */
  function Tail(f: Finding): string { LineText(f.line) + (":" + PlainTitle(f)) }

  lemma SamePathSamePlace(f: Finding, g: Finding)
    requires DedupeKey(f) == DedupeKey(g) && |f.file| == |g.file|
    ensures SamePlace(f, g)
  {
    SameCut(f.file, Tail(f), g.file, Tail(g));
    LineTextHasNoColon(f.line);
    LineTextHasNoColon(g.line);
    FirstColon(LineText(f.line), PlainTitle(f), LineText(g.line), PlainTitle(g));
    LineTextNamesTheLine(f.line, g.line);
  }

  lemma LongerPathSwallows(f: Finding, g: Finding)
    requires DedupeKey(f) == DedupeKey(g) && |f.file| < |g.file|
    ensures Swallows(f, g)
  {
    var rest := LaterCut(f.file, Tail(f), g.file, Tail(g));
    assert Continues(f, g, rest);
    LineTextHasNoColon(f.line);
    if ':' !in rest {
      FirstColon(LineText(f.line), PlainTitle(f), rest, Tail(g));
    } else {
      var a, m := AtFirstColon(rest);
      Reassociate(a, m, Tail(g));
      FirstColon(LineText(f.line), PlainTitle(f), a, m + (":" + Tail(g)));
      assert Continues(f, g, LineText(f.line) + (":" + m));
    }
  }

  lemma {:induction false} AtFirstColon(s: string) returns (a: string, m: string)
    requires ':' in s
    ensures ':' !in a && s == a + (":" + m)
  {
    if s[0] == ':' {
      a, m := "", s[1..];
    } else {
      assert s == [s[0]] + s[1..];
      a, m := AtFirstColon(s[1..]);
      a := [s[0]] + a;
    }
  }

  lemma SwallowedKeysAreEqual(f: Finding, g: Finding)
    requires Swallows(f, g)
    ensures DedupeKey(f) == DedupeKey(g)
  {
    var line := LineText(f.line);
    if Continues(f, g, line) && PlainTitle(f) == Tail(g) {
      Reassociate(f.file, line, Tail(g));
    } else {
      var m: string :| Continues(f, g, line + (":" + m)) && PlainTitle(f) == m + (":" + Tail(g));
      Reassociate(f.file, line + (":" + m), Tail(g));
      Reassociate(line, m, Tail(g));
    }
  }

  lemma ContinuesIsPrefix(f: Finding, g: Finding, rest: string)
    requires Continues(f, g, rest)
    ensures f.file + ":" <= g.file
  {
  }

  /**
     Between paths neither of which goes on after the other with a colon, in particular between paths
     without colons, keys are exact.
   */
  lemma KeysAreExactWithoutColons(f: Finding, g: Finding)
    requires !(f.file + ":" <= g.file) && !(g.file + ":" <= f.file)
    ensures DedupeKey(f) == DedupeKey(g) <==> SamePlace(f, g)
  {
    KeysEqualIff(f, g);
    forall rest ensures !Continues(f, g, rest) && !Continues(g, f, rest) {
      if Continues(f, g, rest) {
        ContinuesIsPrefix(f, g, rest);
      }
      if Continues(g, f, rest) {
        ContinuesIsPrefix(g, f, rest);
      }
    }
  }

  /** Distinct places and titles can share a key: the separator also occurs in paths and titles. */
  lemma KeysCollide(f: Finding)
    ensures var left := f.(file := "a:1", line := Some(2), title := "x");
      var right := f.(file := "a", line := Some(1), title := "2:x");
      left != right && DedupeKey(left) == DedupeKey(right)
  {
    var left, right := f.(file := "a:1", line := Some(2), title := "x"),
      f.(file := "a", line := Some(1), title := "2:x");
    assert left.title != right.title;
    assert Lower(Strip("x")) == "x";
    assert StripRight("2:x") == "2:x" && Lower("2:x") == "2:x";
    assert DedupeKey(left) == "a:1:2:x";
    assert DedupeKey(right) == "a:1:2:x";
  }
}
