/** Normalizing, deduplicating and regrouping the findings that reviewers and the judge report. */
module Judge {
  import opened Basics
  import opened Text

  datatype Severity = Fatal | High | Medium | Low | Info

  /** A finding as reported; an absent or empty text is "". */
  datatype Candidate = Candidate(
    file: string, line: Option<int>, severity: string, title: string, detail: string,
    suggestion: string, confidence: Option<real>)

  /** The reviewer run a finding comes from. */
  datatype Source = Source(runId: Option<int>, reviewer: string)

  datatype Output = Output(source: Source, findings: seq<Candidate>)

  datatype Item = Item(source: Source, candidate: Candidate)

  datatype Finding = Finding(
    file: string, line: Option<int>, severity: Severity, title: string, detail: string,
    suggestion: string, confidence: real, source: Source)

  datatype Reason = SchemaIncomplete | LowConfidence | NeedsEvidence | TestOnly | DuplicateMerged

  datatype Rejection = Rejection(source: Source, reason: Reason, candidate: Candidate)

  /** An accepted finding under its deduplication key. */
  datatype Entry = Entry(key: string, finding: Finding)

  /** Accepted findings in the order their keys first appeared, and rejections in order of occurrence. */
  datatype Verdict = Verdict(accepted: seq<Entry>, rejected: seq<Rejection>)

  type ChangedLines = map<string, seq<int>>

  function Confidence(c: Candidate): real { if c.confidence.Some? then c.confidence.value else 1.0 }

  /** Why a candidate is rejected on its own, if it is. */
  function RejectionReason(c: Candidate, changed: ChangedLines): Option<Reason> {
    if c.title == "" || c.detail == "" || c.file == "" then Some(SchemaIncomplete)
    else if Confidence(c) < 0.3 then Some(LowConfidence)
    else if c.line.Some? && c.file in changed && c.line.value !in changed[c.file] then Some(NeedsEvidence)
    else if Contains(Lower(c.file), "/test/") || EndsWith(Lower(c.file), "_test.py")
      || EndsWith(Lower(c.file), "test.py")
    then Some(TestOnly)
    else None
  }

  /** `normalize_severity`; an unknown severity raises. */
  function NormalizeSeverity(text: string): Result<Severity> {
    var s := Lower(Strip(text));
    if s == "critical" || s == "fatal" then Ok(Fatal)
    else if s == "high" then Ok(High)
    else if s == "medium" then Ok(Medium)
    else if s == "low" then Ok(Low)
    else if s == "info" then Ok(Info)
    else Raised
  }

  function NormalizeCandidate(item: Item): Result<Finding> {
    var c := item.candidate;
    var severity := NormalizeSeverity(if c.severity == "" then "medium" else c.severity);
    if severity.Raised? then Raised
    else Ok(Finding(c.file, c.line, severity.value, c.title, c.detail, c.suggestion, Confidence(c), item.source))
  }

  function DedupeKey(f: Finding): string {
    f.file + (":" + (LineText(f.line) + (":" + PlainTitle(f))))
  }

  function LineText(line: Option<int>): string { if line.Some? then IntText(line.value) else "None" }

  function PlainTitle(f: Finding): string { Lower(Strip(f.title)) }

  function SeverityRank(s: Severity): nat {
    match s case Fatal => 5 case High => 4 case Medium => 3 case Low => 2 case Info => 1
  }

  /** Strictly stronger: by severity, then by confidence. */
  predicate Stronger(f: Finding, g: Finding) {
    || SeverityRank(f.severity) > SeverityRank(g.severity)
    || (SeverityRank(f.severity) == SeverityRank(g.severity) && f.confidence > g.confidence)
  }

  predicate SameRank(f: Finding, g: Finding) { f.severity == g.severity && f.confidence == g.confidence }

  function Flatten(outputs: seq<Output>): seq<Item> {
    if outputs == [] then []
    else
      var last := outputs[|outputs| - 1];
      Flatten(outputs[..|outputs| - 1]) + ItemsOf(last.source, last.findings)
  }

  function ItemsOf(source: Source, findings: seq<Candidate>): seq<Item> {
    seq(|findings|, i requires 0 <= i < |findings| => Item(source, findings[i]))
  }

  // ------------------------------------------------------------- the normalizer

  /** What a candidate that is not rejected on its own contributes. */
  function Survivor(item: Item, changed: ChangedLines): Option<Entry> {
    if RejectionReason(item.candidate, changed).Some? then None
    else
      match NormalizeCandidate(item)
      case Raised => None
      case Ok(f) => Some(Entry(DedupeKey(f), f))
  }

  predicate Raises(item: Item, changed: ChangedLines) {
    RejectionReason(item.candidate, changed).None? && NormalizeCandidate(item).Raised?
  }

  /** The position of the entry with this key, or the length if there is none. */
  function IndexOfKey(entries: seq<Entry>, key: string): (i: nat)
    ensures i <= |entries|
    ensures i < |entries| ==> entries[i].key == key
    ensures forall k :: 0 <= k < i ==> entries[k].key != key
  {
    if entries == [] || entries[0].key == key then 0 else 1 + IndexOfKey(entries[1..], key)
  }

  /** One round of the loop for a candidate that was not rejected on its own. */
  function Merge(v: Verdict, e: Entry, c: Candidate): Verdict {
    var i := IndexOfKey(v.accepted, e.key);
    if i == |v.accepted| then v.(accepted := v.accepted + [e])
    else
      var existing := v.accepted[i].finding;
      if Stronger(e.finding, existing)
      then Verdict(v.accepted[i := e], v.rejected + [Rejection(existing.source, DuplicateMerged, c)])
      else v.(rejected := v.rejected + [Rejection(e.finding.source, DuplicateMerged, c)])
  }

  /** One round of the loop. */
  function JudgeOne(v: Verdict, item: Item, changed: ChangedLines): Result<Verdict> {
    var reason := RejectionReason(item.candidate, changed);
    if reason.Some? then Ok(v.(rejected := v.rejected + [Rejection(item.source, reason.value, item.candidate)]))
    else
      var e := Survivor(item, changed);
      if e.None? then Raised else Ok(Merge(v, e.value, item.candidate))
  }

  /** The loop over all candidates in order. */
  function Judged(items: seq<Item>, changed: ChangedLines): Result<Verdict> {
    if items == [] then Ok(Verdict([], []))
    else
      match Judged(items[..|items| - 1], changed)
      case Raised => Raised
      case Ok(v) => JudgeOne(v, items[|items| - 1], changed)
  }

  lemma JudgedStep(done: seq<Item>, item: Item, changed: ChangedLines)
    ensures Judged(done + [item], changed) ==
      match Judged(done, changed) case Raised => Raised case Ok(v) => JudgeOne(v, item, changed)
  {
    assert (done + [item])[..|done|] == done;
  }

  lemma {:induction false} RaisedPrefix(done: seq<Item>, items: seq<Item>, changed: ChangedLines)
    requires done <= items && Judged(done, changed).Raised?
    ensures Judged(items, changed).Raised?
  {
    if done != items {
      RaisedPrefix(done, items[..|items| - 1], changed);
    }
  }

  /** The candidates of the first outputs, and some of the next one, are a prefix of all candidates. */
  lemma {:induction false} FlattenPrefix(outputs: seq<Output>, o: nat, i: nat)
    requires o < |outputs| && i <= |outputs[o].findings|
    ensures Flatten(outputs[..o]) + ItemsOf(outputs[o].source, outputs[o].findings[..i]) <= Flatten(outputs)
    ensures i == |outputs[o].findings| ==>
      Flatten(outputs[..o + 1]) == Flatten(outputs[..o]) + ItemsOf(outputs[o].source, outputs[o].findings[..i])
    ensures i < |outputs[o].findings| ==>
      ItemsOf(outputs[o].source, outputs[o].findings[..i + 1])
        == ItemsOf(outputs[o].source, outputs[o].findings[..i]) + [Item(outputs[o].source, outputs[o].findings[i])]
    decreases |outputs|
  {
    var n, output := |outputs| - 1, outputs[o];
    assert outputs[..o + 1][..o] == outputs[..o];
    assert ItemsOf(output.source, output.findings[..i]) == ItemsOf(output.source, output.findings)[..i];
    if o == n {
      assert outputs[..o + 1] == outputs;
    } else {
      FlattenPrefix(outputs[..n], o, i);
      assert outputs[..n][..o] == outputs[..o] && outputs[..n][o] == outputs[o];
    }
  }

  /** The table as a list: each key once, in `order`, with its finding. */
  function Entries(order: seq<string>, byKey: map<string, Finding>): seq<Entry>
    requires forall k :: k in order ==> k in byKey
  {
    seq(|order|, i requires 0 <= i < |order| => Entry(order[i], byKey[order[i]]))
  }

  ghost predicate Table(order: seq<string>, byKey: map<string, Finding>) {
    Distinct(order) && forall k :: k in order <==> k in byKey
  }

  /** What the loop body does to the table is what `Merge` does to the list. */
  lemma TableMerge(order: seq<string>, byKey: map<string, Finding>, rejected: seq<Rejection>, e: Entry, c: Candidate)
    requires Table(order, byKey)
    ensures var v := Verdict(Entries(order, byKey), rejected);
      if e.key !in byKey then
        && Table(order + [e.key], byKey[e.key := e.finding])
        && Merge(v, e, c) == Verdict(Entries(order + [e.key], byKey[e.key := e.finding]), rejected)
      else
        var winner := if Stronger(e.finding, byKey[e.key]) then e.finding else byKey[e.key];
        var loser := if Stronger(e.finding, byKey[e.key]) then byKey[e.key] else e.finding;
        && Table(order, byKey[e.key := winner])
        && Merge(v, e, c) == Verdict(Entries(order, byKey[e.key := winner]),
                                     rejected + [Rejection(loser.source, DuplicateMerged, c)])
  {
    var entries := Entries(order, byKey);
    var at := IndexOfKey(entries, e.key);
    if e.key !in byKey {
      assert forall k :: 0 <= k < |order| ==> order[k] in byKey && entries[k].key != e.key;
      assert Entries(order + [e.key], byKey[e.key := e.finding]) == entries + [e];
    } else {
      var k :| 0 <= k < |order| && order[k] == e.key;
      assert entries[k].key == e.key;
      var winner := if Stronger(e.finding, byKey[e.key]) then e.finding else byKey[e.key];
      assert Entries(order, byKey[e.key := winner]) == entries[at := Entry(e.key, winner)];
    }
  }

  /** The body of the loop, on the dictionary and the rejections; `false` if it raises. */
  method JudgeCandidate(order: seq<string>, acceptedByKey: map<string, Finding>, rejected: seq<Rejection>, item: Item,
      changed: ChangedLines,
      ghost done: seq<Item>)
    returns (ok: bool, order': seq<string>, acceptedByKey': map<string, Finding>, rejected': seq<Rejection>)
    requires Table(order, acceptedByKey)
    requires Judged(done, changed) == Ok(Verdict(Entries(order, acceptedByKey), rejected))
    ensures Table(order', acceptedByKey')
    ensures Judged(done + [item], changed) ==
      if ok then Ok(Verdict(Entries(order', acceptedByKey'), rejected')) else Raised
  {
    JudgedStep(done, item, changed);
    ok, order', acceptedByKey', rejected' := true, order, acceptedByKey, rejected;
    var candidate := item.candidate;
    var reason := RejectionReason(candidate, changed);
    if reason.Some? {
      rejected' := rejected + [Rejection(item.source, reason.value, candidate)];
      return;
    }
    var normalized := NormalizeCandidate(item);
    if normalized.Raised? {
      ok := false;
      return;
    }
    var f := normalized.value;
    var key := DedupeKey(f);
    TableMerge(order, acceptedByKey, rejected, Entry(key, f), candidate);
    if key !in acceptedByKey {
      order', acceptedByKey' := order + [key], acceptedByKey[key := f];
      return;
    }
    var existing := acceptedByKey[key];
    var winner, loser := existing, f;
    if Stronger(f, existing) {
      winner, loser := f, existing;
    }
    acceptedByKey' := acceptedByKey[key := winner];
    rejected' := rejected + [Rejection(loser.source, DuplicateMerged, candidate)];
  }

  /** A candidate that raises within output `o` makes the whole fold raise. */
  lemma RaisedWithin(outputs: seq<Output>, o: nat, i: nat, done: seq<Item>, changed: ChangedLines)
    requires o < |outputs| && i <= |outputs[o].findings|
    requires done == Flatten(outputs[..o]) + ItemsOf(outputs[o].source, outputs[o].findings[..i])
    requires Judged(done, changed).Raised?
    ensures Judged(Flatten(outputs), changed).Raised?
  {
    FlattenPrefix(outputs, o, i);
    RaisedPrefix(done, Flatten(outputs), changed);
  }

  lemma OutputDone(outputs: seq<Output>, o: nat)
    requires o < |outputs|
    ensures var output := outputs[o];
      Flatten(outputs[..o + 1]) == Flatten(outputs[..o]) + ItemsOf(output.source, output.findings[..|output.findings|])
  {
    FlattenPrefix(outputs, o, |outputs[o].findings|);
  }

  lemma ItemsOneMore(start: seq<Item>, source: Source, findings: seq<Candidate>, i: nat)
    requires i < |findings|
    ensures start + ItemsOf(source, findings[..i]) + [Item(source, findings[i])]
      == start + ItemsOf(source, findings[..i + 1])
  {
    assert ItemsOf(source, findings[..i + 1]) == ItemsOf(source, findings[..i]) + [Item(source, findings[i])];
  }

  method Normalize(outputs: seq<Output>, changed: ChangedLines) returns (r: Result<Verdict>)
    ensures r == Judged(Flatten(outputs), changed)
  {
    var order: seq<string>, acceptedByKey: map<string, Finding> := [], map[];
    var rejected := [];
    ghost var done: seq<Item> := [];
    assert Entries(order, acceptedByKey) == [];
    for o := 0 to |outputs|
      invariant done == Flatten(outputs[..o])
      invariant Table(order, acceptedByKey)
      invariant Judged(done, changed) == Ok(Verdict(Entries(order, acceptedByKey), rejected))
    {
      var output := outputs[o];
      ghost var start := done;
      for i := 0 to |output.findings|
        invariant done == start + ItemsOf(output.source, output.findings[..i])
        invariant Table(order, acceptedByKey)
        invariant Judged(done, changed) == Ok(Verdict(Entries(order, acceptedByKey), rejected))
      {
        var item := Item(output.source, output.findings[i]);
        var ok: bool;
        ok, order, acceptedByKey, rejected := JudgeCandidate(order, acceptedByKey, rejected, item, changed, done);
        done := done + [item];
        ItemsOneMore(start, output.source, output.findings, i);
        if !ok {
          RaisedWithin(outputs, o, i + 1, done, changed);
          return Raised;
        }
      }
      OutputDone(outputs, o);
    }
    assert outputs[..|outputs|] == outputs;
    return Ok(Verdict(Entries(order, acceptedByKey), rejected));
  }
}
