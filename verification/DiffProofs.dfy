/** When the tracker returns the line numbers of the added lines: exactly for trackable diffs. */
module DiffProofs {
  import opened Basics
  import opened Text
  import opened DiffLines

  // -------------------------------------------------------------- hunk headers

  lemma {:induction false} DigitsBeforeOther(d: string, s: string)
    requires (forall i :: 0 <= i < |d| ==> IsDigit(d[i])) && (s == "" || !IsDigit(s[0]))
    ensures LeadingDigits(d + s) == d
  {
    if d != "" {
      DigitsBeforeOther(d[1..], s);
      assert (d + s)[1..] == d[1..] + s;
    } else {
      assert d + s == s;
    }
  }

  lemma {:induction false} SkipToPlus(a: string, s: string)
    requires '+' !in a
    ensures NumberAfterPlus(a + s) == NumberAfterPlus(s)
  {
    if a == "" {
      assert a + s == s;
    } else {
      assert (a + s)[1..] == a[1..] + s;
      SkipToPlus(a[1..], s);
    }
  }

  lemma RangeHasNoPlus(start: nat, count: nat)
    ensures '+' !in RangeText(start, count)
  {
  }

  lemma RangeAfterPlus(start: nat, count: nat, rest: string)
    ensures NumberAfterPlus("+" + (RangeText(start, count) + (" " + rest))) == Some(start)
  {
    var tail := (if count == 1 then "" else "," + NatText(count)) + (" " + rest);
    assert RangeText(start, count) + (" " + rest) == NatText(start) + tail;
    NumberThenOther(start, tail);
  }

  lemma NumberThenOther(n: nat, tail: string)
    requires tail != "" && !IsDigit(tail[0])
    ensures NumberAfterPlus("+" + (NatText(n) + tail)) == Some(n)
  {
    var text := "+" + (NatText(n) + tail);
    assert text[0] == '+' && text[1..] == NatText(n) + tail;
    DigitsBeforeOther(NatText(n), tail);
    NatTextRoundTrip(n);
  }

  /** The header of a hunk sets the line counter to its new start, whatever its section text. */
  lemma HeaderNamesNewStart(h: Hunk)
    ensures NumberAfterPlus(HeaderText(h)) == Some(h.newStart)
  {
    var from, to := RangeText(h.oldStart, |OldSide(h.body)|), RangeText(h.newStart, |NewSide(h.body)|);
    RangeHasNoPlus(h.oldStart, |OldSide(h.body)|);
    HeaderParts(h);
    SkipToPlus("@@ -" + from + " ", "+" + (to + (" " + ("@@" + h.section))));
    RangeAfterPlus(h.newStart, |NewSide(h.body)|, "@@" + h.section);
  }

  lemma HeaderParts(h: Hunk)
    ensures HeaderText(h) == ("@@ -" + RangeText(h.oldStart, |OldSide(h.body)|) + " ")
      + ("+" + (RangeText(h.newStart, |NewSide(h.body)|) + (" " + ("@@" + h.section))))
  {
  }

  // ------------------------------------------------------------- line by line

  lemma LineKinds(l: DiffLine)
    requires !HeaderLike(l)
    ensures !StartsWith(LineText(l), "@@")
    ensures Recordable(LineText(l)) <==> (l.Added? && !Hidden(l)) || Extra(l)
    ensures StartsWith(LineText(l), "-") && !StartsWith(LineText(l), "---") <==>
      (l.Deleted? || l.Piece?) && !Drifts(l) && !Extra(l)
    ensures StartsWith(LineText(l), "+++ b/") ==> Hidden(l)
  {
    if l.Piece? {
      assert StartsWith(l.text, "+") ==> l.text[0] == '+';
      assert StartsWith(l.text, "-") ==> l.text[0] == '-';
    } else {
      MarkedLineKinds(l);
    }
  }

  lemma MarkedLineKinds(l: DiffLine)
    requires !l.Piece?
    ensures !StartsWith(LineText(l), "@@")
    ensures StartsWith(LineText(l), "+") <==> l.Added?
    ensures StartsWith(LineText(l), "-") <==> l.Deleted?
    ensures StartsWith(LineText(l), "+++") <==> Hidden(l)
    ensures StartsWith(LineText(l), "---") <==> l.Deleted? && Drifts(l)
    ensures StartsWith(LineText(l), "+++ b/") ==> Hidden(l)
  {
    var raw := LineText(l);
    assert raw[0] == match l case Context(_) => ' ' case Added(_) => '+' case Deleted(_) => '-' case _ => '\\';
    if l.Added? || l.Deleted? {
      assert raw[1..] == l.text;
      assert |l.text| >= 2 ==> raw[1] == l.text[0] && raw[2] == l.text[1];
      if StartsWith(raw, "+++") {
        assert raw[1] == '+' && raw[2] == '+';
      }
      if StartsWith(raw, "---") {
        assert raw[1] == '-' && raw[2] == '-';
      }
      if StartsWith(raw, "+++ b/") {
        assert raw[1] == '+' && raw[2] == '+';
      }
    }
  }

  lemma {:induction false} TrackAppend(s: State, a: seq<string>, b: seq<string>)
    ensures Track(s, a + b) == Track(Track(s, a), b)
    decreases |a|
  {
    if a == [] {
      assert a + b == b;
    } else {
      assert (a + b)[1..] == a[1..] + b;
      TrackAppend(Step(s, a[0]), a[1..], b);
    }
  }

  /** The numbers the tracker records for a hunk body without hidden lines. */
  function TrackedNumbers(body: seq<DiffLine>, n: int): seq<int> {
    if body == [] then []
    else if body[0].Added? || Extra(body[0]) then [n] + TrackedNumbers(body[1..], n + 1)
    else TrackedNumbers(body[1..], if body[0].Context? || Drifts(body[0]) then n + 1 else n)
  }

  ghost predicate NoneHidden(body: seq<DiffLine>) { forall i :: 0 <= i < |body| ==> !Hidden(body[i]) }

  lemma StepOnLine(s: State, l: DiffLine)
    requires s.file.Some? && s.line.Some? && !Hidden(l) && !HeaderLike(l)
    ensures var n := s.line.value;
      Step(s, LineText(l)) ==
        if l.Added? || Extra(l) then s.(result := Append(s.result, s.file.value, n), line := Some(n + 1))
        else if l.Context? || Drifts(l) then s.(line := Some(n + 1)) else s
  {
    LineKinds(l);
  }

  lemma {:induction false} TrackBody(s: State, body: seq<DiffLine>)
    requires s.file.Some? && s.line.Some? && s.file.value in s.result && NoneHidden(body) && NoHeaders(body)
    ensures var t, path := Track(s, BodyText(body)), s.file.value;
      t.file == s.file && t.line.Some?
        && t.result == s.result[path := s.result[path] + TrackedNumbers(body, s.line.value)]
    decreases |body|
  {
    var path, n := s.file.value, s.line.value;
    if body == [] {
      assert s.result[path] + [] == s.result[path];
    } else {
      var l, rest := body[0], body[1..];
      assert BodyText(body)[0] == LineText(l) && BodyText(body)[1..] == BodyText(rest);
      StepOnLine(s, l);
      TrackBody(Step(s, LineText(l)), rest);
      if l.Added? || Extra(l) {
        ExtendTwice(s.result, path, [n], TrackedNumbers(rest, n + 1));
      }
    }
  }

  lemma StepOnHeader(s: State, h: Hunk)
    ensures Step(s, HeaderText(h)) == s.(line := Some(h.newStart))
  {
    HeaderNamesNewStart(h);
    assert HeaderText(h)[0] == '@' && HeaderText(h)[1] == '@';
    assert !StartsWith(HeaderText(h), "+++ b/") && StartsWith(HeaderText(h), "@@");
  }

  lemma TrackHunk(s: State, h: Hunk)
    requires s.file.Some? && s.file.value in s.result && NoneHidden(h.body) && NoHeaders(h.body)
    ensures var t, path := Track(s, HunkText(h)), s.file.value;
      t.file == s.file && t.result == s.result[path := s.result[path] + TrackedNumbers(h.body, h.newStart)]
  {
    var header := HeaderText(h);
    StepOnHeader(s, h);
    assert ([header] + BodyText(h.body))[1..] == BodyText(h.body);
    TrackBody(s.(line := Some(h.newStart)), h.body);
  }

  function TrackedHunks(hunks: seq<Hunk>): seq<int> {
    if hunks == [] then [] else TrackedNumbers(hunks[0].body, hunks[0].newStart) + TrackedHunks(hunks[1..])
  }

  ghost predicate NoneHiddenIn(hunks: seq<Hunk>) { forall h :: h in hunks ==> NoneHidden(h.body) }

  ghost predicate NoHeadersIn(hunks: seq<Hunk>) { forall h :: h in hunks ==> NoHeaders(h.body) }

  lemma {:induction false} TrackHunks(s: State, hunks: seq<Hunk>)
    requires s.file.Some? && s.file.value in s.result && NoneHiddenIn(hunks) && NoHeadersIn(hunks)
    ensures var t, path := Track(s, HunksText(hunks)), s.file.value;
      t.file == s.file && t.result == s.result[path := s.result[path] + TrackedHunks(hunks)]
    decreases |hunks|
  {
    var path := s.file.value;
    if hunks == [] {
      assert s.result[path] + [] == s.result[path];
    } else {
      var h, rest := hunks[0], hunks[1..];
      TrackAppend(s, HunkText(h), HunksText(rest));
      TrackHunk(s, h);
      TrackHunks(Track(s, HunkText(h)), rest);
      ExtendTwice(s.result, path, TrackedNumbers(h.body, h.newStart), TrackedHunks(rest));
    }
  }

  lemma ExtendTwice(m: LineNumbers, path: string, a: seq<int>, b: seq<int>)
    requires path in m
    ensures var once := m[path := m[path] + a]; once[path := once[path] + b] == m[path := m[path] + (a + b)]
  {
    assert m[path] + a + b == m[path] + (a + b);
  }

  lemma {:induction false} TrackPreamble(s: State, pre: seq<string>)
    requires forall p :: p in pre ==> p == "" || (p[0] != '+' && p[0] != '@')
    ensures Track(s, pre).file == s.file && Track(s, pre).result == s.result
    decreases |pre|
  {
    if pre != [] {
      assert pre[0] in pre;
      TrackPreamble(Step(s, pre[0]), pre[1..]);
    }
  }

  lemma TrackFile(s: State, f: FileDiff)
    requires PlainPreamble(f) && NoneHiddenIn(f.hunks) && NoHeadersIn(f.hunks)
    requires f.path !in s.result && (f.hunks != [] ==> f.quoted.None?)
    ensures Track(s, FileText(f)).result ==
      if f.hunks == [] then s.result else s.result[f.path := TrackedHunks(f.hunks)]
  {
    TrackPreamble(s, f.preamble);
    if f.hunks == [] {
      assert FileText(f) == f.preamble;
    } else {
      var t := Track(s, f.preamble);
      TrackAppend(s, f.preamble, [Title(f)] + HunksText(f.hunks));
      StepOnTitle(t, f.path);
      TrackFromTitle(t, Title(f), f.path, f.hunks);
    }
  }

  lemma StepOnTitle(s: State, path: string)
    requires path !in s.result
    ensures Step(s, "+++ b/" + path) == State(Some(path), s.line, s.result[path := []])
  {
    var opening := "+++ b/" + path;
    assert StartsWith(opening, "+++ b/") && opening[6..] == path;
  }

  lemma TrackFromTitle(s: State, title: string, path: string, hunks: seq<Hunk>)
    requires NoneHiddenIn(hunks) && NoHeadersIn(hunks)
    requires Step(s, title) == State(Some(path), s.line, s.result[path := []])
    ensures Track(s, [title] + HunksText(hunks)).result == s.result[path := TrackedHunks(hunks)]
  {
    TrackFirst(s, title, HunksText(hunks));
    TrackHunks(Step(s, title), hunks);
    NothingBefore(s.result, path, TrackedHunks(hunks));
  }

  lemma StepOnQuotedTitle(s: State, f: FileDiff)
    requires f.quoted.Some?
    ensures !StartsWith(Title(f), "+++ b/") && Step(s, Title(f)).file == s.file && Step(s, Title(f)).result == s.result
  {
    var title := Title(f);
    assert title[0] == '+' && title[1] == '+' && title[2] == '+' && title[4] == '"';
    assert "+++ b/"[4] == 'b';
  }

  /** A quoted path is not recognized: its added lines are credited to the file before it, and lost if there is none. */
  lemma QuotedPathIsNotRecognized(s: State, f: FileDiff)
    requires f.quoted.Some? && f.hunks != [] && PlainPreamble(f) && NoneHiddenIn(f.hunks) && NoHeadersIn(f.hunks)
    requires FileIsKnown(s)
    ensures Track(s, FileText(f)).result ==
      match s.file
      case None => s.result
      case Some(path) => s.result[path := s.result[path] + TrackedHunks(f.hunks)]
  {
    var text := [Title(f)] + HunksText(f.hunks);
    var t := Track(s, f.preamble);
    TrackPreamble(s, f.preamble);
    TrackAppend(s, f.preamble, text);
    StepOnQuotedTitle(t, f);
    TrackFirst(t, Title(f), HunksText(f.hunks));
    var u := Step(t, Title(f));
    if s.file.Some? {
      TrackHunks(u, f.hunks);
    } else {
      NoTitleInHunks(f.hunks);
      NothingWithoutFile(u, HunksText(f.hunks));
    }
  }

  /** The current file has an entry. */
  predicate FileIsKnown(s: State) { s.file.Some? ==> s.file.value in s.result }

  predicate IsTitle(raw: string) { StartsWith(raw, "+++ b/") }

  /** Before the first title nothing is recorded. */
  lemma {:induction false} NothingWithoutFile(s: State, lines: seq<string>)
    requires s.file.None? && forall l :: l in lines ==> !IsTitle(l)
    ensures Track(s, lines).result == s.result
    decreases |lines|
  {
    if lines != [] {
      assert lines[0] in lines;
      NothingWithoutFile(Step(s, lines[0]), lines[1..]);
    }
  }

  /** Every key of the result was there or is named by a title. */
  lemma {:induction false} KeysAreTitles(s: State, lines: seq<string>, path: string)
    requires FileIsKnown(s) && path in Track(s, lines).result
    ensures path in s.result || exists l :: l in lines && IsTitle(l) && l[6..] == path
    decreases |lines|
  {
    if lines != [] {
      var t := Step(s, lines[0]);
      assert lines[0] in lines;
      KeysAreTitles(t, lines[1..], path);
      if path in t.result && path !in s.result {
        assert IsTitle(lines[0]) && lines[0][6..] == path;
      }
    }
  }

  lemma {:induction false} NoTitleInHunks(hunks: seq<Hunk>)
    requires NoneHiddenIn(hunks) && NoHeadersIn(hunks)
    ensures forall l :: l in HunksText(hunks) ==> !IsTitle(l)
  {
    if hunks != [] {
      NoTitleInHunk(hunks[0]);
      NoTitleInHunks(hunks[1..]);
    }
  }

  lemma NoTitleInHunk(h: Hunk)
    requires NoneHidden(h.body) && NoHeaders(h.body)
    ensures forall l :: l in HunkText(h) ==> !IsTitle(l)
  {
    assert HeaderText(h)[0] == '@';
    forall i | 0 <= i < |h.body| ensures !IsTitle(BodyText(h.body)[i]) {
      LineKinds(h.body[i]);
    }
  }

  /** Only the new-file lines of unquoted paths are titles. */
  lemma {:induction false} TitlesOfDiff(files: seq<FileDiff>, l: string)
    requires forall f :: f in files ==> PlainPreamble(f) && NoneHiddenIn(f.hunks) && NoHeadersIn(f.hunks)
    requires l in DiffText(files) && IsTitle(l)
    ensures exists f :: f in files && f.quoted.None? && l == "+++ b/" + f.path
  {
    var f, rest := files[0], files[1..];
    if l in FileText(f) {
      assert l[0] == '+';
      assert l !in f.preamble;
      NoTitleInHunks(f.hunks);
      if f.quoted.Some? {
        StepOnQuotedTitle(START, f);
      }
      assert f in files;
    } else {
      TitlesOfDiff(rest, l);
    }
  }

  lemma {:induction false} ExpectedHasPath(files: seq<FileDiff>, f: FileDiff)
    requires f in files && f.hunks != []
    ensures f.path in Expected(files)
  {
    if f != files[0] {
      ExpectedHasPath(files[1..], f);
    }
  }

  /** A quoted path with hunks is missing from the result. */
  lemma QuotedPathIsMissing(files: seq<FileDiff>, f: FileDiff)
    requires WellFormed(files) && f in files && f.hunks != [] && f.quoted.Some?
    requires forall g :: g in files ==> NoneHiddenIn(g.hunks) && NoHeadersIn(g.hunks)
    ensures Track(START, DiffText(files)).result != Expected(files)
  {
    ExpectedHasPath(files, f);
    if f.path in Track(START, DiffText(files)).result {
      KeysAreTitles(START, DiffText(files), f.path);
      var l :| l in DiffText(files) && IsTitle(l) && l[6..] == f.path;
      TitlesOfDiff(files, l);
    }
  }

  lemma TrackFirst(s: State, line: string, lines: seq<string>)
    ensures Track(s, [line] + lines) == Track(Step(s, line), lines)
  {
    assert ([line] + lines)[1..] == lines;
  }

  lemma NothingBefore(m: LineNumbers, path: string, numbers: seq<int>)
    ensures var bare := m[path := []]; bare[path := bare[path] + numbers] == m[path := numbers]
  {
    assert [] + numbers == numbers;
  }

  /** What the tracker returns when no line is hidden. */
  function Tracked(files: seq<FileDiff>): LineNumbers {
    if files == [] then map[]
    else
      var rest := Tracked(files[1..]);
      if files[0].hunks == [] then rest else rest[files[0].path := TrackedHunks(files[0].hunks)]
  }

  lemma {:induction false} KeysOfResults(files: seq<FileDiff>, path: string)
    ensures path in Expected(files) <==> path in Tracked(files)
    ensures path in Tracked(files) ==> exists f :: f in files && f.path == path
  {
    if files != [] {
      KeysOfResults(files[1..], path);
    }
  }

  lemma UpdatesCommute(m: LineNumbers, rest: LineNumbers, path: string, numbers: seq<int>)
    requires path !in rest
    ensures m[path := numbers] + rest == m + rest[path := numbers]
  {
  }

  lemma {:induction false} TrackDiff(s: State, files: seq<FileDiff>)
    requires WellFormed(files) && NoneQuoted(files)
    requires forall f :: f in files ==> NoneHiddenIn(f.hunks) && NoHeadersIn(f.hunks) && f.path !in s.result
    ensures Track(s, DiffText(files)).result == s.result + Tracked(files)
    decreases |files|
  {
    if files == [] {
      assert s.result + map[] == s.result;
    } else {
      var f, rest := files[0], files[1..];
      TrackAppend(s, FileText(f), DiffText(rest));
      TrackFile(s, f);
      var t := Track(s, FileText(f));
      forall g | g in rest ensures NoneHiddenIn(g.hunks) && NoHeadersIn(g.hunks) && g.path !in t.result {
        assert g.path != f.path;
      }
      TrackDiff(t, rest);
      KeysOfResults(rest, f.path);
      if f.hunks != [] {
        UpdatesCommute(s.result, Tracked(rest), f.path, TrackedHunks(f.hunks));
      }
    }
  }

  // ------------------------------------------------- tracked against expected

  ghost predicate NothingAdded(body: seq<DiffLine>) { forall i :: 0 <= i < |body| ==> !body[i].Added? }

  ghost predicate NoneExtra(body: seq<DiffLine>) { forall i :: 0 <= i < |body| ==> !Extra(body[i]) }

  lemma NoneExtraTail(body: seq<DiffLine>)
    requires body != []
    ensures NoneExtra(body) <==> !Extra(body[0]) && NoneExtra(body[1..])
  {
    var rest := body[1..];
    if NoneExtra(rest) && !Extra(body[0]) {
      forall i | 0 <= i < |body| ensures !Extra(body[i]) {
        assert i > 0 ==> !Extra(rest[i - 1]);
      }
    }
    if NoneExtra(body) {
      assert forall i :: 0 <= i < |rest| ==> rest[i] == body[i + 1];
    }
  }

  /** Every piece that looks like an added line makes one number too many. */
  lemma {:induction false} NumbersTooMany(body: seq<DiffLine>, m: int, n: int)
    ensures |TrackedNumbers(body, m)| >= |AddedNumbers(body, n)|
    ensures |TrackedNumbers(body, m)| == |AddedNumbers(body, n)| <==> NoneExtra(body)
    decreases |body|
  {
    if body != [] {
      var l := body[0];
      NoneExtraTail(body);
      NumbersTooMany(body[1..], if l.Added? || Extra(l) || l.Context? || Drifts(l) then m + 1 else m,
                     if l.Added? || l.Context? then n + 1 else n);
    }
  }

  lemma TrackableTail(body: seq<DiffLine>)
    requires body != []
    ensures Trackable(body) <==>
      && Trackable(body[1..]) && !HeaderLike(body[0]) && !Hidden(body[0]) && !Extra(body[0])
      && (Drifts(body[0]) ==> NothingAdded(body[1..]))
  {
    var rest := body[1..];
    if Trackable(rest) && !HeaderLike(body[0]) && !Hidden(body[0]) && !Extra(body[0])
       && (Drifts(body[0]) ==> NothingAdded(rest)) {
      forall i, j | 0 <= i < j < |body| && Drifts(body[i]) ensures !body[j].Added? {
        assert rest[j - 1] == body[j];
        if i > 0 {
          assert Drifts(rest[i - 1]);
        }
      }
      forall i | 0 <= i < |body| ensures !HeaderLike(body[i]) && !Hidden(body[i]) && !Extra(body[i]) {
        assert i > 0 ==> rest[i - 1] == body[i];
      }
    }
    if Trackable(body) {
      forall i, j | 0 <= i < j < |rest| && Drifts(rest[i]) ensures !rest[j].Added? {
        assert body[i + 1] == rest[i] && body[j + 1] == rest[j];
      }
      forall i | 0 <= i < |rest| ensures !HeaderLike(rest[i]) && !Hidden(rest[i]) && !Extra(rest[i])
        && (Drifts(body[0]) ==> !rest[i].Added?) {
        assert body[i + 1] == rest[i];
      }
    }
  }

  lemma NothingAddedTail(body: seq<DiffLine>)
    requires body != []
    ensures NothingAdded(body) <==> !body[0].Added? && NothingAdded(body[1..])
  {
    var rest := body[1..];
    assert forall i :: 0 <= i < |rest| ==> rest[i] == body[i + 1];
    if NothingAdded(rest) && !body[0].Added? {
      forall i | 0 <= i < |body| ensures !body[i].Added? {
        assert i > 0 ==> !rest[i - 1].Added?;
      }
    }
  }

  /** The two ways of numbering go on alike after one line. */
  lemma NumbersStep(body: seq<DiffLine>, m: int, n: int)
    requires body != [] && !Extra(body[0])
    ensures var l, rest := body[0], body[1..];
      var m' := if l.Added? || l.Context? || Drifts(l) then m + 1 else m;
      var n' := if l.Added? || l.Context? then n + 1 else n;
      TrackedNumbers(body, m) == AddedNumbers(body, n) <==>
          TrackedNumbers(rest, m') == AddedNumbers(rest, n') && (l.Added? ==> m == n)
  {
    if body[0].Added? {
      EqualConcatenations([m], TrackedNumbers(body[1..], m + 1), [n], AddedNumbers(body[1..], n + 1));
    }
  }

  /**
     With a counter that is `m - n` too high, the numbers agree only if nothing is added; otherwise if
     the body is trackable.
   */
  lemma {:induction false} NumbersAgree(body: seq<DiffLine>, m: int, n: int)
    requires m >= n && NoneHidden(body) && NoneExtra(body) && NoHeaders(body)
    ensures TrackedNumbers(body, m) == AddedNumbers(body, n) <==> NothingAdded(body) || (m == n && Trackable(body))
    decreases |body|
  {
    if body != [] {
      var l, rest := body[0], body[1..];
      TrackableTail(body);
      NothingAddedTail(body);
      NoneExtraTail(body);
      NumbersStep(body, m, n);
      NumbersAgree(rest, if l.Added? || l.Context? || Drifts(l) then m + 1 else m,
                   if l.Added? || l.Context? then n + 1 else n);
      if NothingAdded(rest) {
        NothingAddedIsTrackable(rest);
      }
    }
  }

  lemma NothingAddedIsTrackable(body: seq<DiffLine>)
    requires NothingAdded(body) && NoneExtra(body) && NoHeaders(body)
    ensures Trackable(body)
  {
  }

  lemma EqualConcatenations(a: seq<int>, b: seq<int>, c: seq<int>, d: seq<int>)
    requires |a| == |c|
    ensures a + b == c + d <==> a == c && b == d
  {
    if a + b == c + d {
      assert (a + b)[..|a|] == a && (c + d)[..|a|] == c;
      assert (a + b)[|a|..] == b && (c + d)[|a|..] == d;
    }
  }

  ghost predicate NoneExtraIn(hunks: seq<Hunk>) { forall h :: h in hunks ==> NoneExtra(h.body) }

  lemma {:induction false} HunkNumbersTooMany(hunks: seq<Hunk>)
    ensures |TrackedHunks(hunks)| >= |FileNumbers(hunks)|
    ensures !NoneExtraIn(hunks) ==> |TrackedHunks(hunks)| > |FileNumbers(hunks)|
  {
    if hunks != [] {
      HunkNumbersTooMany(hunks[1..]);
      NumbersTooMany(hunks[0].body, hunks[0].newStart, hunks[0].newStart);
    }
  }

  lemma {:induction false} HunksAgree(hunks: seq<Hunk>)
    requires NoneHiddenIn(hunks) && NoHeadersIn(hunks)
    ensures TrackedHunks(hunks) == FileNumbers(hunks) <==> forall h :: h in hunks ==> Trackable(h.body)
  {
    if !NoneExtraIn(hunks) {
      HunkNumbersTooMany(hunks);
      var h :| h in hunks && !NoneExtra(h.body);
      assert !Trackable(h.body);
    } else if hunks != [] {
      var h, rest := hunks[0], hunks[1..];
      HunksAgree(rest);
      NumbersTooMany(h.body, h.newStart, h.newStart);
      NumbersAgree(h.body, h.newStart, h.newStart);
      if NothingAdded(h.body) {
        NothingAddedIsTrackable(h.body);
      }
      EqualConcatenations(TrackedNumbers(h.body, h.newStart), TrackedHunks(rest), AddedNumbers(h.body, h.newStart),
        FileNumbers(rest));
    }
  }

  lemma {:induction false} ResultsAgree(files: seq<FileDiff>)
    requires WellFormed(files) && forall f :: f in files ==> NoneHiddenIn(f.hunks) && NoHeadersIn(f.hunks)
    ensures Tracked(files) == Expected(files) <==> AllTrackable(files)
  {
    if files != [] {
      var f, rest := files[0], files[1..];
      ResultsAgree(rest);
      HunksAgree(f.hunks);
      TrackableStep(files);
      PathIsFresh(files);
      if f.hunks != [] {
        SameUpdate(Tracked(rest), Expected(rest), f.path, TrackedHunks(f.hunks), FileNumbers(f.hunks));
      }
    }
  }

  lemma TrackableStep(files: seq<FileDiff>)
    requires files != []
    ensures AllTrackable(files) <==> AllTrackable(files[1..]) && forall h :: h in files[0].hunks ==> Trackable(h.body)
  {
    assert forall f :: f in files <==> f == files[0] || f in files[1..];
  }

  lemma PathIsFresh(files: seq<FileDiff>)
    requires files != [] && WellFormed(files)
    ensures files[0].path !in Tracked(files[1..]) && files[0].path !in Expected(files[1..])
  {
    KeysOfResults(files[1..], files[0].path);
  }

  lemma SameUpdate(m: LineNumbers, n: LineNumbers, path: string, a: seq<int>, b: seq<int>)
    requires path !in m && path !in n
    ensures m[path := a] == n[path := b] <==> m == n && a == b
  {
    if m[path := a] == n[path := b] {
      assert m[path := a][path] == a && n[path := b][path] == b;
      assert m == m[path := a] - {path} && n == n[path := b] - {path};
    }
  }

  // ------------------------------------------------------------- hidden lines

  /** The recorded numbers as a set of places. */
  ghost function Places(m: LineNumbers): set<(string, int)> { set p, i | p in m && 0 <= i < |m[p]| :: (p, i) }

  predicate Recordable(raw: string) { StartsWith(raw, "+") && !StartsWith(raw, "+++") }

  function Recordables(lines: seq<string>): nat {
    if lines == [] then 0 else (if Recordable(lines[0]) then 1 else 0) + Recordables(lines[1..])
  }

  lemma {:induction false} RecordablesAppend(a: seq<string>, b: seq<string>)
    ensures Recordables(a + b) == Recordables(a) + Recordables(b)
  {
    if a == [] {
      assert a + b == b;
    } else {
      assert (a + b)[1..] == a[1..] + b;
      RecordablesAppend(a[1..], b);
    }
  }

  /** The tracker records at most one number per recordable line. */
  lemma {:induction false} RecordsAtMost(s: State, lines: seq<string>)
    ensures |Places(Track(s, lines).result)| <= |Places(s.result)| + Recordables(lines)
    decreases |lines|
  {
    if lines != [] {
      var t := Step(s, lines[0]);
      RecordsAtMost(t, lines[1..]);
      StepRecords(s, lines[0]);
    }
  }

  lemma StepRecords(s: State, raw: string)
    ensures |Places(Step(s, raw).result)| <= |Places(s.result)| + (if Recordable(raw) then 1 else 0)
  {
    var t := Step(s, raw);
    if t.result != s.result && s.file.Some? && Recordable(raw) && !StartsWith(raw, "+++ b/") {
      var path := s.file.value;
      var numbers := if path in s.result then s.result[path] else [];
      assert Places(s.result) == Places(s.result[path := numbers]);
      OnePlaceMore(s.result, path, numbers, s.line.value);
    } else {
      assert Places(t.result) == Places(s.result);
    }
  }

  lemma OnePlaceMore(m: LineNumbers, path: string, numbers: seq<int>, n: int)
    ensures |Places(m[path := numbers + [n]])| == |Places(m[path := numbers])| + 1
  {
    var before, after := Places(m[path := numbers]), Places(m[path := numbers + [n]]);
    var place := (path, |numbers|);
    assert place !in before;
    assert after == before + {place};
  }

  lemma {:induction false} PlacesOfFile(m: LineNumbers, path: string, numbers: seq<int>)
    requires path !in m
    ensures |Places(m[path := numbers])| == |Places(m)| + |numbers|
  {
    if numbers == [] {
      assert Places(m[path := numbers]) == Places(m);
    } else {
      var k := |numbers| - 1;
      PlacesOfFile(m, path, numbers[..k]);
      OnePlaceMore(m, path, numbers[..k], numbers[k]);
      assert numbers[..k] + [numbers[k]] == numbers;
    }
  }

  function TotalAdded(files: seq<FileDiff>): nat {
    if files == [] then 0 else |FileNumbers(files[0].hunks)| + TotalAdded(files[1..])
  }

  lemma {:induction false} PlacesOfExpected(files: seq<FileDiff>)
    requires WellFormed(files)
    ensures |Places(Expected(files))| == TotalAdded(files)
  {
    if files != [] {
      PlacesOfExpected(files[1..]);
      KeysOfResults(files[1..], files[0].path);
      if files[0].hunks != [] {
        PlacesOfFile(Expected(files[1..]), files[0].path, FileNumbers(files[0].hunks));
      }
    }
  }

  lemma {:induction false} RecordablesOfBody(body: seq<DiffLine>, n: int)
    requires NoHeaders(body) && NoneExtra(body)
    ensures Recordables(BodyText(body)) <= |AddedNumbers(body, n)|
    ensures !NoneHidden(body) ==> Recordables(BodyText(body)) < |AddedNumbers(body, n)|
    decreases |body|
  {
    if body != [] {
      var l, rest := body[0], body[1..];
      LineKinds(l);
      assert BodyText(body)[0] == LineText(l) && BodyText(body)[1..] == BodyText(rest);
      RecordablesOfBody(rest, if l.Added? || l.Context? then n + 1 else n);
      if !NoneHidden(body) && !Hidden(l) {
        var i :| 0 <= i < |body| && Hidden(body[i]);
        assert Hidden(rest[i - 1]);
      }
    }
  }

  lemma {:induction false} RecordablesOfHunks(hunks: seq<Hunk>)
    requires NoHeadersIn(hunks) && NoneExtraIn(hunks)
    ensures Recordables(HunksText(hunks)) <= |FileNumbers(hunks)|
    ensures !NoneHiddenIn(hunks) ==> Recordables(HunksText(hunks)) < |FileNumbers(hunks)|
  {
    if hunks != [] {
      var h, rest := hunks[0], hunks[1..];
      assert HeaderText(h)[0] == '@';
      RecordablesOfHunks(rest);
      RecordablesOfBody(h.body, h.newStart);
      RecordablesAppend(HunkText(h), HunksText(rest));
      assert HunkText(h)[1..] == BodyText(h.body);
    }
  }

  lemma {:induction false} RecordablesOfPreamble(pre: seq<string>)
    requires forall p :: p in pre ==> p == "" || (p[0] != '+' && p[0] != '@')
    ensures Recordables(pre) == 0
  {
    if pre != [] {
      assert pre[0] in pre;
      RecordablesOfPreamble(pre[1..]);
    }
  }

  lemma TitleIsNotRecordable(f: FileDiff)
    ensures !Recordable(Title(f))
  {
    assert Title(f)[0] == '+' && Title(f)[1] == '+' && Title(f)[2] == '+';
  }

  lemma RecordablesOfFile(f: FileDiff)
    requires PlainPreamble(f) && NoneExtraIn(f.hunks) && NoHeadersIn(f.hunks)
    ensures Recordables(FileText(f)) <= |FileNumbers(f.hunks)|
    ensures !NoneHiddenIn(f.hunks) ==> Recordables(FileText(f)) < |FileNumbers(f.hunks)|
  {
    RecordablesOfHunks(f.hunks);
    RecordablesOfPreamble(f.preamble);
    if f.hunks != [] {
      var titled := [Title(f)];
      TitleIsNotRecordable(f);
      assert (titled + HunksText(f.hunks))[1..] == HunksText(f.hunks);
      RecordablesAppend(f.preamble, titled + HunksText(f.hunks));
    } else {
      assert FileText(f) == f.preamble;
    }
  }

  lemma {:induction false} RecordablesOfDiff(files: seq<FileDiff>)
    requires forall f :: f in files ==> PlainPreamble(f) && NoneExtraIn(f.hunks) && NoHeadersIn(f.hunks)
    ensures Recordables(DiffText(files)) <= TotalAdded(files)
    ensures (exists f :: f in files && !NoneHiddenIn(f.hunks)) ==> Recordables(DiffText(files)) < TotalAdded(files)
  {
    if files != [] {
      var f, rest := files[0], files[1..];
      RecordablesOfDiff(rest);
      RecordablesOfFile(f);
      RecordablesAppend(FileText(f), DiffText(rest));
    }
  }

  // ------------------------------------------------------------- the main result

  /** Some added line is hidden from the tracker. */
  ghost predicate SomeHidden(files: seq<FileDiff>) { exists f :: f in files && !NoneHiddenIn(f.hunks) }

  /** Some piece is taken for an added line. */
  ghost predicate SomeExtra(files: seq<FileDiff>) { exists f :: f in files && !NoneExtraIn(f.hunks) }

  /** Some piece reads as the header of a hunk or a file. */
  ghost predicate SomeHeader(files: seq<FileDiff>) { exists f :: f in files && !NoHeadersIn(f.hunks) }

  /**
     Mistakes that can make up for others: a piece may set the right line by accident, and a number too
     many and a number too few may leave the right ones.
   */
  ghost predicate Ambiguous(files: seq<FileDiff>) { SomeHeader(files) || (SomeHidden(files) && SomeExtra(files)) }

  lemma TrackableIsUnambiguous(files: seq<FileDiff>)
    requires AllTrackable(files)
    ensures !SomeHidden(files) && !SomeExtra(files) && !SomeHeader(files)
  {
    forall f, h | f in files && h in f.hunks ensures NoneHidden(h.body) && NoneExtra(h.body) && NoHeaders(h.body) {
      assert Trackable(h.body);
    }
  }

  ghost predicate IsRight(files: seq<FileDiff>) { Track(START, DiffText(files)).result == Expected(files) }

  /**
     For every diff over distinct paths, the tracker run over its lines returns, for each file, the
     new-side numbers of the added lines in order, exactly if every hunk is trackable and no path with
     hunks is quoted. Only in ambiguous diffs can it be right by accident.
   */
  lemma TrackerIsRightIffTrackable(files: seq<FileDiff>)
    requires WellFormed(files)
    ensures AllTrackable(files) && NoneQuoted(files) ==> IsRight(files)
    ensures !Ambiguous(files) && IsRight(files) ==> AllTrackable(files) && NoneQuoted(files)
  {
    if AllTrackable(files) {
      TrackableIsUnambiguous(files);
    }
    if !Ambiguous(files) {
      if SomeHidden(files) {
        HiddenMakesTooFew(files);
      } else if NoneQuoted(files) {
        TrackDiff(START, files);
        assert START.result + Tracked(files) == Tracked(files);
        ResultsAgree(files);
      } else {
        var f :| f in files && f.hunks != [] && f.quoted.Some?;
        QuotedPathIsMissing(files, f);
      }
    }
  }

  lemma HiddenMakesTooFew(files: seq<FileDiff>)
    requires WellFormed(files) && SomeHidden(files) && !SomeExtra(files) && !SomeHeader(files)
    ensures !IsRight(files)
  {
    RecordablesOfDiff(files);
    RecordsAtMost(START, DiffText(files));
    PlacesOfExpected(files);
    assert Places(START.result) == {};
  }

  /** A piece that reads as a hunk header does no harm behind the last added line. */
  lemma HeaderPieceCanBeHarmless(path: string, n: int)
    ensures var body := [Added("a"), Piece("@@")];
      && !Trackable(body)
      && AddedNumbers(body, n) == [n]
      && Track(State(Some(path), Some(n), map[path := []]), BodyText(body)).result == map[path := [n]]
  {
    var body := [Added("a"), Piece("@@")];
    assert HeaderLike(body[1]);
    assert body[1..] == [Piece("@@")] && body[1..][1..] == [];
    assert AddedNumbers(body, n) == [n] + AddedNumbers(body[1..], n + 1);
    assert AddedNumbers(body[1..], n + 1) == AddedNumbers([], n + 1) == [];
    var s := State(Some(path), Some(n), map[path := []]);
    assert LineText(Added("a")) == "+a" && LineText(Piece("@@")) == "@@";
    assert BodyText(body) == ["+a"] + (["@@"] + []);
    assert "+a"[1] == 'a';
    var t := Step(s, "+a");
    var none: seq<int> := [];
    assert none + [n] == [n];
    TrackFirst(s, "+a", ["@@"] + []);
    TrackFirst(t, "@@", []);
  }

  /**
     A piece that looks like an added line and a hidden added line, in this order, leave the right
     number by accident.
   */
  lemma MistakesCanCancel(path: string, n: int)
    ensures var body := [Context("a"), Piece("+b"), Added("++c")];
      && !Trackable(body)
      && AddedNumbers(body, n) == [n + 1]
      && Track(State(Some(path), Some(n), map[path := []]), BodyText(body)).result == map[path := [n + 1]]
  {
    var body := [Context("a"), Piece("+b"), Added("++c")];
    assert Hidden(body[2]);
    assert body[1..] == [Piece("+b"), Added("++c")] && body[1..][1..] == [Added("++c")];
    assert AddedNumbers(body, n) == AddedNumbers(body[1..], n + 1) == AddedNumbers(body[1..][1..], n + 1);
    assert AddedNumbers(body[1..][1..], n + 1) == [n + 1] + AddedNumbers([], n + 2);
    var s := State(Some(path), Some(n), map[path := []]);
    var text := BodyText(body);
    assert LineText(Context("a")) == " a" && LineText(Piece("+b")) == "+b" && LineText(Added("++c")) == "+++c";
    assert text == [" a"] + (["+b"] + (["+++c"] + []));
    assert " a"[0] == ' ' && "+b"[1] == 'b' && "+++c"[3] == 'c';
    var t := Step(s, " a");
    assert t == s.(line := Some(n + 1));
    var u := Step(t, "+b");
    var none: seq<int> := [];
    assert none + [n + 1] == [n + 1];
    assert u == State(Some(path), Some(n + 2), map[path := [n + 1]]);
    assert Step(u, "+++c").result == u.result;
    TrackFirst(s, " a", ["+b"] + (["+++c"] + []));
    TrackFirst(t, "+b", ["+++c"] + []);
    TrackFirst(u, "+++c", []);
  }
}
