/** The tracker of added line numbers in unified diff text, and a printer of structured diffs. */
module DiffLines {
  import opened Basics
  import opened Text

  // ---------------------------------------------------------------- lines of text

  /** The characters at which `splitlines` breaks. */
  predicate IsBreak(c: char) {
    '\n' <= c <= '\r' || '\U{1C}' <= c <= '\U{1E}' || c == '\U{85}' || c == '\U{2028}' || c == '\U{2029}'
  }

  function LineLength(text: string): (n: nat)
    ensures n <= |text| && (n < |text| ==> IsBreak(text[n]))
    ensures forall i :: 0 <= i < n ==> !IsBreak(text[i])
  {
    if text == "" || IsBreak(text[0]) then 0 else 1 + LineLength(text[1..])
  }

  /** `str.splitlines`: a carriage return and a line feed together are one break. */
  function SplitLines(text: string): seq<string> {
    if text == "" then []
    else
      var n := LineLength(text);
      if n == |text| then [text]
      else
        var next := if text[n] == '\r' && n + 1 < |text| && text[n + 1] == '\n' then n + 2 else n + 1;
        [text[..n]] + SplitLines(text[next..])
  }

  predicate Unbroken(s: string) { forall i :: 0 <= i < |s| ==> !IsBreak(s[i]) }

  /** Each line followed by a line feed, or by a carriage return and a line feed where `crlf` says so. */
  function JoinLines(lines: seq<string>, crlf: seq<bool>): string
    requires |lines| == |crlf|
  {
    if lines == [] then "" else lines[0] + (if crlf[0] then "\r\n" else "\n") + JoinLines(lines[1..], crlf[1..])
  }

  // ------------------------------------------------------------------ the tracker

  /** The longest prefix of digits. */
  function LeadingDigits(s: string): (d: string)
    ensures d <= s && (forall i :: 0 <= i < |d| ==> IsDigit(d[i])) && (|d| < |s| ==> !IsDigit(s[|d|]))
  {
    if s == "" || !IsDigit(s[0]) then "" else [s[0]] + LeadingDigits(s[1..])
  }

  /** The number after the first plus sign that is followed by a digit. */
  function NumberAfterPlus(s: string): Option<nat> {
    if s == "" then None
    else if s[0] == '+' && LeadingDigits(s[1..]) != "" then Some(NatValue(LeadingDigits(s[1..])))
    else NumberAfterPlus(s[1..])
  }

  type LineNumbers = map<string, seq<int>>

  datatype State = State(file: Option<string>, line: Option<int>, result: LineNumbers)

  const START := State(None, None, map[])

  function SetDefault(m: LineNumbers, file: string): LineNumbers { if file in m then m else m[file := []] }

  function Append(m: LineNumbers, file: string, n: int): LineNumbers {
    m[file := (if file in m then m[file] else []) + [n]]
  }

  /** One round of the loop. */
  function Step(s: State, raw: string): State {
    if StartsWith(raw, "+++ b/") then State(Some(raw[6..]), s.line, SetDefault(s.result, raw[6..]))
    else if StartsWith(raw, "@@") then s.(line := NumberAfterPlus(raw))
    else if s.file.None? || s.line.None? then s
    else if StartsWith(raw, "+") && !StartsWith(raw, "+++") then
      s.(result := Append(s.result, s.file.value, s.line.value), line := Some(s.line.value + 1))
    else if StartsWith(raw, "-") && !StartsWith(raw, "---") then s
    else s.(line := Some(s.line.value + 1))
  }

  function Track(s: State, lines: seq<string>): State
    decreases |lines|
  {
    if lines == [] then s else Track(Step(s, lines[0]), lines[1..])
  }

  method ChangedLines(diffText: string) returns (result: LineNumbers)
    ensures result == Track(START, SplitLines(diffText)).result
  {
    var currentFile: Option<string>, currentLine: Option<int> := None, None;
    result := map[];
    var lines := SplitLines(diffText);
    for i := 0 to |lines|
      invariant Track(State(currentFile, currentLine, result), lines[i..]) == Track(START, lines)
    {
      var raw := lines[i];
      assert lines[i..][1..] == lines[i + 1..];
      if StartsWith(raw, "+++ b/") {
        currentFile := Some(raw[6..]);
        result := SetDefault(result, currentFile.value);
        continue;
      }
      if StartsWith(raw, "@@") {
        currentLine := NumberAfterPlus(raw);
        continue;
      }
      if currentFile.None? || currentLine.None? {
        continue;
      }
      if StartsWith(raw, "+") && !StartsWith(raw, "+++") {
        result := Append(result, currentFile.value, currentLine.value);
        currentLine := Some(currentLine.value + 1);
      } else if StartsWith(raw, "-") && !StartsWith(raw, "---") {
        continue;
      } else {
        currentLine := Some(currentLine.value + 1);
      }
    }
  }

  // ---------------------------------------------------------- structured diffs

  datatype DiffLine =
    | Context(text: string)
    | Added(text: string)
    | Deleted(text: string)
    | NoNewline             // the line before it ends its file without a line feed
    | Piece(text: string)   // what follows a break inside a line and so becomes a line of its own

  /** The starting lines follow the POSIX convention: an empty range names the line before it. */
  datatype Hunk = Hunk(oldStart: nat, newStart: nat, section: string, body: seq<DiffLine>)

  /**
     `preamble` holds the lines before the new-file line; a file without hunks prints nothing else.
     `quoted` is the rest of the new-file line behind its opening quote, for a path that git quotes.
   */
  datatype FileDiff = FileDiff(preamble: seq<string>, path: string, quoted: Option<string>, hunks: seq<Hunk>)

  /** The new-file line. */
  function Title(f: FileDiff): string {
    match f.quoted case None => "+++ b/" + f.path case Some(rest) => "+++ \"" + rest
  }

  function OldSide(body: seq<DiffLine>): seq<string> {
    if body == [] then []
    else (if body[0].Context? || body[0].Deleted? then [body[0].text] else []) + OldSide(body[1..])
  }

  function NewSide(body: seq<DiffLine>): seq<string> {
    if body == [] then []
    else (if body[0].Context? || body[0].Added? then [body[0].text] else []) + NewSide(body[1..])
  }

  function RangeText(start: nat, count: nat): string {
    if count == 1 then NatText(start) else NatText(start) + "," + NatText(count)
  }

  function HeaderText(h: Hunk): string {
    "@@ -" + RangeText(h.oldStart, |OldSide(h.body)|) + " +" + RangeText(h.newStart, |NewSide(h.body)|) + " @@"
      + h.section
  }

  function LineText(l: DiffLine): string {
    match l
    case Context(text) => " " + text
    case Added(text) => "+" + text
    case Deleted(text) => "-" + text
    case NoNewline => "\\ No newline at end of file"
    case Piece(text) => text
  }

  function BodyText(body: seq<DiffLine>): seq<string> {
    seq(|body|, i requires 0 <= i < |body| => LineText(body[i]))
  }

  function HunkText(h: Hunk): seq<string> { [HeaderText(h)] + BodyText(h.body) }

  function HunksText(hunks: seq<Hunk>): seq<string> {
    if hunks == [] then [] else HunkText(hunks[0]) + HunksText(hunks[1..])
  }

  function FileText(f: FileDiff): seq<string> {
    f.preamble + (if f.hunks == [] then [] else [Title(f)] + HunksText(f.hunks))
  }

  /** The lines of a whole diff. */
  function DiffText(files: seq<FileDiff>): seq<string> {
    if files == [] then [] else FileText(files[0]) + DiffText(files[1..])
  }

  /** The new-side line numbers of the added lines of a hunk body that starts at line `n`. */
  function AddedNumbers(body: seq<DiffLine>, n: int): seq<int> {
    if body == [] then []
    else
      match body[0]
      case Added(_) => [n] + AddedNumbers(body[1..], n + 1)
      case Context(_) => AddedNumbers(body[1..], n + 1)
      case _ => AddedNumbers(body[1..], n)
  }

  function FileNumbers(hunks: seq<Hunk>): seq<int> {
    if hunks == [] then [] else AddedNumbers(hunks[0].body, hunks[0].newStart) + FileNumbers(hunks[1..])
  }

  /** What the tracker is meant to return. */
  function Expected(files: seq<FileDiff>): LineNumbers {
    if files == [] then map[]
    else
      var rest := Expected(files[1..]);
      if files[0].hunks == [] then rest else rest[files[0].path := FileNumbers(files[0].hunks)]
  }

  /** A piece that reads as the header of a hunk or a file. */
  predicate HeaderLike(l: DiffLine) { l.Piece? && (StartsWith(l.text, "@@") || StartsWith(l.text, "+++ b/")) }

  ghost predicate NoHeaders(body: seq<DiffLine>) { forall i :: 0 <= i < |body| ==> !HeaderLike(body[i]) }

  /** Preamble lines are file names and modes: they start with neither a plus nor an at sign. */
  predicate PlainPreamble(f: FileDiff) {
    forall p :: p in f.preamble ==> p == "" || (p[0] != '+' && p[0] != '@')
  }

  /** The diff touches each path once. */
  ghost predicate WellFormed(files: seq<FileDiff>) {
    && (forall i :: 0 <= i < |files| ==> PlainPreamble(files[i]))
    && (forall i, j :: 0 <= i < j < |files| ==> files[i].path != files[j].path)
  }

  // ------------------------------------------------------- the exact condition

  /** Looks like a file header once the plus sign is in front. */
  predicate Hidden(l: DiffLine) { l.Added? && StartsWith(l.text, "++") }

  /** A piece that is taken for an added line. */
  predicate Extra(l: DiffLine) { l.Piece? && StartsWith(l.text, "+") && !StartsWith(l.text, "+++") }

  /** Counted by the tracker although it is no line of the new file. */
  predicate Drifts(l: DiffLine) {
    || l.NoNewline?
    || (l.Deleted? && StartsWith(l.text, "--"))
    || (l.Piece? && !Extra(l) && !(StartsWith(l.text, "-") && !StartsWith(l.text, "---")))
  }

  /**
     No added text starts with `++`, no piece reads as a header or an added line, and nothing is added
     after a line the tracker miscounts.
   */
  ghost predicate Trackable(body: seq<DiffLine>) {
    && NoHeaders(body)
    && (forall i :: 0 <= i < |body| ==> !Hidden(body[i]) && !Extra(body[i]))
    && (forall i, j :: 0 <= i < j < |body| && Drifts(body[i]) ==> !body[j].Added?)
  }

  ghost predicate AllTrackable(files: seq<FileDiff>) {
    forall f, h :: f in files && h in f.hunks ==> Trackable(h.body)
  }

  /** No path of a file with hunks is quoted. */
  ghost predicate NoneQuoted(files: seq<FileDiff>) {
    forall f :: f in files && f.hunks != [] ==> f.quoted.None?
  }

  // ------------------------------------------------------------ applying a diff

  /** The index in the old file at which a hunk starts. */
  function OldIndex(h: Hunk): int { if OldSide(h.body) == [] then h.oldStart else h.oldStart - 1 }

  /** The index in the new file at which a hunk starts. */
  function NewIndex(h: Hunk): int { if NewSide(h.body) == [] then h.newStart else h.newStart - 1 }

  /**
     Applies hunks to the old file from position `pos` on, `done` being the new file so far. A hunk
     applies where its old side is found, and its new start must be the place it is written to.
   */
  function Apply(prior: seq<string>, pos: nat, done: seq<string>, hunks: seq<Hunk>): Option<seq<string>>
    requires pos <= |prior|
    decreases |hunks|
  {
    if hunks == [] then Some(done + prior[pos..])
    else
      var h := hunks[0];
      var at := OldIndex(h);
      var end := at + |OldSide(h.body)|;
      if pos <= at && end <= |prior| && prior[at..end] == OldSide(h.body) && NewIndex(h) == |done| + (at - pos)
      then Apply(prior, end, done + prior[pos..at] + NewSide(h.body), hunks[1..])
      else None
  }

  function AddedTexts(body: seq<DiffLine>): seq<string> {
    if body == [] then [] else (if body[0].Added? then [body[0].text] else []) + AddedTexts(body[1..])
  }

  function FileTexts(hunks: seq<Hunk>): seq<string> {
    if hunks == [] then [] else AddedTexts(hunks[0].body) + FileTexts(hunks[1..])
  }

  /** Line `numbers[k]` of the file, counting from 1, is `texts[k]`. */
  ghost predicate LinesAre(file: seq<string>, numbers: seq<int>, texts: seq<string>) {
    && |numbers| == |texts|
    && forall k :: 0 <= k < |numbers| ==> 1 <= numbers[k] <= |file| && file[numbers[k] - 1] == texts[k]
  }

  ghost predicate Increasing(s: seq<int>) { forall i, j :: 0 <= i < j < |s| ==> s[i] < s[j] }
}
