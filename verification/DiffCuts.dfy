/**
 Breaks inside the lines of a diff. `splitlines` also breaks at form feeds and other characters that
 end no line of a file; the pieces become lines of their own for the tracker.
 */
module DiffCuts {
  import opened Basics
  import opened DiffLines
  import DiffFiles
  import DiffProofs

  /** A line at its inner breaks. */
  function CutText(line: string): (r: seq<string>)
    ensures r != []
  {
    var n := LineLength(line);
    if n == |line| then [line] else [line[..n]] + CutText(line[n + 1..])
  }

  function CutAll(lines: seq<string>): seq<string> {
    if lines == [] then [] else CutText(lines[0]) + CutAll(lines[1..])
  }

  /**
     What may stand in a line: no line feed, and a carriage return at the end only before a carriage
     return and a line feed.
   */
  predicate IsLine(line: string, crlf: bool) {
    '\n' !in line && (crlf || line == "" || line[|line| - 1] != '\r')
  }

  lemma {:induction false} SplitCuts(line: string, crlf: bool, rest: string)
    requires IsLine(line, crlf)
    ensures SplitLines(line + (DiffFiles.End(crlf) + rest)) == CutText(line) + SplitLines(rest)
    decreases |line|
  {
    var n := LineLength(line);
    if n == |line| {
      DiffFiles.SplitFirst(line, crlf, rest);
    } else {
      var before, after := line[..n], line[n + 1..];
      assert line == before + ([line[n]] + after);
      SplitAtInnerBreak(before, line[n], after, crlf, rest);
      SplitCuts(after, crlf, rest);
      CutStep(line, n);
      Prepend(before, CutText(after), SplitLines(rest));
    }
  }

  lemma CutStep(line: string, n: nat)
    requires n == LineLength(line) < |line|
    ensures CutText(line) == [line[..n]] + CutText(line[n + 1..])
  {
  }

  lemma Prepend<T>(x: T, a: seq<T>, b: seq<T>)
    ensures [x] + (a + b) == [x] + a + b
  {
  }

  lemma SplitAtInnerBreak(before: string, mark: char, after: string, crlf: bool, rest: string)
    requires Unbroken(before) && IsBreak(mark) && IsLine(before + ([mark] + after), crlf)
    ensures SplitLines(before + ([mark] + after) + (DiffFiles.End(crlf) + rest))
      == [before] + SplitLines(after + (DiffFiles.End(crlf) + rest))
    ensures IsLine(after, crlf)
  {
    var end := DiffFiles.End(crlf) + rest;
    AfterTheBreak(before, mark, after, crlf, rest);
    assert before + ([mark] + after) + end == before + ([mark] + (after + end));
    SplitOnce(before, mark, after + end);
  }

  /** A break that is not the first half of a carriage return and a line feed. */
  lemma SplitOnce(before: string, mark: char, rest: string)
    requires Unbroken(before) && IsBreak(mark) && rest != "" && (mark == '\r' ==> rest[0] != '\n')
    ensures SplitLines(before + ([mark] + rest)) == [before] + SplitLines(rest)
  {
    var text, n := before + ([mark] + rest), |before|;
    DiffFiles.LineEndsAtBreak(before, [mark] + rest);
    assert text[..n] == before && text[n] == mark && text[n + 1] == rest[0];
    assert text[n + 1..] == rest;
  }

  lemma AfterTheBreak(before: string, mark: char, after: string, crlf: bool, rest: string)
    requires IsBreak(mark) && IsLine(before + ([mark] + after), crlf)
    ensures IsLine(after, crlf)
    ensures var end := after + (DiffFiles.End(crlf) + rest); end != "" && (mark == '\r' ==> end[0] != '\n')
  {
    var line, n := before + ([mark] + after), |before|;
    assert line[n] == mark;
    forall c | c in after ensures c in line {
      var i :| 0 <= i < |after| && after[i] == c;
      assert line[n + 1 + i] == c;
    }
    if after != "" {
      assert line[|line| - 1] == after[|after| - 1];
      assert after[0] in after;
    } else {
      assert line[|line| - 1] == mark;
    }
  }

  lemma {:induction false} SplitUndoesJoin(lines: seq<string>, crlf: seq<bool>)
    requires |lines| == |crlf| && forall i :: 0 <= i < |lines| ==> IsLine(lines[i], crlf[i])
    ensures SplitLines(JoinLines(lines, crlf)) == CutAll(lines)
  {
    if lines != [] {
      SplitUndoesJoin(lines[1..], crlf[1..]);
      DiffFiles.JoinStep(lines, crlf);
      SplitCuts(lines[0], crlf[0], JoinLines(lines[1..], crlf[1..]));
    }
  }

  // ----------------------------------------------------------------- cutting a diff

  function Pieces(texts: seq<string>): seq<DiffLine> { seq(|texts|, i requires 0 <= i < |texts| => Piece(texts[i])) }

  function CutLine(l: DiffLine): seq<DiffLine> {
    if l.NoNewline? then [l]
    else
      var cut := CutText(l.text);
      [WithText(l, cut[0])] + Pieces(cut[1..])
  }

  function WithText(l: DiffLine, text: string): DiffLine {
    match l
    case Context(_) => Context(text)
    case Added(_) => Added(text)
    case Deleted(_) => Deleted(text)
    case NoNewline => NoNewline
    case Piece(_) => Piece(text)
  }

  function Marker(l: DiffLine): string {
    match l case Context(_) => " " case Added(_) => "+" case Deleted(_) => "-" case _ => ""
  }

  function CutBody(body: seq<DiffLine>): seq<DiffLine> {
    if body == [] then [] else CutLine(body[0]) + CutBody(body[1..])
  }

  function CutHunk(h: Hunk): Hunk {
    var cut := CutText(h.section);
    Hunk(h.oldStart, h.newStart, cut[0], Pieces(cut[1..]) + CutBody(h.body))
  }

  function CutHunks(hunks: seq<Hunk>): seq<Hunk> {
    if hunks == [] then [] else [CutHunk(hunks[0])] + CutHunks(hunks[1..])
  }

  /** The diff whose lines are what `splitlines` makes of the printed lines. */
  function Cut(files: seq<FileDiff>): seq<FileDiff> {
    if files == [] then [] else [files[0].(hunks := CutHunks(files[0].hunks))] + Cut(files[1..])
  }

  lemma {:induction false} CutAppend(a: seq<string>, b: seq<string>)
    ensures CutAll(a + b) == CutAll(a) + CutAll(b)
  {
    if a == [] {
      assert a + b == b;
    } else {
      assert (a + b)[1..] == a[1..] + b;
      CutAppend(a[1..], b);
    }
  }

  lemma LengthOfUnbroken(s: string)
    ensures LineLength(s) == |s| <==> Unbroken(s)
  {
    if LineLength(s) < |s| {
      assert IsBreak(s[LineLength(s)]);
    }
  }

  lemma {:induction false} UnbrokenStays(lines: seq<string>)
    requires forall l :: l in lines ==> Unbroken(l)
    ensures CutAll(lines) == lines
  {
    if lines != [] {
      assert lines[0] in lines;
      LengthOfUnbroken(lines[0]);
      UnbrokenStays(lines[1..]);
    }
  }

  lemma {:induction false} LengthAfter(prefix: string, text: string)
    requires Unbroken(prefix)
    ensures LineLength(prefix + text) == |prefix| + LineLength(text)
  {
    if prefix == "" {
      assert prefix + text == text;
    } else {
      assert (prefix + text)[1..] == prefix[1..] + text;
      LengthAfter(prefix[1..], text);
    }
  }

  /** An unbroken beginning stays with the first piece. */
  lemma CutPrefix(prefix: string, text: string)
    requires Unbroken(prefix)
    ensures CutText(prefix + text) == [prefix + CutText(text)[0]] + CutText(text)[1..]
  {
    LengthAfter(prefix, text);
    if LineLength(text) < |text| {
      CutBroken(prefix, text, LineLength(text));
    } else {
      assert CutText(text) == [text] && CutText(prefix + text) == [prefix + text];
    }
  }

  lemma CutBroken(prefix: string, text: string, n: nat)
    requires n == LineLength(text) < |text| && LineLength(prefix + text) == |prefix| + n
    ensures CutText(prefix + text) == [prefix + CutText(text)[0]] + CutText(text)[1..]
  {
    CutStep(text, n);
    CutStep(prefix + text, |prefix| + n);
    SameRest(prefix, text, n);
  }

  lemma SameRest(prefix: string, text: string, n: nat)
    requires n < |text|
    ensures (prefix + text)[..|prefix| + n] == prefix + text[..n]
    ensures (prefix + text)[|prefix| + n + 1..] == text[n + 1..]
  {
  }

  lemma PiecesText(texts: seq<string>)
    ensures BodyText(Pieces(texts)) == texts
  {
  }

  lemma BodyTextAppend(a: seq<DiffLine>, b: seq<DiffLine>)
    ensures BodyText(a + b) == BodyText(a) + BodyText(b)
  {
  }

  lemma MarkedText(l: DiffLine, text: string)
    requires !l.NoNewline?
    ensures LineText(WithText(l, text)) == Marker(l) + text && Unbroken(Marker(l))
  {
  }

  lemma HeadAndPieces(l: DiffLine, texts: seq<string>)
    ensures BodyText([l] + Pieces(texts)) == [LineText(l)] + texts
  {
    BodyTextAppend([l], Pieces(texts));
    PiecesText(texts);
    assert BodyText([l]) == [LineText(l)];
  }

  lemma CutLineText(l: DiffLine)
    ensures BodyText(CutLine(l)) == CutText(LineText(l))
  {
    if l.NoNewline? {
      NoNewlineIsUnbroken();
      Uncut(LineText(l));
      OneLine(l);
    } else {
      CutMarkedLine(l, Marker(l), LineText(l));
    }
  }

  lemma NoNewlineIsUnbroken()
    ensures Unbroken(LineText(NoNewline))
  {
  }

  lemma Uncut(line: string)
    requires Unbroken(line)
    ensures CutText(line) == [line]
  {
    LengthOfUnbroken(line);
  }

  lemma OneLine(l: DiffLine)
    ensures BodyText([l]) == [LineText(l)]
  {
  }

  lemma CutMarkedLine(l: DiffLine, marker: string, raw: string)
    requires !l.NoNewline? && marker == Marker(l) && raw == LineText(l)
    ensures BodyText(CutLine(l)) == CutText(raw)
  {
    var first, rest := CutText(l.text)[0], CutText(l.text)[1..];
    MarkedText(l, l.text);
    assert l == WithText(l, l.text);
    CutPrefix(marker, l.text);
    MarkedText(l, first);
    HeadAndPieces(WithText(l, first), rest);
  }

  lemma {:induction false} CutBodyText(body: seq<DiffLine>)
    ensures BodyText(CutBody(body)) == CutAll(BodyText(body))
    decreases |body|
  {
    if body != [] {
      CutBodyText(body[1..]);
      CutLineText(body[0]);
      BodyTextAppend(CutLine(body[0]), CutBody(body[1..]));
      assert BodyText(body)[0] == LineText(body[0]) && BodyText(body)[1..] == BodyText(body[1..]);
    }
  }

  function OldPart(l: DiffLine): seq<string> { if l.Context? || l.Deleted? then [l.text] else [] }

  function NewPart(l: DiffLine): seq<string> { if l.Context? || l.Added? then [l.text] else [] }

  lemma SidesStep(body: seq<DiffLine>)
    requires body != []
    ensures OldSide(body) == OldPart(body[0]) + OldSide(body[1..])
    ensures NewSide(body) == NewPart(body[0]) + NewSide(body[1..])
  {
  }

  lemma Associate<T>(a: seq<T>, b: seq<T>, c: seq<T>)
    ensures a + (b + c) == a + b + c
  {
  }

  lemma {:induction false} SidesAppend(a: seq<DiffLine>, b: seq<DiffLine>)
    ensures OldSide(a + b) == OldSide(a) + OldSide(b)
    ensures NewSide(a + b) == NewSide(a) + NewSide(b)
    decreases |a|
  {
    if a == [] {
      assert a + b == b;
    } else {
      SidesAppend(a[1..], b);
      SidesStep(a);
      SidesStep(a + b);
      assert (a + b)[1..] == a[1..] + b;
      Associate(OldPart(a[0]), OldSide(a[1..]), OldSide(b));
      Associate(NewPart(a[0]), NewSide(a[1..]), NewSide(b));
    }
  }

  lemma {:induction false} PiecesHaveNoSides(texts: seq<string>)
    ensures OldSide(Pieces(texts)) == [] && NewSide(Pieces(texts)) == []
  {
    if texts != [] {
      assert Pieces(texts)[1..] == Pieces(texts[1..]);
      PiecesHaveNoSides(texts[1..]);
    }
  }

  lemma CutLineSides(l: DiffLine)
    ensures |OldSide(CutLine(l))| == |OldSide([l])| && |NewSide(CutLine(l))| == |NewSide([l])|
  {
    if !l.NoNewline? {
      var pieces := Pieces(CutText(l.text)[1..]);
      PiecesHaveNoSides(CutText(l.text)[1..]);
      SidesAppend([CutLine(l)[0]], pieces);
    }
  }

  lemma {:induction false} CutBodySides(body: seq<DiffLine>)
    ensures |OldSide(CutBody(body))| == |OldSide(body)| && |NewSide(CutBody(body))| == |NewSide(body)|
    decreases |body|
  {
    if body != [] {
      CutBodySides(body[1..]);
      CutLineSides(body[0]);
      SidesAppend(CutLine(body[0]), CutBody(body[1..]));
      SidesAppend([body[0]], body[1..]);
      assert body == [body[0]] + body[1..];
    }
  }

  lemma CutHunkSides(h: Hunk)
    ensures |OldSide(CutHunk(h).body)| == |OldSide(h.body)| && |NewSide(CutHunk(h).body)| == |NewSide(h.body)|
  {
    var pieces := CutText(h.section)[1..];
    PiecesHaveNoSides(pieces);
    SidesAppend(Pieces(pieces), CutBody(h.body));
    CutBodySides(h.body);
  }

  /** The header up to its section text. */
  function HeaderStart(h: Hunk): string {
    "@@ -" + RangeText(h.oldStart, |OldSide(h.body)|) + " +" + RangeText(h.newStart, |NewSide(h.body)|) + " @@"
  }

  lemma HeaderStartIsUnbroken(h: Hunk)
    ensures Unbroken(HeaderStart(h))
  {
    var a, b := RangeText(h.oldStart, |OldSide(h.body)|), RangeText(h.newStart, |NewSide(h.body)|);
    assert Unbroken(a) && Unbroken(b);
  }

  lemma CutHeaderText(h: Hunk)
    ensures CutText(HeaderText(h)) == [HeaderText(CutHunk(h))] + CutText(h.section)[1..]
  {
    HeaderStartIsUnbroken(h);
    CutPrefix(HeaderStart(h), h.section);
    CutHunkSides(h);
  }

  lemma CutHunkText(h: Hunk)
    ensures HunkText(CutHunk(h)) == CutAll(HunkText(h))
  {
    var pieces := CutText(h.section)[1..];
    CutHeaderText(h);
    PiecesText(pieces);
    CutBodyText(h.body);
    BodyTextAppend(Pieces(pieces), CutBody(h.body));
    CutFirst(HeaderText(h), BodyText(h.body));
    Prepend(HeaderText(CutHunk(h)), pieces, CutAll(BodyText(h.body)));
  }

  lemma CutFirst(line: string, lines: seq<string>)
    ensures CutAll([line] + lines) == CutText(line) + CutAll(lines)
  {
    assert ([line] + lines)[1..] == lines;
  }

  lemma {:induction false} CutHunksText(hunks: seq<Hunk>)
    ensures HunksText(CutHunks(hunks)) == CutAll(HunksText(hunks))
  {
    if hunks != [] {
      var cut := CutHunks(hunks);
      CutHunkText(hunks[0]);
      CutHunksText(hunks[1..]);
      CutAppend(HunkText(hunks[0]), HunksText(hunks[1..]));
      assert cut[0] == CutHunk(hunks[0]) && cut[1..] == CutHunks(hunks[1..]);
    }
  }

  /** Only lines of the files and section texts can hold breaks; names are quoted. */
  ghost predicate PlainNames(files: seq<FileDiff>) {
    forall f :: f in files ==> Unbroken(Title(f)) && forall p :: p in f.preamble ==> Unbroken(p)
  }

  lemma CutFileText(f: FileDiff)
    requires Unbroken(Title(f)) && forall p :: p in f.preamble ==> Unbroken(p)
    ensures FileText(f.(hunks := CutHunks(f.hunks))) == CutAll(FileText(f))
  {
    UnbrokenStays(f.preamble);
    if f.hunks == [] {
      assert FileText(f) == f.preamble;
    } else {
      var title := [Title(f)];
      UnbrokenStays(title);
      CutHunksText(f.hunks);
      CutAppend(title, HunksText(f.hunks));
      CutAppend(f.preamble, title + HunksText(f.hunks));
    }
  }

  lemma {:induction false} CutDiffText(files: seq<FileDiff>)
    requires PlainNames(files)
    ensures DiffText(Cut(files)) == CutAll(DiffText(files))
  {
    if files != [] {
      var cut := Cut(files);
      CutFileText(files[0]);
      CutDiffText(files[1..]);
      CutAppend(FileText(files[0]), DiffText(files[1..]));
      assert cut[1..] == Cut(files[1..]);
    }
  }

  // -------------------------------------------------------- the expected numbers stay

  lemma {:induction false} PiecesAddNothing(texts: seq<string>, body: seq<DiffLine>, n: int)
    ensures AddedNumbers(Pieces(texts) + body, n) == AddedNumbers(body, n)
  {
    var all := Pieces(texts) + body;
    if texts == [] {
      assert all == body;
    } else {
      assert all[1..] == Pieces(texts[1..]) + body;
      PiecesAddNothing(texts[1..], body, n);
    }
  }

  lemma {:induction false} CutBodyNumbers(body: seq<DiffLine>, n: int)
    ensures AddedNumbers(CutBody(body), n) == AddedNumbers(body, n)
    decreases |body|
  {
    if body != [] {
      var l, rest := body[0], body[1..];
      CutBodyNumbers(rest, if l.Added? || l.Context? then n + 1 else n);
      CutLineNumbers(l, CutBody(rest), n);
    }
  }

  /** A cut line counts as the line itself. */
  lemma CutLineNumbers(l: DiffLine, rest: seq<DiffLine>, n: int)
    ensures AddedNumbers(CutLine(l) + rest, n) ==
      if l.Added? then [n] + AddedNumbers(rest, n + 1) else if l.Context? then AddedNumbers(rest, n + 1)
        else AddedNumbers(rest, n)
  {
    if l.NoNewline? {
      FirstNumbers(l, rest, n);
    } else {
      var cut := CutText(l.text);
      assert CutLine(l) + rest == [WithText(l, cut[0])] + (Pieces(cut[1..]) + rest);
      FirstNumbers(WithText(l, cut[0]), Pieces(cut[1..]) + rest, n);
      PiecesAddNothing(cut[1..], rest, if l.Added? || l.Context? then n + 1 else n);
    }
  }

  lemma FirstNumbers(l: DiffLine, rest: seq<DiffLine>, n: int)
    ensures AddedNumbers([l] + rest, n) ==
      if l.Added? then [n] + AddedNumbers(rest, n + 1) else if l.Context? then AddedNumbers(rest, n + 1)
        else AddedNumbers(rest, n)
  {
    assert ([l] + rest)[1..] == rest;
  }

  lemma {:induction false} CutHunksNumbers(hunks: seq<Hunk>)
    ensures FileNumbers(CutHunks(hunks)) == FileNumbers(hunks)
  {
    if hunks != [] {
      var h, cut := hunks[0], CutHunks(hunks);
      CutHunksNumbers(hunks[1..]);
      CutBodyNumbers(h.body, h.newStart);
      PiecesAddNothing(CutText(h.section)[1..], CutBody(h.body), h.newStart);
      assert cut[0] == CutHunk(h) && cut[1..] == CutHunks(hunks[1..]);
    }
  }

  lemma {:induction false} CutKeepsExpected(files: seq<FileDiff>)
    ensures Expected(Cut(files)) == Expected(files)
  {
    if files != [] {
      CutKeepsExpected(files[1..]);
      CutHunksNumbers(files[0].hunks);
      assert Cut(files)[1..] == Cut(files[1..]);
    }
  }

  lemma {:induction false} CutOfFiles(files: seq<FileDiff>)
    ensures |Cut(files)| == |files|
    ensures forall i :: 0 <= i < |files| ==> Cut(files)[i] == files[i].(hunks := CutHunks(files[i].hunks))
  {
    if files != [] {
      CutOfFiles(files[1..]);
    }
  }

  lemma CutKeepsFiles(files: seq<FileDiff>)
    ensures WellFormed(files) ==> WellFormed(Cut(files))
    ensures NoneQuoted(files) <==> NoneQuoted(Cut(files))
  {
    CutOfFiles(files);
    forall i | 0 <= i < |files| ensures Cut(files)[i] in Cut(files) && files[i] in files {
      assert files[i].hunks == [] <==> CutHunks(files[i].hunks) == [];
    }
  }

  /**
     For the text of any diff over distinct paths, whatever breaks its lines hold inside and with
     either kind of line end, `ChangedLines` returns the expected numbers if every hunk is trackable once
     its lines are cut at those breaks and no path with hunks is quoted; and unless the cut diff is
     ambiguous, only then.
   */
  lemma BrokenTextIsTrackedIffTrackable(files: seq<FileDiff>, crlf: seq<bool>)
    requires PlainNames(files) && |crlf| == |DiffText(files)|
    requires forall i :: 0 <= i < |crlf| ==> IsLine(DiffText(files)[i], crlf[i])
    requires WellFormed(files)
    ensures var right := Track(START, SplitLines(JoinLines(DiffText(files), crlf))).result == Expected(files);
      && (AllTrackable(Cut(files)) && NoneQuoted(files) ==> right)
      && (!DiffProofs.Ambiguous(Cut(files)) && right ==> AllTrackable(Cut(files)) && NoneQuoted(files))
  {
    SplitUndoesJoin(DiffText(files), crlf);
    CutDiffText(files);
    CutKeepsExpected(files);
    CutKeepsFiles(files);
    DiffProofs.TrackerIsRightIffTrackable(Cut(files));
  }
}
