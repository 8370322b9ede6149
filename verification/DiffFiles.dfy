/** From diff text to line numbers, and from line numbers to the lines of the new file. */
module DiffFiles {
  import opened Basics
  import opened DiffLines
  import DiffProofs

  // ------------------------------------------------------------------ diff text

  lemma {:induction false} LineEndsAtBreak(line: string, rest: string)
    requires Unbroken(line) && rest != "" && IsBreak(rest[0])
    ensures LineLength(line + rest) == |line|
  {
    if line != "" {
      assert (line + rest)[1..] == line[1..] + rest;
      LineEndsAtBreak(line[1..], rest);
    } else {
      assert line + rest == rest;
    }
  }

  /** Splitting undoes joining as long as no line contains a break of its own. */
  lemma {:induction false} SplitUndoesJoin(lines: seq<string>, crlf: seq<bool>)
    requires |lines| == |crlf| && forall l :: l in lines ==> Unbroken(l)
    ensures SplitLines(JoinLines(lines, crlf)) == lines
  {
    if lines != [] {
      assert lines[0] in lines;
      SplitUndoesJoin(lines[1..], crlf[1..]);
      JoinStep(lines, crlf);
      SplitFirst(lines[0], crlf[0], JoinLines(lines[1..], crlf[1..]));
      assert [lines[0]] + lines[1..] == lines;
    }
  }

  lemma JoinStep(lines: seq<string>, crlf: seq<bool>)
    requires |lines| == |crlf| > 0
    ensures JoinLines(lines, crlf) == lines[0] + (End(crlf[0]) + JoinLines(lines[1..], crlf[1..]))
  {
  }

  function End(crlf: bool): string { if crlf then "\r\n" else "\n" }

  lemma SplitFirst(line: string, crlf: bool, rest: string)
    requires Unbroken(line)
    ensures SplitLines(line + (End(crlf) + rest)) == [line] + SplitLines(rest)
  {
    if crlf {
      var text := line + ("\r\n" + rest);
      LineEndsAtBreak(line, "\r\n" + rest);
      assert text[..|line|] == line && text[|line|] == '\r' && text[|line| + 1] == '\n' && text[|line| + 2..] == rest;
    } else {
      assert "\n" + rest == ['\n'] + rest;
      SplitStep(line, '\n', rest);
    }
  }

  /**
     For the text of any diff over distinct paths without breaks inside its lines, with either kind of
     line end, `ChangedLines` returns the expected numbers exactly if every hunk is trackable and no path
     with hunks is quoted.
   */
  lemma TextIsTrackedIffTrackable(files: seq<FileDiff>, crlf: seq<bool>)
    requires WellFormed(files)
    requires |crlf| == |DiffText(files)|
    requires forall l :: l in DiffText(files) ==> Unbroken(l)
    ensures var right := Track(START, SplitLines(JoinLines(DiffText(files), crlf))).result == Expected(files);
      && (AllTrackable(files) && NoneQuoted(files) ==> right)
      && (!DiffProofs.Ambiguous(files) && right ==> AllTrackable(files) && NoneQuoted(files))
  {
    SplitUndoesJoin(DiffText(files), crlf);
    DiffProofs.TrackerIsRightIffTrackable(files);
  }

  const FORM_FEED_BODY := [Added("x\U{0C}y"), Added("z")]

  lemma SplitStep(line: string, end: char, rest: string)
    requires Unbroken(line) && IsBreak(end) && end != '\r'
    ensures SplitLines(line + ([end] + rest)) == [line] + SplitLines(rest)
  {
    var text := line + ([end] + rest);
    LineEndsAtBreak(line, [end] + rest);
    assert text[..|line|] == line && text[|line|] == end && text[|line| + 1..] == rest;
  }

  lemma FormFeedSplits()
    ensures SplitLines(JoinLines(BodyText(FORM_FEED_BODY), [false, false])) == ["+x", "y", "+z"]
  {
    FormFeedText();
    var last := JoinLines(["+z"], [false]);
    SplitUndoesJoin(["+z"], [false]);
    SplitStep("y", '\n', last);
    SplitStep("+x", '\U{0C}', "y" + (['\n'] + last));
  }

  lemma FormFeedText()
    ensures JoinLines(BodyText(FORM_FEED_BODY), [false, false]) == "+x"
      + (['\U{0C}'] + ("y" + (['\n'] + JoinLines(["+z"], [false]))))
  {
    var lines := BodyText(FORM_FEED_BODY);
    assert LineText(FORM_FEED_BODY[0]) == "+x\U{0C}y" && LineText(FORM_FEED_BODY[1]) == "+z";
    assert lines == ["+x\U{0C}y", "+z"];
    assert lines[1..] == ["+z"] && [false, false][1..] == [false];
    JoinStep(lines, [false, false]);
    assert "+x\U{0C}y" == "+x" + (['\U{0C}'] + "y");
  }

  /** A form feed inside an added line counts as a line of its own and shifts the numbers after it. */
  lemma FormFeedShiftsNumbers(path: string, n: int)
    ensures Track(State(Some(path), Some(n), map[path := []]), ["+x", "y", "+z"]).result == map[path := [n, n + 2]]
    ensures AddedNumbers(FORM_FEED_BODY, n) == [n, n + 1]
    ensures SplitLines(JoinLines(BodyText(FORM_FEED_BODY), [false, false])) == ["+x", "y", "+z"]
  {
    FormFeedSplits();
    var s := State(Some(path), Some(n), map[path := []]);
    assert LineText(Added("x")) == "+x" && LineText(Added("z")) == "+z";
    DiffProofs.StepOnLine(s, Added("x"));
    var t := Step(s, "+x");
    var none: seq<int> := [];
    assert none + [n] == [n];
    assert t.result == map[path := [n]];
    assert "y"[0] == 'y';
    assert Step(t, "y") == t.(line := Some(n + 2));
    DiffProofs.StepOnLine(Step(t, "y"), Added("z"));
    assert [n] + [n + 2] == [n, n + 2];
    assert FORM_FEED_BODY[1..] == [Added("z")] && [Added("z")][1..] == [];
    assert AddedNumbers([Added("z")], n + 1) == [n + 1] + AddedNumbers([], n + 2);
    assert ["+x", "y", "+z"][1..] == ["y", "+z"] && ["y", "+z"][1..] == ["+z"];
    assert Track(s, ["+x", "y", "+z"]) == Step(Step(Step(s, "+x"), "y"), "+z");
  }

  // --------------------------------------------------------------- the new file

  /** The numbers of a body that starts at line `n` increase and stay within its new side. */
  lemma {:induction false} NumbersInRange(body: seq<DiffLine>, n: int)
    ensures Increasing(AddedNumbers(body, n))
    ensures forall k :: 0 <= k < |AddedNumbers(body, n)| ==> n <= AddedNumbers(body, n)[k] < n + |NewSide(body)|
    decreases |body|
  {
    if body != [] {
      NumbersInRange(body[1..], if body[0].Added? || body[0].Context? then n + 1 else n);
    }
  }

  lemma LinesShift(file: seq<string>, n: int, text: string, numbers: seq<int>, texts: seq<string>)
    requires 0 < n <= |file| && file[n - 1] == text && LinesAre(file, numbers, texts)
    ensures LinesAre(file, [n] + numbers, [text] + texts)
  {
  }

  lemma NextLine(before: seq<string>, line: string, side: seq<string>, after: seq<string>)
    ensures before + [line] + side + after == before + ([line] + side) + after
    ensures (before + [line] + side + after)[|before|] == line
  {
  }

  lemma BodyLinesStep(file: seq<string>, n: nat, body: seq<DiffLine>)
    requires body != [] && (body[0].Added? || body[0].Context?) && n < |file| && file[n] == body[0].text
    requires LinesAre(file, AddedNumbers(body[1..], n + 2), AddedTexts(body[1..]))
    ensures LinesAre(file, AddedNumbers(body, n + 1), AddedTexts(body))
  {
    var numbers, texts := AddedNumbers(body[1..], n + 2), AddedTexts(body[1..]);
    AddedStep(body, n + 1);
    if body[0].Added? {
      LinesShift(file, n + 1, body[0].text, numbers, texts);
    }
  }

  lemma AddedStep(body: seq<DiffLine>, n: int)
    requires body != [] && (body[0].Added? || body[0].Context?)
    ensures AddedNumbers(body, n) ==
      if body[0].Added? then [n] + AddedNumbers(body[1..], n + 1) else AddedNumbers(body[1..], n + 1)
    ensures AddedTexts(body) == if body[0].Added? then [body[0].text] + AddedTexts(body[1..]) else AddedTexts(body[1..])
  {
    assert [] + AddedTexts(body[1..]) == AddedTexts(body[1..]);
  }

  /** A body that is written between two parts of a file numbers its added lines as they stand there. */
  lemma {:induction false} BodyLines(file: seq<string>, before: seq<string>, body: seq<DiffLine>, after: seq<string>)
    requires file == before + NewSide(body) + after
    ensures LinesAre(file, AddedNumbers(body, |before| + 1), AddedTexts(body))
    decreases |body|
  {
    if body != [] {
      var l, rest := body[0], body[1..];
      if l.Added? || l.Context? {
        assert NewSide(body) == [l.text] + NewSide(rest);
        NextLine(before, l.text, NewSide(rest), after);
        BodyLines(file, before + [l.text], rest, after);
        BodyLinesStep(file, |before|, body);
      } else {
        assert NewSide(body) == NewSide(rest);
        BodyLines(file, before, rest, after);
      }
    }
  }

  lemma {:induction false} NothingNewNothingAdded(body: seq<DiffLine>, n: int)
    requires NewSide(body) == []
    ensures AddedNumbers(body, n) == [] && AddedTexts(body) == []
    decreases |body|
  {
    if body != [] {
      NothingNewNothingAdded(body[1..], n);
    }
  }

  /** The numbers of a hunk that is written at index `n`. */
  lemma HunkNumbers(h: Hunk, n: nat)
    requires NewIndex(h) == n
    ensures AddedNumbers(h.body, h.newStart) == AddedNumbers(h.body, n + 1)
  {
    if NewSide(h.body) == [] {
      NothingNewNothingAdded(h.body, h.newStart);
      NothingNewNothingAdded(h.body, n + 1);
    }
  }

  lemma {:induction false} ApplyExtends(prior: seq<string>, pos: nat, done: seq<string>, hunks: seq<Hunk>)
    requires pos <= |prior| && Apply(prior, pos, done, hunks).Some?
    ensures done <= Apply(prior, pos, done, hunks).value
    decreases |hunks|
  {
    if hunks != [] {
      var h := hunks[0];
      var at := OldIndex(h);
      ApplyExtends(prior, at + |OldSide(h.body)|, done + prior[pos..at] + NewSide(h.body), hunks[1..]);
    }
  }

  lemma LinesConcatenate(file: seq<string>, a: seq<int>, b: seq<int>, s: seq<string>, t: seq<string>)
    requires LinesAre(file, a, s) && LinesAre(file, b, t)
    ensures LinesAre(file, a + b, s + t)
  {
  }

  lemma {:induction false} AppliedLines(prior: seq<string>, pos: nat, done: seq<string>, hunks: seq<Hunk>)
    requires pos <= |prior| && Apply(prior, pos, done, hunks).Some?
    ensures LinesAre(Apply(prior, pos, done, hunks).value, FileNumbers(hunks), FileTexts(hunks))
    ensures Increasing(FileNumbers(hunks))
    ensures forall x :: x in FileNumbers(hunks) ==> x > |done|
    decreases |hunks|
  {
    if hunks != [] {
      var h, rest := hunks[0], hunks[1..];
      var at := OldIndex(h);
      var before := done + prior[pos..at];
      var next := before + NewSide(h.body);
      var end := at + |OldSide(h.body)|;
      AppliedLines(prior, end, next, rest);
      ApplyExtends(prior, end, next, rest);
      var newer := Apply(prior, end, next, rest).value;
      assert newer == before + NewSide(h.body) + newer[|next|..];
      BodyLines(newer, before, h.body, newer[|next|..]);
      NumbersInRange(h.body, |before| + 1);
      HunkNumbers(h, |before|);
      LinesConcatenate(newer, AddedNumbers(h.body, h.newStart), FileNumbers(rest), AddedTexts(h.body), FileTexts(rest));
      forall i, j | 0 <= i < j < |FileNumbers(hunks)| ensures FileNumbers(hunks)[i] < FileNumbers(hunks)[j] {
        var a, b := AddedNumbers(h.body, h.newStart), FileNumbers(rest);
        if i < |a| <= j {
          assert a[i] in a && b[j - |a|] in b;
        }
      }
    }
  }

  /**
     When the hunks of a file turn `prior` into `newer`, the numbers listed for it increase, and the
     line they name in the new file is the added text.
   */
  lemma ListedLinesAreTheAddedOnes(prior: seq<string>, hunks: seq<Hunk>, newer: seq<string>)
    requires Apply(prior, 0, [], hunks) == Some(newer)
    ensures Increasing(FileNumbers(hunks))
    ensures LinesAre(newer, FileNumbers(hunks), FileTexts(hunks))
  {
    AppliedLines(prior, 0, [], hunks);
  }

  // ------------------------------------------------------------ the other lines

  /** The lines of `file` between indices `i` and `j` whose numbers, counting from 1, are not listed. */
  function Unlisted(file: seq<string>, i: nat, j: nat, listed: iset<int>): seq<string>
    requires i <= j <= |file|
  {
    if i == j then [] else Unlisted(file, i, j - 1, listed) + (if j in listed then [] else [file[j - 1]])
  }

  lemma {:induction false} UnlistedSplits(file: seq<string>, i: nat, m: nat, j: nat, listed: iset<int>)
    requires i <= m <= j <= |file|
    ensures Unlisted(file, i, j, listed) == Unlisted(file, i, m, listed) + Unlisted(file, m, j, listed)
  {
    if m < j {
      UnlistedSplits(file, i, m, j - 1, listed);
    }
  }

  lemma {:induction false} NoneListed(file: seq<string>, i: nat, j: nat, listed: iset<int>)
    requires i <= j <= |file| && forall x :: i < x <= j ==> x !in listed
    ensures Unlisted(file, i, j, listed) == file[i..j]
  {
    if i < j {
      NoneListed(file, i, j - 1, listed);
      assert file[i..j] == file[i..j - 1] + [file[j - 1]];
    }
  }

  function ContextTexts(body: seq<DiffLine>): seq<string> {
    if body == [] then [] else (if body[0].Context? then [body[0].text] else []) + ContextTexts(body[1..])
  }

  /** From index `n` on, exactly the numbers of the body are listed. */
  ghost predicate ListedLike(listed: iset<int>, body: seq<DiffLine>, n: int) {
    forall x :: n < x <= n + |NewSide(body)| ==> (x in listed <==> x in AddedNumbers(body, n + 1))
  }

  lemma ListedTail(listed: iset<int>, body: seq<DiffLine>, n: int)
    requires body != [] && ListedLike(listed, body, n)
    ensures if body[0].Added? || body[0].Context?
            then ListedLike(listed, body[1..], n + 1) && (n + 1 in listed <==> body[0].Added?)
            else ListedLike(listed, body[1..], n)
  {
    var rest := body[1..];
    if body[0].Added? || body[0].Context? {
      NumbersInRange(rest, n + 2);
      assert n + 1 !in AddedNumbers(rest, n + 2);
      assert n + 1 in listed <==> n + 1 in AddedNumbers(body, n + 1);
    }
  }

  /** The first line of a body that stands in a file from index `n` to `end`, and the rest of it. */
  lemma SideTail(file: seq<string>, n: nat, end: nat, body: seq<DiffLine>)
    requires n <= end <= |file| && body != [] && (body[0].Added? || body[0].Context?) && file[n..end] == NewSide(body)
    ensures n < end && file[n] == body[0].text && file[n + 1..end] == NewSide(body[1..])
  {
    var side := file[n..end];
    assert side == [body[0].text] + NewSide(body[1..]);
    assert side[0] == file[n] && side[1..] == file[n + 1..end];
  }

  lemma UnlistedOne(file: seq<string>, n: nat, listed: iset<int>)
    requires n < |file|
    ensures Unlisted(file, n, n + 1, listed) == if n + 1 in listed then [] else [file[n]]
  {
    assert Unlisted(file, n, n, listed) == [];
  }

  lemma UnlistedStep(file: seq<string>, n: nat, end: nat, body: seq<DiffLine>, listed: iset<int>)
    requires n < end <= |file| && body != [] && (body[0].Added? || body[0].Context?) && file[n] == body[0].text
    requires n + 1 in listed <==> body[0].Added?
    requires Unlisted(file, n + 1, end, listed) == ContextTexts(body[1..])
    ensures Unlisted(file, n, end, listed) == ContextTexts(body)
  {
    UnlistedSplits(file, n, n + 1, end, listed);
    UnlistedOne(file, n, listed);
    ContextStep(body);
  }

  lemma ContextStep(body: seq<DiffLine>)
    requires body != []
    ensures ContextTexts(body) == (if body[0].Context? then [body[0].text] else []) + ContextTexts(body[1..])
  {
  }

  lemma {:induction false} UnlistedOfBody(file: seq<string>, n: nat, end: nat, body: seq<DiffLine>, listed: iset<int>)
    requires n <= end <= |file| && file[n..end] == NewSide(body) && ListedLike(listed, body, n)
    ensures Unlisted(file, n, end, listed) == ContextTexts(body)
    decreases |body|
  {
    if body != [] {
      ListedTail(listed, body, n);
      if body[0].Added? || body[0].Context? {
        SideTail(file, n, end, body);
        UnlistedOfBody(file, n + 1, end, body[1..], listed);
        UnlistedStep(file, n, end, body, listed);
      } else {
        UnlistedOfBody(file, n, end, body[1..], listed);
        assert ContextTexts(body) == [] + ContextTexts(body[1..]);
      }
    }
  }

  /** The lines of the old file from `pos` on that no hunk deletes. */
  function Kept(prior: seq<string>, pos: nat, hunks: seq<Hunk>): seq<string>
    requires pos <= |prior|
    decreases |hunks|
  {
    if hunks == [] then prior[pos..]
    else
      var at := OldIndex(hunks[0]);
      var end := at + |OldSide(hunks[0].body)|;
      if pos <= at && end <= |prior| then prior[pos..at] + ContextTexts(hunks[0].body) + Kept(prior, end, hunks[1..])
        else []
  }

  /** Of the listed numbers, those of the first hunk lie in its new side and the others after it. */
  lemma ListedOfHunk(h: Hunk, n: nat, rest: seq<Hunk>, from: nat, listed: iset<int>)
    requires NewIndex(h) == n && from <= n
    requires forall x :: x in FileNumbers(rest) ==> x > n + |NewSide(h.body)|
    requires forall x :: x > from ==> (x in listed <==> x in FileNumbers([h] + rest))
    ensures forall x :: from < x <= n ==> x !in listed
    ensures ListedLike(listed, h.body, n)
    ensures forall x :: x > n + |NewSide(h.body)| ==> (x in listed <==> x in FileNumbers(rest))
  {
    HunkNumbers(h, n);
    NumbersInRange(h.body, n + 1);
    assert ([h] + rest)[1..] == rest;
    assert FileNumbers([h] + rest) == AddedNumbers(h.body, n + 1) + FileNumbers(rest);
  }

  /** One hunk: the part before it and its body, once the rest is known. */
  lemma HunkKeeps(prior: seq<string>, pos: nat, done: seq<string>, h: Hunk, newer: seq<string>, listed: iset<int>)
    requires pos <= OldIndex(h) <= |prior| && NewIndex(h) == |done| + (OldIndex(h) - pos)
    requires done + prior[pos..OldIndex(h)] + NewSide(h.body) <= newer
    requires forall x :: |done| < x <= NewIndex(h) ==> x !in listed
    requires ListedLike(listed, h.body, NewIndex(h))
    ensures Unlisted(newer, |done|, NewIndex(h) + |NewSide(h.body)|, listed)
      == prior[pos..OldIndex(h)] + ContextTexts(h.body)
  {
    var n := NewIndex(h);
    NoneListed(newer, |done|, n, listed);
    assert newer[|done|..n] == prior[pos..OldIndex(h)];
    assert newer[n..n + |NewSide(h.body)|] == NewSide(h.body);
    UnlistedOfBody(newer, n, n + |NewSide(h.body)|, h.body, listed);
    UnlistedSplits(newer, |done|, n, n + |NewSide(h.body)|, listed);
  }

  lemma ApplyStep(prior: seq<string>, pos: nat, done: seq<string>, hunks: seq<Hunk>)
    requires hunks != [] && pos <= |prior| && Apply(prior, pos, done, hunks).Some?
    ensures var h := hunks[0];
      var at, end := OldIndex(h), OldIndex(h) + |OldSide(h.body)|;
      && pos <= at && end <= |prior| && NewIndex(h) == |done| + (at - pos)
      && Apply(prior, pos, done, hunks) == Apply(prior, end, done + prior[pos..at] + NewSide(h.body), hunks[1..])
  {
  }

  lemma NumbersBeyond(prior: seq<string>, pos: nat, done: seq<string>, hunks: seq<Hunk>)
    requires pos <= |prior| && Apply(prior, pos, done, hunks).Some?
    ensures forall x :: x in FileNumbers(hunks) ==> x > |done|
  {
    AppliedLines(prior, pos, done, hunks);
  }

  /** The part of the new file up to the end of the first hunk, and what is listed beyond it. */
  lemma FirstHunkKeeps(prior: seq<string>, pos: nat, done: seq<string>, hunks: seq<Hunk>, newer: seq<string>,
      listed: iset<int>)
    requires hunks != [] && pos <= |prior| && Apply(prior, pos, done, hunks) == Some(newer)
    requires forall x :: x > |done| ==> (x in listed <==> x in FileNumbers(hunks))
    ensures var h := hunks[0];
      var at, end := OldIndex(h), OldIndex(h) + |OldSide(h.body)|;
      && pos <= at && end <= |prior|
      && var next := done + prior[pos..at] + NewSide(h.body);
      && Apply(prior, end, next, hunks[1..]) == Some(newer) && next <= newer
      && Unlisted(newer, |done|, |next|, listed) == prior[pos..at] + ContextTexts(h.body)
      && forall x :: x > |next| ==> (x in listed <==> x in FileNumbers(hunks[1..]))
  {
    var h, rest := hunks[0], hunks[1..];
    var at, end := OldIndex(h), OldIndex(h) + |OldSide(h.body)|;
    ApplyStep(prior, pos, done, hunks);
    var next := done + prior[pos..at] + NewSide(h.body);
    ApplyExtends(prior, end, next, rest);
    NumbersBeyond(prior, end, next, rest);
    assert hunks == [h] + rest;
    ListedOfHunk(h, NewIndex(h), rest, |done|, listed);
    HunkKeeps(prior, pos, done, h, newer, listed);
  }

  lemma {:induction false} UnlistedAreKept(prior: seq<string>, pos: nat, done: seq<string>, hunks: seq<Hunk>,
      newer: seq<string>, listed: iset<int>)
    requires pos <= |prior| && Apply(prior, pos, done, hunks) == Some(newer)
    requires forall x :: x > |done| ==> (x in listed <==> x in FileNumbers(hunks))
    ensures |done| <= |newer| && Unlisted(newer, |done|, |newer|, listed) == Kept(prior, pos, hunks)
    decreases |hunks|
  {
    if hunks == [] {
      NoneListed(newer, |done|, |newer|, listed);
    } else {
      var h, rest := hunks[0], hunks[1..];
      var next := done + prior[pos..OldIndex(h)] + NewSide(h.body);
      FirstHunkKeeps(prior, pos, done, hunks, newer, listed);
      UnlistedAreKept(prior, OldIndex(h) + |OldSide(h.body)|, next, rest, newer, listed);
      UnlistedSplits(newer, |done|, |next|, |newer|, listed);
    }
  }

  /** Exactly the listed lines are new: the others are, in order, the lines of the old file that were not deleted. */
  lemma OtherLinesAreKept(prior: seq<string>, hunks: seq<Hunk>, newer: seq<string>)
    requires Apply(prior, 0, [], hunks) == Some(newer)
    ensures Unlisted(newer, 0, |newer|, iset x | x in FileNumbers(hunks)) == Kept(prior, 0, hunks)
  {
    UnlistedAreKept(prior, 0, [], hunks, newer, iset x | x in FileNumbers(hunks));
  }
}
