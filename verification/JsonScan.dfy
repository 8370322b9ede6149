/** The balanced-brace scanner and the extraction of a JSON object from model output. */
module JsonScan {
  import opened Basics
  import opened Text

  // -------------------------------------------------------------- JSON as printed

  /** One character of a string literal as written (RFC 8259, section 7). */
  datatype Piece = Plain(c: char) | Escaped(c: char) | Unicode(hex: string)

  /**
     A JSON text with its own spacing. `Literal` stands for numbers, true, false and null. Commas are
     kept with the element they follow.
   */
  datatype Json =
    | Literal(token: string)
    | Text(pieces: seq<Piece>)
    | Array(elements: Elements)
    | Object(members: Members)

  datatype Elements =
    | NoElements(space: string)
    | LastElement(before: string, value: Json, after: string)
    | MoreElements(before: string, value: Json, after: string, rest: Elements)

  datatype Members =
    | NoMembers(space: string)
    | LastMember(before: string, key: seq<Piece>, beforeColon: string, afterColon: string, value: Json, after: string)
    | MoreMembers(before: string, key: seq<Piece>, beforeColon: string, afterColon: string, value: Json, after: string,
      rest: Members)

  predicate IsSpace(s: string) { forall i :: 0 <= i < |s| ==> s[i] in " \t\n\r" }

  predicate IsToken(s: string) { s != "" && forall i :: 0 <= i < |s| ==> s[i] !in " \t\n\r{}[]\"\\:," }

  predicate IsPiece(p: Piece) {
    match p
    case Plain(c) => c != '"' && c != '\\' && ' ' <= c
    case Escaped(c) => c in "\"\\/bfnrt"
    case Unicode(hex) => |hex| == 4 && forall i :: 0 <= i < 4 ==> hex[i] in "0123456789abcdefABCDEF"
  }

  predicate ArePieces(pieces: seq<Piece>) { forall i :: 0 <= i < |pieces| ==> IsPiece(pieces[i]) }

  predicate Valid(v: Json) {
    match v
    case Literal(token) => IsToken(token)
    case Text(pieces) => ArePieces(pieces)
    case Array(elements) => ValidElements(elements)
    case Object(members) => ValidMembers(members)
  }

  predicate ValidElements(e: Elements) {
    match e
    case NoElements(space) => IsSpace(space)
    case LastElement(before, value, after) => IsSpace(before) && Valid(value) && IsSpace(after)
    case MoreElements(before, value, after, rest) =>
        IsSpace(before) && Valid(value) && IsSpace(after) && ValidElements(rest)
  }

  predicate ValidMembers(m: Members) {
    match m
    case NoMembers(space) => IsSpace(space)
    case LastMember(before, key, beforeColon, afterColon, value, after) =>
      IsSpace(before) && ArePieces(key) && IsSpace(beforeColon) && IsSpace(afterColon) && Valid(value) && IsSpace(after)
    case MoreMembers(before, key, beforeColon, afterColon, value, after, rest) =>
      IsSpace(before) && ArePieces(key) && IsSpace(beforeColon) && IsSpace(afterColon) && Valid(value) && IsSpace(after)
      && ValidMembers(rest)
  }

  function PieceText(p: Piece): string {
    match p
    case Plain(c) => [c]
    case Escaped(c) => ['\\', c]
    case Unicode(hex) => "\\u" + hex
  }

  function PiecesText(pieces: seq<Piece>): string {
    if pieces == [] then "" else PieceText(pieces[0]) + PiecesText(pieces[1..])
  }

  function Quoted(pieces: seq<Piece>): string { "\"" + (PiecesText(pieces) + "\"") }

  function Print(v: Json): string {
    match v
    case Literal(token) => token
    case Text(pieces) => Quoted(pieces)
    case Array(elements) => "[" + (PrintElements(elements) + "]")
    case Object(members) => "{" + (PrintMembers(members) + "}")
  }

  function PrintElements(e: Elements): string {
    match e
    case NoElements(space) => space
    case LastElement(before, value, after) => before + (Print(value) + after)
    case MoreElements(before, value, after, rest) => before + (Print(value) + (after + ("," + PrintElements(rest))))
  }

  function PrintMembers(m: Members): string {
    match m
    case NoMembers(space) => space
    case LastMember(before, key, beforeColon, afterColon, value, after) =>
      before + (Quoted(key) + (beforeColon + (":" + (afterColon + (Print(value) + after)))))
    case MoreMembers(before, key, beforeColon, afterColon, value, after, rest) =>
      before + (Quoted(key)
        + (beforeColon + (":" + (afterColon + (Print(value) + (after + ("," + PrintMembers(rest))))))))
  }

  // ------------------------------------------------------------------ the scanner

  datatype Scan = Scan(depth: int, inString: bool, escape: bool)

  const FRESH := Scan(0, false, false)

  function Feed(s: Scan, c: char): Scan {
    if s.inString then
      if s.escape then s.(escape := false)
      else if c == '\\' then s.(escape := true)
      else if c == '"' then s.(inString := false)
      else s
    else if c == '"' then s.(inString := true)
    else if c == '{' then s.(depth := s.depth + 1)
    else if c == '}' then s.(depth := s.depth - 1)
    else s
  }

  /** The character closes the outermost brace. */
  predicate Closes(s: Scan, c: char) { !s.inString && c == '}' && s.depth == 1 }

  /** The length of the balanced object at the start of the text, scanning from state `s`. */
  function BalancedLength(s: Scan, text: string): (n: Option<nat>)
    ensures n.Some? ==> 0 < n.value <= |text|
    decreases |text|
  {
    if text == "" then None
    else if Closes(s, text[0]) then Some(1)
    else
      match BalancedLength(Feed(s, text[0]), text[1..])
      case None => None
      case Some(n) => Some(n + 1)
  }

  method FindBalancedJsonObject(text: string, start: nat) returns (r: Option<string>)
    requires start <= |text|
    ensures r == match BalancedLength(FRESH, text[start..])
                 case None => None
                 case Some(n) => Some(text[start..start + n])
  {
    var depth, inString, escape := 0, false, false;
    for index := start to |text|
      invariant BalancedLength(FRESH, text[start..]) ==
        match BalancedLength(Scan(depth, inString, escape), text[index..])
        case None => None
        case Some(n) => Some(index - start + n)
    {
      var c := text[index];
      assert text[index..][0] == c && text[index..][1..] == text[index + 1..];
      if inString {
        if escape {
          escape := false;
        } else if c == '\\' {
          escape := true;
        } else if c == '"' {
          inString := false;
        }
        continue;
      }
      if c == '"' {
        inString := true;
      } else if c == '{' {
        depth := depth + 1;
      } else if c == '}' {
        depth := depth - 1;
        if depth == 0 {
          return Some(text[start..index + 1]);
        }
      }
    }
    return None;
  }

  // ------------------------------------------------- scanning what was printed

  /** The state after the whole text, unless the outermost brace closes within it. */
  function Pass(s: Scan, text: string): Option<Scan>
    decreases |text|
  {
    if text == "" then Some(s)
    else if Closes(s, text[0]) then None
    else Pass(Feed(s, text[0]), text[1..])
  }

  lemma {:induction false} PassAppend(s: Scan, a: string, b: string)
    ensures Pass(s, a + b) == match Pass(s, a) case None => None case Some(t) => Pass(t, b)
    decreases |a|
  {
    if a == "" {
      assert a + b == b;
    } else {
      assert (a + b)[1..] == a[1..] + b;
      if !Closes(s, a[0]) {
        PassAppend(Feed(s, a[0]), a[1..], b);
      }
    }
  }

  lemma {:induction false} LengthAfterPass(s: Scan, a: string, b: string)
    requires Pass(s, a).Some?
    ensures BalancedLength(s, a + b) ==
      match BalancedLength(Pass(s, a).value, b) case None => None case Some(n) => Some(|a| + n)
    decreases |a|
  {
    if a == "" {
      assert a + b == b;
    } else {
      assert (a + b)[1..] == a[1..] + b;
      LengthAfterPass(Feed(s, a[0]), a[1..], b);
    }
  }

  /** The text leaves the scanner outside strings and as deep as before. */
  ghost predicate Neutral(text: string) {
    forall d :: d >= 1 ==> Pass(Scan(d, false, false), text) == Some(Scan(d, false, false))
  }

  lemma NeutralAppend(a: string, b: string)
    requires Neutral(a) && Neutral(b)
    ensures Neutral(a + b)
  {
    forall d | d >= 1 ensures Pass(Scan(d, false, false), a + b) == Some(Scan(d, false, false)) {
      PassAppend(Scan(d, false, false), a, b);
    }
  }

  lemma {:induction false} PlainTextIsNeutral(text: string)
    requires forall i :: 0 <= i < |text| ==> text[i] !in "{}\""
    ensures Neutral(text)
  {
    if text != "" {
      PlainTextIsNeutral(text[1..]);
      assert text[0] !in "{}\"";
    }
  }

  lemma PieceStaysInString(p: Piece, d: int)
    requires IsPiece(p)
    ensures Pass(Scan(d, true, false), PieceText(p)) == Some(Scan(d, true, false))
  {
    match p
    case Plain(c) => assert [c][1..] == "";
    case Escaped(c) => EscapeStaysInString(c, d);
    case Unicode(hex) => UnicodeStaysInString(hex, d);
  }

  lemma EscapeStaysInString(c: char, d: int)
    requires c in "\"\\/bfnrtu"
    ensures Pass(Scan(d, true, false), ['\\', c]) == Some(Scan(d, true, false))
  {
    var s := Scan(d, true, false);
    assert ['\\', c][1..] == [c] && [c][1..] == "";
    assert Feed(s, '\\') == s.(escape := true) && Feed(s.(escape := true), c) == s;
    assert Pass(s.(escape := true), [c]) == Pass(s, "") == Some(s);
  }

  lemma UnicodeStaysInString(hex: string, d: int)
    requires forall i :: 0 <= i < |hex| ==> hex[i] in "0123456789abcdefABCDEF"
    ensures Pass(Scan(d, true, false), "\\u" + hex) == Some(Scan(d, true, false))
  {
    var s := Scan(d, true, false);
    EscapeStaysInString('u', d);
    assert ['\\', 'u'] == "\\u";
    PassAppend(s, "\\u", hex);
    HexStaysInString(hex, d);
  }

  lemma {:induction false} HexStaysInString(hex: string, d: int)
    requires forall i :: 0 <= i < |hex| ==> hex[i] in "0123456789abcdefABCDEF"
    ensures Pass(Scan(d, true, false), hex) == Some(Scan(d, true, false))
  {
    if hex != "" {
      assert hex[0] in "0123456789abcdefABCDEF";
      HexStaysInString(hex[1..], d);
    }
  }

  lemma {:induction false} PiecesStayInString(pieces: seq<Piece>, d: int)
    requires ArePieces(pieces)
    ensures Pass(Scan(d, true, false), PiecesText(pieces)) == Some(Scan(d, true, false))
  {
    if pieces != [] {
      PieceStaysInString(pieces[0], d);
      PiecesStayInString(pieces[1..], d);
      PassAppend(Scan(d, true, false), PieceText(pieces[0]), PiecesText(pieces[1..]));
    }
  }

  /** Braces, quotes and backslashes inside a string literal do not reach the scanner's depth. */
  lemma QuotedIsNeutral(pieces: seq<Piece>)
    requires ArePieces(pieces)
    ensures Neutral(Quoted(pieces))
  {
    forall d | d >= 1 ensures Pass(Scan(d, false, false), Quoted(pieces)) == Some(Scan(d, false, false)) {
      var outside, inside := Scan(d, false, false), Scan(d, true, false);
      PiecesStayInString(pieces, d);
      PassAppend(inside, PiecesText(pieces), "\"");
      assert Pass(inside, "\"") == Some(outside) by {
        assert "\""[1..] == "";
      }
      assert Quoted(pieces)[0] == '"' && Quoted(pieces)[1..] == PiecesText(pieces) + "\"";
    }
  }

  lemma BracketsAreNeutral(inner: string)
    requires Neutral(inner)
    ensures Neutral("[" + (inner + "]"))
  {
    PlainTextIsNeutral("[");
    PlainTextIsNeutral("]");
    NeutralAppend(inner, "]");
    NeutralAppend("[", inner + "]");
  }

  lemma BracesAreNeutral(inner: string)
    requires Neutral(inner)
    ensures Neutral("{" + (inner + "}"))
  {
    var text := "{" + (inner + "}");
    assert text[0] == '{' && text[1..] == inner + "}";
    forall d | d >= 1 ensures Pass(Scan(d, false, false), text) == Some(Scan(d, false, false)) {
      PassAppend(Scan(d + 1, false, false), inner, "}");
      assert Pass(Scan(d + 1, false, false), "}") == Some(Scan(d, false, false)) by {
        assert "}"[1..] == "";
      }
    }
  }

  lemma {:induction false} PrintedIsNeutral(v: Json)
    requires Valid(v)
    ensures Neutral(Print(v))
    decreases v
  {
    match v
    case Literal(token) => PlainTextIsNeutral(token);
    case Text(pieces) => QuotedIsNeutral(pieces);
    case Array(elements) =>
      ElementsAreNeutral(elements);
      BracketsAreNeutral(PrintElements(elements));
    case Object(members) =>
      MembersAreNeutral(members);
      BracesAreNeutral(PrintMembers(members));
  }

  lemma {:induction false} ElementsAreNeutral(e: Elements)
    requires ValidElements(e)
    ensures Neutral(PrintElements(e))
    decreases e
  {
    match e
    case NoElements(space) => PlainTextIsNeutral(space);
    case LastElement(before, value, after) =>
      PrintedIsNeutral(value);
      PlainTextIsNeutral(before);
      PlainTextIsNeutral(after);
      NeutralAppend(Print(value), after);
      NeutralAppend(before, Print(value) + after);
    case MoreElements(before, value, after, rest) =>
      PrintedIsNeutral(value);
      ElementsAreNeutral(rest);
      PlainTextIsNeutral(before);
      PlainTextIsNeutral(after);
      PlainTextIsNeutral(",");
      NeutralAppend(",", PrintElements(rest));
      NeutralAppend(after, "," + PrintElements(rest));
      NeutralAppend(Print(value), after + ("," + PrintElements(rest)));
      NeutralAppend(before, Print(value) + (after + ("," + PrintElements(rest))));
  }

  lemma MemberIsNeutral(before: string, key: seq<Piece>, beforeColon: string, afterColon: string, tail: string)
    requires IsSpace(before) && ArePieces(key) && IsSpace(beforeColon) && IsSpace(afterColon) && Neutral(tail)
    ensures Neutral(before + (Quoted(key) + (beforeColon + (":" + (afterColon + tail)))))
  {
    QuotedIsNeutral(key);
    PlainTextIsNeutral(before);
    PlainTextIsNeutral(beforeColon);
    PlainTextIsNeutral(afterColon);
    PlainTextIsNeutral(":");
    NeutralAppend(afterColon, tail);
    NeutralAppend(":", afterColon + tail);
    NeutralAppend(beforeColon, ":" + (afterColon + tail));
    NeutralAppend(Quoted(key), beforeColon + (":" + (afterColon + tail)));
    NeutralAppend(before, Quoted(key) + (beforeColon + (":" + (afterColon + tail))));
  }

  lemma {:induction false} MembersAreNeutral(m: Members)
    requires ValidMembers(m)
    ensures Neutral(PrintMembers(m))
    decreases m
  {
    match m
    case NoMembers(space) => PlainTextIsNeutral(space);
    case LastMember(before, key, beforeColon, afterColon, value, after) =>
      PrintedIsNeutral(value);
      PlainTextIsNeutral(after);
      NeutralAppend(Print(value), after);
      MemberIsNeutral(before, key, beforeColon, afterColon, Print(value) + after);
    case MoreMembers(before, key, beforeColon, afterColon, value, after, rest) =>
      PrintedIsNeutral(value);
      MembersAreNeutral(rest);
      PlainTextIsNeutral(after);
      PlainTextIsNeutral(",");
      NeutralAppend(",", PrintMembers(rest));
      NeutralAppend(after, "," + PrintMembers(rest));
      NeutralAppend(Print(value), after + ("," + PrintMembers(rest)));
      MemberIsNeutral(before, key, beforeColon, afterColon, Print(value) + (after + ("," + PrintMembers(rest))));
  }

  /** Followed by any text whatever, a printed object is found exactly. */
  lemma ScannerFindsThePrintedObject(v: Json, following: string)
    requires Valid(v) && v.Object?
    ensures BalancedLength(FRESH, Print(v) + following) == Some(|Print(v)|)
  {
    var inner := PrintMembers(v.members);
    var text := Print(v) + following;
    assert text[0] == '{' && text[1..] == inner + ("}" + following);
    MembersAreNeutral(v.members);
    var inside := Scan(1, false, false);
    assert Pass(inside, inner) == Some(inside);
    LengthAfterPass(inside, inner, "}" + following);
    assert ("}" + following)[0] == '}';
  }

  lemma {:induction false} LongerTextSameLength(s: Scan, a: string, b: string)
    requires BalancedLength(s, a).Some?
    ensures BalancedLength(s, a + b) == BalancedLength(s, a)
    decreases |a|
  {
    assert (a + b)[0] == a[0] && (a + b)[1..] == a[1..] + b;
    if !Closes(s, a[0]) {
      LongerTextSameLength(Feed(s, a[0]), a[1..], b);
    }
  }

  /** A printed object that was cut off is not mistaken for a complete one. */
  lemma ScannerRejectsTruncation(v: Json, n: nat)
    requires Valid(v) && v.Object? && n < |Print(v)|
    ensures BalancedLength(FRESH, Print(v)[..n]).None?
  {
    if BalancedLength(FRESH, Print(v)[..n]).Some? {
      LongerTextSameLength(FRESH, Print(v)[..n], Print(v)[n..]);
      assert Print(v)[..n] + Print(v)[n..] == Print(v) == Print(v) + "";
      ScannerFindsThePrintedObject(v, "");
    }
  }

  // ------------------------------------------------------------------- extraction

  /** The rest of the search of `_extract_json_object`, from a position on. */
  function FirstObjectFrom<V>(text: string, start: nat, loads: string -> Option<V>, isDict: V -> bool,
      repair: string -> string): Option<V>
    requires start <= |text|
    decreases |text| - start
  {
    if start == |text| then None
    else
      var found := ObjectAt(text, start, loads, isDict, repair);
      if found.Some? then found else FirstObjectFrom(text, start + 1, loads, isDict, repair)
  }

  /** What the search finds at one position. */
  function ObjectAt<V>(text: string, start: nat, loads: string -> Option<V>, isDict: V -> bool,
    repair: string -> string)
      : Option<V>
    requires start < |text|
  {
    if text[start] != '{' then None
    else
      match BalancedLength(FRESH, text[start..])
      case None => None
      case Some(n) =>
        var candidate := text[start..start + n];
        var direct := loads(candidate);
        var data := if direct.Some? || repair(candidate) == candidate then direct else loads(repair(candidate));
        if data.Some? && isDict(data.value) then data else None
  }

  /** The text from `start` to its balancing brace reads as this object, as it is or else after the repair. */
  ghost predicate ReadsAt<V>(text: string, start: nat, loads: string -> Option<V>, isDict: V -> bool,
    repair: string -> string, v: V)
  {
    && start < |text| && text[start] == '{' && isDict(v)
    && match BalancedLength(FRESH, text[start..])
       case None => false
       case Some(n) =>
         var candidate := text[start..start + n];
         loads(candidate) == Some(v) || (loads(candidate).None? && loads(repair(candidate)) == Some(v))
  }

  /** No text that starts in this range reads as an object. */
  ghost predicate NoneReads<V(!new)>(text: string, from: nat, to: nat, loads: string -> Option<V>, isDict: V -> bool,
    repair: string -> string)
  {
    forall p: nat, v :: from <= p < to ==> !ReadsAt(text, p, loads, isDict, repair, v)
  }

  /** The first text from `start` on that reads as an object starts at `p`. */
  ghost predicate ReadsFirst<V(!new)>(text: string, start: nat, p: nat, loads: string -> Option<V>, isDict: V -> bool,
    repair: string -> string, v: V)
  {
    start <= p && ReadsAt(text, p, loads, isDict, repair, v) && NoneReads(text, start, p, loads, isDict, repair)
  }

  /** The search finds the object that starts first, whatever braces stand before it, and nothing if there is none. */
  lemma {:induction false} FirstObjectStartsFirst<V(!new)>(text: string, start: nat, loads: string -> Option<V>,
      isDict: V -> bool, repair: string -> string, v: V)
    requires start <= |text|
    ensures FirstObjectFrom(text, start, loads, isDict, repair) == Some(v) <==>
      exists p: nat :: ReadsFirst(text, start, p, loads, isDict, repair, v)
    ensures FirstObjectFrom(text, start, loads, isDict, repair).None? <==>
      NoneReads(text, start, |text|, loads, isDict, repair)
    decreases |text| - start
  {
    if start < |text| {
      FirstObjectStartsFirst(text, start + 1, loads, isDict, repair, v);
      ReadsHereOrLater(text, start, loads, isDict, repair, v);
      if ObjectAt(text, start, loads, isDict, repair).None? {
        var after := start + 1;
        if p: nat :| ReadsFirst(text, after, p, loads, isDict, repair, v) {
          assert ReadsFirst(text, start, p, loads, isDict, repair, v);
        }
      }
    } else {
      assert forall p: nat :: ReadsFirst(text, start, p, loads, isDict, repair, v) ==> p < |text|;
    }
  }

  lemma ReadsHereOrLater<V(!new)>(text: string, start: nat, loads: string -> Option<V>, isDict: V -> bool,
      repair: string -> string, v: V)
    requires start < |text|
    ensures var here := ObjectAt(text, start, loads, isDict, repair);
      && (here.Some? ==> ReadsAt(text, start, loads, isDict, repair, here.value))
      && (here.Some? ==> ((exists p: nat :: ReadsFirst(text, start, p, loads, isDict, repair, v)) <==> here == Some(v)))
      && (here.None? ==> forall p: nat :: ReadsFirst(text, start, p, loads, isDict, repair, v) <==>
            ReadsFirst(text, start + 1, p, loads, isDict, repair, v))
      && (here.None? ==> forall w :: !ReadsAt(text, start, loads, isDict, repair, w))
  {
    var here := ObjectAt(text, start, loads, isDict, repair);
    forall w ensures here == Some(w) <==> ReadsAt(text, start, loads, isDict, repair, w) {
      ObjectAtReads(text, start, loads, isDict, repair, w);
    }
    if here == Some(v) {
      assert ReadsFirst(text, start, start, loads, isDict, repair, v);
    }
  }

  lemma ObjectAtReads<V(!new)>(text: string, start: nat, loads: string -> Option<V>, isDict: V -> bool,
      repair: string -> string, v: V)
    requires start < |text|
    ensures ObjectAt(text, start, loads, isDict, repair) == Some(v) <==> ReadsAt(text, start, loads, isDict, repair, v)
  {
  }

  /** The whole text if it reads as an object, and otherwise the first object in it. */
  function Found<V>(text: string, loads: string -> Option<V>, isDict: V -> bool, repair: string -> string): Option<V> {
    if loads(text).Some? && isDict(loads(text).value) then loads(text)
    else FirstObjectFrom(text, 0, loads, isDict, repair)
  }

  /** `loads` is the JSON parser and `repair` the textual repair of line ranges. */
  method ExtractJsonObject<V>(raw: string, loads: string -> Option<V>, isDict: V -> bool, repair: string -> string)
      returns (r: Result<V>)
    ensures var found := Found(Strip(raw), loads, isDict, repair);
      r == if found.Some? then Ok(found.value) else Raised
  {
    var text := Strip(raw);
    var data := loads(text);
    if data.Some? && isDict(data.value) {
      return Ok(data.value);
    }
    for start := 0 to |text|
      invariant FirstObjectFrom(text, 0, loads, isDict, repair) == FirstObjectFrom(text, start, loads, isDict, repair)
    {
      if text[start] != '{' {
        continue;
      }
      var candidate := FindBalancedJsonObject(text, start);
      if candidate.None? {
        continue;
      }
      data := loads(candidate.value);
      if data.None? {
        var repaired := repair(candidate.value);
        if repaired == candidate.value {
          continue;
        }
        data := loads(repaired);
        if data.None? {
          continue;
        }
      }
      if isDict(data.value) {
        return Ok(data.value);
      }
    }
    return Raised;
  }

  /**
     A text that `json.loads` reads as an object is an object in the grammar above, up to blanks around
     it. The grammar is wider than JSON in its literals, so this asks no more of the parser than that
     braces, quotes, commas and colons of an object stand where they must.
   */
  ghost predicate ReadsOnlyObjects<V(!new)>(loads: string -> Option<V>, isDict: V -> bool) {
    forall t: string :: loads(t).Some? && isDict(loads(t).value) ==>
        exists v: Json :: Valid(v) && v.Object? && Strip(t) == Print(v)
  }

  lemma {:induction false} StripLeftKeeps(s: string, core: string)
    requires core != "" && !IsBlank(core[0])
    ensures StripLeft(s + core) == StripLeft(s) + core
  {
    if s == "" {
      assert s + core == core;
    } else {
      assert (s + core)[0] == s[0] && (s + core)[1..] == s[1..] + core;
      if IsBlank(s[0]) {
        StripLeftKeeps(s[1..], core);
      }
    }
  }

  lemma {:induction false} StripRightKeeps(core: string, s: string)
    requires core != "" && !IsBlank(core[|core| - 1])
    ensures StripRight(core + s) == core + StripRight(s)
  {
    if s == "" {
      assert core + s == core;
    } else {
      var n := |s| - 1;
      assert (core + s)[|core + s| - 1] == s[n] && (core + s)[..|core + s| - 1] == core + s[..n];
      if IsBlank(s[n]) {
        StripRightKeeps(core, s[..n]);
      }
    }
  }

  lemma {:induction false} StripLeftIsSuffix(s: string)
    ensures |StripLeft(s)| <= |s| && StripLeft(s) == s[|s| - |StripLeft(s)|..]
    ensures StripLeft(s) != "" ==> !IsBlank(StripLeft(s)[0])
  {
    if s != "" && IsBlank(s[0]) {
      StripLeftIsSuffix(s[1..]);
    }
  }

  lemma {:induction false} StripRightIsPrefix(s: string)
    ensures StripRight(s) <= s
    ensures StripRight(s) != "" ==> !IsBlank(StripRight(s)[|StripRight(s)| - 1])
  {
    if s != "" && IsBlank(s[|s| - 1]) {
      StripRightIsPrefix(s[..|s| - 1]);
    }
  }

  /** Stripping around a text that neither starts nor ends blank. */
  lemma StripAround(before: string, core: string, after: string)
    requires core != "" && !IsBlank(core[0]) && !IsBlank(core[|core| - 1])
    ensures Strip(before + core + after) == StripLeft(before) + core + StripRight(after)
  {
    assert before + core + after == before + (core + after);
    StripLeftKeeps(before, core + after);
    var left := StripLeft(before) + core;
    assert StripLeft(before) + (core + after) == left + after;
    StripRightKeeps(left, after);
  }

  lemma StripTwice(before: string, core: string, after: string)
    requires core != "" && !IsBlank(core[0]) && !IsBlank(core[|core| - 1])
    ensures Strip(Strip(before + core + after)) == Strip(before + core + after)
  {
    var left, right := StripLeft(before), StripRight(after);
    StripAround(before, core, after);
    StripAround(left, core, right);
    StripLeftIsSuffix(before);
    StripRightIsPrefix(after);
  }

  lemma {:induction false} NothingInNoise<V>(text: string, start: nat, end: nat, loads: string -> Option<V>,
      isDict: V -> bool, repair: string -> string)
    requires start <= end <= |text| && forall i :: start <= i < end ==> text[i] != '{'
    ensures FirstObjectFrom(text, start, loads, isDict, repair) == FirstObjectFrom(text, end, loads, isDict, repair)
    decreases end - start
  {
    if start < end {
      NothingInNoise(text, start + 1, end, loads, isDict, repair);
    }
  }

  lemma ObjectEnds(v: Json)
    requires Valid(v) && v.Object?
    ensures Print(v) != "" && Print(v)[0] == '{' && Print(v)[|Print(v)| - 1] == '}'
  {
  }

  /** The search itself, over the stripped text. */
  lemma SearchFindsThePrintedObject<V(!new)>(left: string, v: Json, right: string,
      loads: string -> Option<V>, isDict: V -> bool, repair: string -> string)
    requires Valid(v) && v.Object? && '{' !in left
    requires loads(Print(v)).Some? && isDict(loads(Print(v)).value)
    ensures FirstObjectFrom(left + Print(v) + right, 0, loads, isDict, repair) == loads(Print(v))
  {
    var printed, n := Print(v), |left|;
    var text := left + printed + right;
    forall i | 0 <= i < n ensures text[i] != '{' {
      assert text[i] == left[i];
    }
    NothingInNoise(text, 0, n, loads, isDict, repair);
    ObjectEnds(v);
    assert text[n] == printed[0];
    assert text[n..] == printed + right;
    ScannerFindsThePrintedObject(v, right);
    assert text[n..n + |printed|] == printed;
    assert ObjectAt(text, n, loads, isDict, repair) == loads(printed);
  }

  /** Two printed objects, one of them with more text around it, can only be the same text. */
  lemma OnePrintedObject(left: string, v: Json, right: string, w: Json)
    requires Valid(v) && v.Object? && Valid(w) && w.Object? && '{' !in left
    requires left + (Print(v) + right) == Print(w)
    ensures left == "" && right == ""
  {
    ObjectEnds(w);
    NothingBefore(left, Print(v) + right, Print(w));
    ScannerFindsThePrintedObject(v, right);
    ScannerFindsThePrintedObject(w, "");
    NothingAfter(FRESH, Print(v), right, Print(w));
  }

  lemma NothingBefore(left: string, rest: string, whole: string)
    requires '{' !in left && left + rest == whole
    requires whole != "" && whole[0] == '{'
    ensures left == "" && rest == whole
  {
    if left == "" {
      assert left + rest == rest;
    }
  }

  lemma NothingAfter(s: Scan, inner: string, right: string, whole: string)
    requires inner + right == whole
    requires BalancedLength(s, inner + right) == Some(|inner|)
    requires BalancedLength(s, whole + "") == Some(|whole|)
    ensures right == ""
  {
    assert whole + "" == whole;
  }

  lemma NoBraceInStripped(noise: string)
    requires '{' !in noise
    ensures '{' !in StripLeft(noise)
  {
    StripLeftIsSuffix(noise);
    forall i | 0 <= i < |StripLeft(noise)| ensures StripLeft(noise)[i] != '{' {
      assert StripLeft(noise)[i] == noise[|noise| - |StripLeft(noise)| + i];
      assert noise[|noise| - |StripLeft(noise)| + i] in noise;
    }
  }

  lemma SomePrintedObject<V(!new)>(t: string, loads: string -> Option<V>, isDict: V -> bool) returns (w: Json)
    requires ReadsOnlyObjects(loads, isDict) && loads(t).Some? && isDict(loads(t).value)
    ensures Valid(w) && w.Object? && Strip(t) == Print(w)
  {
    w :| Valid(w) && w.Object? && Strip(t) == Print(w);
  }

  /** If the stripped text as a whole reads as an object, there was nothing around the printed one. */
  lemma WholeTextIsTheObject<V(!new)>(noise: string, v: Json, following: string, loads: string -> Option<V>,
      isDict: V -> bool)
    requires Valid(v) && v.Object? && ReadsOnlyObjects(loads, isDict) && '{' !in noise
    requires var text := Strip(noise + Print(v) + following); loads(text).Some? && isDict(loads(text).value)
    ensures Strip(noise + Print(v) + following) == Print(v)
  {
    var text := Strip(noise + Print(v) + following);
    var w := SomePrintedObject(text, loads, isDict);
    StrippedTextIsTheObject(noise, v, following, w);
  }

  lemma StrippedTextIsTheObject(noise: string, v: Json, following: string, w: Json)
    requires Valid(v) && v.Object? && Valid(w) && w.Object? && '{' !in noise
    requires Strip(Strip(noise + Print(v) + following)) == Print(w)
    ensures Strip(noise + Print(v) + following) == Print(v)
  {
    ObjectEnds(v);
    StripAround(noise, Print(v), following);
    StripTwice(noise, Print(v), following);
    NoBraceInStripped(noise);
    SurroundedObject(StripLeft(noise), v, StripRight(following), w);
  }

  lemma SurroundedObject(left: string, v: Json, right: string, w: Json)
    requires Valid(v) && v.Object? && Valid(w) && w.Object? && '{' !in left
    requires left + Print(v) + right == Print(w)
    ensures left + Print(v) + right == Print(v)
  {
    assert left + (Print(v) + right) == left + Print(v) + right;
    OnePrintedObject(left, v, right, w);
    assert "" + Print(v) + "" == Print(v);
  }

  /**
     After noise without an opening brace, and before any text whatever, a printed object that `loads`
     reads is extracted: the value `loads` gives for it, and no other.
   */
  lemma ExtractionFindsThePrintedObject<V(!new)>(noise: string, v: Json, following: string,
      loads: string -> Option<V>, isDict: V -> bool, repair: string -> string)
    requires Valid(v) && v.Object? && '{' !in noise
    requires loads(Print(v)).Some? && isDict(loads(Print(v)).value) && ReadsOnlyObjects(loads, isDict)
    ensures Found(Strip(noise + Print(v) + following), loads, isDict, repair) == loads(Print(v))
  {
    var text := Strip(noise + Print(v) + following);
    if loads(text).Some? && isDict(loads(text).value) {
      WholeTextIsTheObject(noise, v, following, loads, isDict);
    } else {
      ObjectEnds(v);
      StripAround(noise, Print(v), following);
      NoBraceInStripped(noise);
      SearchFindsThePrintedObject(StripLeft(noise), v, StripRight(following), loads, isDict, repair);
    }
  }
}
