/** The worklist over OpenCode's session table and the usage summed over what it finds. */
module Sessions {
  import opened Basics

  /**
     The session table as the queries see it: the child ids of each parent in id order, and the
     parents whose query fails. Cycles and shared children are possible.
   */
  datatype Table = Table(hasTable: bool, children: map<string, seq<string>>, broken: set<string>)

  // --------------------------------------------------------------- reachability

  ghost predicate Edge(t: Table, parent: string, child: string) {
    t.hasTable && parent !in t.broken && parent in t.children && child in t.children[parent] && child != ""
  }

  /** A walk down the table from one of the given ids; empty ids lead nowhere. */
  ghost predicate Walk(t: Table, ids: seq<string>, w: seq<string>) {
    && |w| > 0 && w[0] in ids && w[0] != ""
    && forall i :: 0 < i < |w| ==> Edge(t, w[i - 1], w[i])
  }

  ghost predicate WalkTo(t: Table, ids: seq<string>, w: seq<string>, x: string) {
    Walk(t, ids, w) && w[|w| - 1] == x
  }

  ghost predicate Reachable(t: Table, ids: seq<string>, x: string) {
    exists w :: WalkTo(t, ids, w, x)
  }

  /** Every id the worklist can ever meet. */
  ghost function Universe(t: Table, ids: seq<string>): set<string> {
    (set i | 0 <= i < |ids| :: ids[i]) + (set p, i | p in t.children && 0 <= i < |t.children[p]| :: t.children[p][i])
  }

  lemma WalkGrows(t: Table, ids: seq<string>, w: seq<string>, parent: string, child: string)
    requires WalkTo(t, ids, w, parent) && Edge(t, parent, child)
    ensures WalkTo(t, ids, w + [child], child)
  {
  }

  lemma WalkShrinks(t: Table, ids: seq<string>, w: seq<string>)
    requires Walk(t, ids, w) && |w| > 1
    ensures Walk(t, ids, w[..|w| - 1]) && Edge(t, w[|w| - 2], w[|w| - 1])
  {
  }

  // ------------------------------------------------------------------ the worklist

  /** The ids that are not empty. */
  function NonEmpty(s: seq<string>): (r: seq<string>)
    ensures forall x :: x in r <==> x in s && x != ""
  {
    if s == [] then [] else (if s[0] != "" then [s[0]] else []) + NonEmpty(s[1..])
  }

  function Unseen(s: seq<string>, seen: set<string>): (r: seq<string>)
    ensures forall x :: x in r <==> x in s && x !in seen
  {
    if s == [] then [] else (if s[0] !in seen then [s[0]] else []) + Unseen(s[1..], seen)
  }

  /** The children the query returns; none without a session table or when it fails. */
  function Children(t: Table, parent: string): (r: seq<string>)
    ensures forall x :: x in r <==> Edge(t, parent, x)
  {
    if t.hasTable && parent !in t.broken && parent in t.children then NonEmpty(t.children[parent]) else []
  }

  ghost function Levels(n: nat, level: nat): (r: seq<nat>)
    ensures |r| == n && forall i :: 0 <= i < n ==> r[i] == level
  {
    seq(n, _ => level)
  }

  /**
     What is known of the queue: each entry can be reached by a walk of its level, levels rise by at
     most one along it.
   */
  ghost predicate Queued(t: Table, ids: seq<string>, pending: seq<string>, levels: seq<nat>) {
    && |levels| == |pending|
    && (forall i :: 0 <= i < |pending| ==> ReachedAt(t, ids, pending[i], levels[i]))
    && (forall i, j :: 0 <= i < j < |levels| ==> levels[i] <= levels[j] <= levels[i] + 1)
  }

  ghost predicate ReachedAt(t: Table, ids: seq<string>, x: string, level: nat) {
    exists w :: WalkTo(t, ids, w, x) && |w| == level
  }

  /** `x` is already listed, or waits in the queue, at this level or an earlier one. */
  ghost predicate Covered(x: string, level: nat, expanded: seq<string>, found: seq<nat>, pending: seq<string>,
      levels: seq<nat>)
    requires |found| == |expanded| && |levels| == |pending|
  {
    || (exists i :: 0 <= i < |expanded| && expanded[i] == x && found[i] <= level)
    || (exists i :: 0 <= i < |pending| && pending[i] == x && levels[i] <= level)
  }

  /** What is known of the listed sessions. */
  ghost predicate Listed(t: Table, ids: seq<string>, expanded: seq<string>, found: seq<nat>) {
    && |found| == |expanded| && Distinct(expanded)
    && (forall i :: 0 <= i < |expanded| ==> ReachedAt(t, ids, expanded[i], found[i]))
    && (forall i, j :: 0 <= i < j < |found| ==> found[i] <= found[j])
  }

  ghost predicate Closed(t: Table, ids: seq<string>, expanded: seq<string>, found: seq<nat>, pending: seq<string>,
      levels: seq<nat>)
    requires |found| == |expanded| && |levels| == |pending|
  {
    && (forall x :: x in ids && x != "" ==> Covered(x, 1, expanded, found, pending, levels))
    && (forall i, y :: 0 <= i < |expanded| && Edge(t, expanded[i], y) ==>
      Covered(y, found[i] + 1, expanded, found, pending, levels))
  }

  /** With nothing left to do, every walk ends in a session listed at its level or earlier. */
  lemma {:induction false} WalksAreCovered(t: Table, ids: seq<string>, expanded: seq<string>, found: seq<nat>,
      w: seq<string>)
    requires |found| == |expanded| && Closed(t, ids, expanded, found, [], []) && Walk(t, ids, w)
    ensures exists i :: 0 <= i < |expanded| && expanded[i] == w[|w| - 1] && found[i] <= |w|
    decreases |w|
  {
    var x := w[|w| - 1];
    if |w| == 1 {
      assert Covered(x, 1, expanded, found, [], []);
    } else {
      WalkShrinks(t, ids, w);
      WalksAreCovered(t, ids, expanded, found, w[..|w| - 1]);
      var i :| 0 <= i < |expanded| && expanded[i] == w[|w| - 2] && found[i] <= |w| - 1;
      assert Covered(x, found[i] + 1, expanded, found, [], []);
    }
  }

  /** A level that covers an id also covers it in a later state of the worklist. */
  lemma PopKeepsCovered(x: string, level: nat, expanded: seq<string>, found: seq<nat>, pending: seq<string>,
      levels: seq<nat>,
      expanded': seq<string>, found': seq<nat>, more: seq<string>, moreLevels: seq<nat>)
    requires |found| == |expanded| && |levels| == |pending| > 0 && |found'| == |expanded'| && |more| == |moreLevels|
    requires expanded <= expanded' && found <= found'
    requires Covered(pending[0], levels[0], expanded', found', [], [])
    requires Covered(x, level, expanded, found, pending, levels)
    ensures Covered(x, level, expanded', found', pending[1..] + more, levels[1..] + moreLevels)
  {
    if i :| 0 <= i < |expanded| && expanded[i] == x && found[i] <= level {
      assert expanded'[i] == x && found'[i] == found[i];
    } else {
      var i :| 0 <= i < |pending| && pending[i] == x && levels[i] <= level;
      if i > 0 {
        assert (pending[1..] + more)[i - 1] == x && (levels[1..] + moreLevels)[i - 1] == levels[i];
      }
    }
  }

  lemma PopKeepsClosed(t: Table, ids: seq<string>, expanded: seq<string>, found: seq<nat>, pending: seq<string>,
      levels: seq<nat>)
    requires |found| == |expanded| && |levels| == |pending| > 0
    requires Closed(t, ids, expanded, found, pending, levels)
    requires Covered(pending[0], levels[0], expanded, found, [], [])
    ensures Closed(t, ids, expanded, found, pending[1..], levels[1..])
  {
    assert pending[1..] + [] == pending[1..] && levels[1..] + [] == levels[1..];
    forall x | x in ids && x != "" ensures Covered(x, 1, expanded, found, pending[1..], levels[1..]) {
      PopKeepsCovered(x, 1, expanded, found, pending, levels, expanded, found, [], []);
    }
    forall i, y | 0 <= i < |expanded| && Edge(t, expanded[i], y)
      ensures Covered(y, found[i] + 1, expanded, found, pending[1..], levels[1..])
    {
      PopKeepsCovered(y, found[i] + 1, expanded, found, pending, levels, expanded, found, [], []);
    }
  }

  /** Listing the first queued session and queueing its children keeps everything covered. */
  lemma ListKeepsClosed(t: Table, ids: seq<string>, expanded: seq<string>, found: seq<nat>, pending: seq<string>,
      levels: seq<nat>, more: seq<string>)
    requires |found| == |expanded| && |levels| == |pending| > 0
    requires Closed(t, ids, expanded, found, pending, levels) && Listed(t, ids, expanded, found)
    requires forall i :: 0 <= i < |found| ==> found[i] <= levels[0]
    requires forall y :: Edge(t, pending[0], y) ==> y in more || y in expanded + [pending[0]]
    ensures Closed(t, ids, expanded + [pending[0]], found + [levels[0]], pending[1..] + more,
      levels[1..] + Levels(|more|, levels[0] + 1))
  {
    var expanded', found' := expanded + [pending[0]], found + [levels[0]];
    var moreLevels := Levels(|more|, levels[0] + 1);
    var pending', levels' := pending[1..] + more, levels[1..] + moreLevels;
    assert Covered(pending[0], levels[0], expanded', found', [], []) by {
      assert expanded'[|expanded|] == pending[0] && found'[|expanded|] == levels[0];
    }
    forall x | x in ids && x != "" ensures Covered(x, 1, expanded', found', pending', levels') {
      PopKeepsCovered(x, 1, expanded, found, pending, levels, expanded', found', more, moreLevels);
    }
    forall i, y | 0 <= i < |expanded'| && Edge(t, expanded'[i], y)
      ensures Covered(y, found'[i] + 1, expanded', found', pending', levels')
    {
      if i < |expanded| {
        assert Covered(y, found[i] + 1, expanded, found, pending, levels);
        PopKeepsCovered(y, found[i] + 1, expanded, found, pending, levels, expanded', found', more, moreLevels);
      } else if y in expanded' {
        var k :| 0 <= k < |expanded'| && expanded'[k] == y;
        assert found'[k] <= levels[0];
      } else {
        var k :| 0 <= k < |more| && more[k] == y;
        assert pending'[|pending| - 1 + k] == y && levels'[|pending| - 1 + k] == levels[0] + 1;
      }
    }
  }

  lemma ListKeepsQueued(t: Table, ids: seq<string>, pending: seq<string>, levels: seq<nat>, more: seq<string>)
    requires Queued(t, ids, pending, levels) && |pending| > 0
    requires forall y :: y in more ==> Edge(t, pending[0], y)
    ensures Queued(t, ids, pending[1..] + more, levels[1..] + Levels(|more|, levels[0] + 1))
  {
    var pending', levels' := pending[1..] + more, levels[1..] + Levels(|more|, levels[0] + 1);
    assert ReachedAt(t, ids, pending[0], levels[0]);
    var w :| WalkTo(t, ids, w, pending[0]) && |w| == levels[0];
    forall i | 0 <= i < |pending'| ensures ReachedAt(t, ids, pending'[i], levels'[i]) {
      if i < |pending| - 1 {
        assert pending'[i] == pending[i + 1];
      } else {
        assert pending'[i] in more;
        WalkGrows(t, ids, w, pending[0], pending'[i]);
      }
    }
  }

  lemma ListKeepsListed(t: Table, ids: seq<string>, expanded: seq<string>, found: seq<nat>, x: string, level: nat)
    requires Listed(t, ids, expanded, found) && x !in expanded && ReachedAt(t, ids, x, level)
    requires forall i :: 0 <= i < |found| ==> found[i] <= level
    ensures Listed(t, ids, expanded + [x], found + [level])
  {
  }

  /** The loop's invariant. */
  ghost predicate Progress(t: Table, ids: seq<string>, expanded: seq<string>, found: seq<nat>, pending: seq<string>,
      levels: seq<nat>)
  {
    && Listed(t, ids, expanded, found) && Queued(t, ids, pending, levels)
    && (pending != [] ==> forall i :: 0 <= i < |found| ==> found[i] <= levels[0])
    && Closed(t, ids, expanded, found, pending, levels)
  }

  lemma StartMakesProgress(t: Table, ids: seq<string>, pending: seq<string>)
    requires pending == NonEmpty(ids)
    ensures Progress(t, ids, [], [], pending, Levels(|pending|, 1))
  {
    var levels := Levels(|pending|, 1);
    forall i | 0 <= i < |pending| ensures ReachedAt(t, ids, pending[i], levels[i]) {
      assert pending[i] in pending;
      assert WalkTo(t, ids, [pending[i]], pending[i]);
    }
    forall x | x in ids && x != "" ensures Covered(x, 1, [], [], pending, levels) {
      assert x in pending;
    }
  }

  lemma SkipMakesProgress(t: Table, ids: seq<string>, expanded: seq<string>, found: seq<nat>, pending: seq<string>,
      levels: seq<nat>)
    requires Progress(t, ids, expanded, found, pending, levels) && pending != [] && pending[0] in expanded
    ensures Progress(t, ids, expanded, found, pending[1..], levels[1..])
  {
    var k :| 0 <= k < |expanded| && expanded[k] == pending[0];
    assert found[k] <= levels[0];
    assert Covered(pending[0], levels[0], expanded, found, [], []);
    PopKeepsClosed(t, ids, expanded, found, pending, levels);
    assert Queued(t, ids, pending[1..], levels[1..]);
  }

  lemma ListMakesProgress(t: Table, ids: seq<string>, expanded: seq<string>, found: seq<nat>, pending: seq<string>,
      levels: seq<nat>, more: seq<string>)
    requires Progress(t, ids, expanded, found, pending, levels) && pending != [] && pending[0] !in expanded
    requires forall y :: y in more ==> Edge(t, pending[0], y)
    requires forall y :: Edge(t, pending[0], y) ==> y in more || y in expanded + [pending[0]]
    ensures Progress(t, ids, expanded + [pending[0]], found + [levels[0]], pending[1..] + more,
      levels[1..] + Levels(|more|, levels[0] + 1))
  {
    var expanded', found' := expanded + [pending[0]], found + [levels[0]];
    var pending', levels' := pending[1..] + more, levels[1..] + Levels(|more|, levels[0] + 1);
    assert Listed(t, ids, expanded', found') by {
      assert ReachedAt(t, ids, pending[0], levels[0]);
      ListKeepsListed(t, ids, expanded, found, pending[0], levels[0]);
    }
    assert Queued(t, ids, pending', levels') by {
      ListKeepsQueued(t, ids, pending, levels, more);
    }
    assert Closed(t, ids, expanded', found', pending', levels') by {
      ListKeepsClosed(t, ids, expanded, found, pending, levels, more);
    }
    ListKeepsOrder(t, ids, found, pending, levels, |more|);
  }

  /** What is listed was found no later than what waits next. */
  lemma ListKeepsOrder(t: Table, ids: seq<string>, found: seq<nat>, pending: seq<string>, levels: seq<nat>, more: nat)
    requires Queued(t, ids, pending, levels) && pending != []
    requires forall i :: 0 <= i < |found| ==> found[i] <= levels[0]
    ensures var found', levels' := found + [levels[0]], levels[1..] + Levels(more, levels[0] + 1);
      levels' != [] ==> forall i :: 0 <= i < |found'| ==> found'[i] <= levels'[0]
  {
    var levels' := levels[1..] + Levels(more, levels[0] + 1);
    assert levels' != [] ==> levels[0] <= levels'[0];
  }

  lemma ChildrenAreQueued(t: Table, ids: seq<string>, x: string, expanded: seq<string>, seen: set<string>)
    requires forall y :: y in seen <==> y in expanded || y == x
    ensures var more := Unseen(Children(t, x), seen);
      && (forall y :: y in more ==> Edge(t, x, y) && y in Universe(t, ids))
      && (forall y :: Edge(t, x, y) ==> y in more || y in expanded + [x])
  {
  }

  /** The whole invariant: `seen` are the listed ids, and the queue stays within the finitely many ids there are. */
  ghost predicate Working(t: Table, ids: seq<string>, expanded: seq<string>, seen: set<string>, found: seq<nat>,
      pending: seq<string>, levels: seq<nat>)
  {
    && Progress(t, ids, expanded, found, pending, levels)
    && (forall x :: x in seen <==> x in expanded)
    && (forall x :: x in pending ==> x in Universe(t, ids))
  }

  lemma SkipKeepsWorking(t: Table, ids: seq<string>, expanded: seq<string>, seen: set<string>, found: seq<nat>,
      pending: seq<string>, levels: seq<nat>)
    requires Working(t, ids, expanded, seen, found, pending, levels) && pending != [] && pending[0] in seen
    ensures Working(t, ids, expanded, seen, found, pending[1..], levels[1..])
  {
    SkipMakesProgress(t, ids, expanded, found, pending, levels);
  }

  lemma ListKeepsWorking(t: Table, ids: seq<string>, expanded: seq<string>, seen: set<string>, found: seq<nat>,
      pending: seq<string>, levels: seq<nat>,
      seen': set<string>, more: seq<string>)
    requires Working(t, ids, expanded, seen, found, pending, levels) && pending != [] && pending[0] !in seen
    requires seen' == seen + {pending[0]} && more == Unseen(Children(t, pending[0]), seen')
    ensures Working(t, ids, expanded + [pending[0]], seen', found + [levels[0]], pending[1..] + more,
      levels[1..] + Levels(|more|, levels[0] + 1))
    ensures pending[0] in Universe(t, ids) - seen
  {
    assert pending[0] in pending;
    ChildrenAreQueued(t, ids, pending[0], expanded, seen');
    ListMakesProgress(t, ids, expanded, found, pending, levels, more);
  }

  lemma StartWorking(t: Table, ids: seq<string>, pending: seq<string>)
    requires pending == NonEmpty(ids)
    ensures Working(t, ids, [], {}, [], pending, Levels(|pending|, 1))
  {
    StartMakesProgress(t, ids, pending);
  }

  lemma DoneWorking(t: Table, ids: seq<string>, expanded: seq<string>, seen: set<string>, found: seq<nat>,
      levels: seq<nat>)
    requires Working(t, ids, expanded, seen, found, [], levels)
    ensures Lists(t, ids, expanded) && NearestFirst(t, ids, expanded)
  {
    ListedIsReachable(t, ids, expanded, found);
  }

  /** Every session reachable from the ids exactly once, nearest first. The loop ends on cyclic tables too. */
  method ExpandOpencodeSessionIds(t: Table, sessionIds: seq<string>) returns (expanded: seq<string>)
    ensures Lists(t, sessionIds, expanded)
    ensures NearestFirst(t, sessionIds, expanded)
  {
    var seen: set<string>, pending := {}, NonEmpty(sessionIds);
    expanded := [];
    ghost var found: seq<nat>, levels: seq<nat> := [], Levels(|pending|, 1);
    StartWorking(t, sessionIds, pending);
    while pending != []
      invariant Working(t, sessionIds, expanded, seen, found, pending, levels)
      decreases Universe(t, sessionIds) - seen, |pending|
    {
      var sessionId := pending[0];
      if sessionId in seen {
        SkipKeepsWorking(t, sessionIds, expanded, seen, found, pending, levels);
        pending, levels := pending[1..], levels[1..];
        continue;
      }
      ghost var before := seen;
      seen := seen + {sessionId};
      var more := Unseen(Children(t, sessionId), seen);
      ListKeepsWorking(t, sessionIds, expanded, before, found, pending, levels, seen, more);
      expanded, found := expanded + [sessionId], found + [levels[0]];
      pending, levels := pending[1..] + more, levels[1..] + Levels(|more|, levels[0] + 1);
    }
    DoneWorking(t, sessionIds, expanded, seen, found, levels);
  }

  /** No session comes before one that a shorter walk leads to. */
  ghost predicate NearestFirst(t: Table, ids: seq<string>, r: seq<string>) {
    forall i, j, w :: 0 <= i < j < |r| && WalkTo(t, ids, w, r[j]) ==> exists v :: WalkTo(t, ids, v, r[i]) && |v| <= |w|
  }

  lemma ListedIsReachable(t: Table, ids: seq<string>, r: seq<string>, found: seq<nat>)
    requires Listed(t, ids, r, found) && Closed(t, ids, r, found, [], [])
    ensures forall x :: x in r <==> Reachable(t, ids, x)
    ensures NearestFirst(t, ids, r)
  {
    forall x ensures x in r <==> Reachable(t, ids, x) {
      if x in r {
        var i :| 0 <= i < |r| && r[i] == x;
        assert ReachedAt(t, ids, r[i], found[i]);
      }
      if Reachable(t, ids, x) {
        var w :| WalkTo(t, ids, w, x);
        WalksAreCovered(t, ids, r, found, w);
      }
    }
    forall i, j, w | 0 <= i < j < |r| && WalkTo(t, ids, w, r[j])
      ensures exists v :: WalkTo(t, ids, v, r[i]) && |v| <= |w|
    {
      WalksAreCovered(t, ids, r, found, w);
      var k :| 0 <= k < |r| && r[k] == r[j] && found[k] <= |w|;
      assert k == j;
      assert ReachedAt(t, ids, r[i], found[i]);
    }
  }

  // ------------------------------------------------------------------------ usage

  datatype Usage = Usage(prompt: int, completion: int, thinking: int, cacheRead: int, total: int)

  datatype Totals = Totals(calls: int, prompt: int, completion: int, thinking: int, cacheRead: int, total: int)

  const NOTHING := Totals(0, 0, 0, 0, 0, 0)

  /** The columns of the totals. */
  datatype Column = Calls | Prompt | Completion | Thinking | CacheRead | Total

  function At(t: Totals, c: Column): int {
    match c
    case Calls => t.calls
    case Prompt => t.prompt
    case Completion => t.completion
    case Thinking => t.thinking
    case CacheRead => t.cacheRead
    case Total => t.total
  }

  /** What one session adds to a column: nothing unless it has tokens. */
  function Share(u: Usage, c: Column): int {
    if u.total <= 0 then 0
    else
      match c
      case Calls => 1
      case Prompt => u.prompt
      case Completion => u.completion
      case Thinking => u.thinking
      case CacheRead => u.cacheRead
      case Total => u.total
  }

  /** A session without recorded parts used nothing. */
  function UsageOf<T>(usage: map<T, Usage>, id: T): Usage {
    if id in usage then usage[id] else Usage(0, 0, 0, 0, 0)
  }

  ghost function SumOver<T>(ids: seq<T>, usage: map<T, Usage>, c: Column): int {
    if |ids| == 0 then 0 else Share(UsageOf(usage, ids[0]), c) + SumOver(ids[1..], usage, c)
  }

  lemma {:induction false} SumAppend<T>(a: seq<T>, b: seq<T>, usage: map<T, Usage>, c: Column)
    ensures SumOver(a + b, usage, c) == SumOver(a, usage, c) + SumOver(b, usage, c)
  {
    if a == [] {
      assert a + b == b;
    } else {
      assert (a + b)[1..] == a[1..] + b;
      SumAppend(a[1..], b, usage, c);
    }
  }

  /** Calls are the sessions with tokens, each counted once. */
  lemma {:induction false} CallsCountSessions<T(!new)>(ids: seq<T>, usage: map<T, Usage>)
    requires Distinct(ids)
    ensures SumOver(ids, usage, Calls) == |set x | x in ids && UsageOf(usage, x).total > 0|
  {
    var withTokens := set x | x in ids && UsageOf(usage, x).total > 0;
    if ids == [] {
      assert withTokens == {};
    } else {
      CallsCountSessions(ids[1..], usage);
      var others := set x | x in ids[1..] && UsageOf(usage, x).total > 0;
      assert ids[0] !in ids[1..];
      assert forall x :: x in ids <==> x == ids[0] || x in ids[1..];
      assert withTokens == others + (if UsageOf(usage, ids[0]).total > 0 then {ids[0]} else {});
    }
  }

  /** Taking one element out of a sum. */
  lemma SumWithout<T>(b: seq<T>, k: nat, usage: map<T, Usage>, c: Column)
    requires k < |b|
    ensures SumOver(b, usage, c) == Share(UsageOf(usage, b[k]), c) + SumOver(b[..k] + b[k + 1..], usage, c)
  {
    SumAppend(b[..k], b[k + 1..], usage, c);
    SumAppend(b[..k], b[k..], usage, c);
    assert b == b[..k] + b[k..];
    assert b[k..][1..] == b[k + 1..];
  }

  lemma WithoutKeepsTheRest<T>(a: seq<T>, b: seq<T>, k: nat)
    requires Distinct(a) && Distinct(b) && forall x :: x in a <==> x in b
    requires a != [] && k < |b| && b[k] == a[0]
    ensures Distinct(a[1..]) && Distinct(b[..k] + b[k + 1..])
    ensures forall x :: x in a[1..] <==> x in b[..k] + b[k + 1..]
  {
    var rest := b[..k] + b[k + 1..];
    forall x ensures x in a[1..] <==> x in rest {
      if x in a[1..] {
        assert x in a && x != a[0];
        assert x in b;
      }
      if x in rest {
        assert x in b && x != b[k];
        assert x in a;
      }
    }
  }

  /** The sum depends on the set of sessions only. */
  lemma {:induction false} SumIsOverTheSet<T>(a: seq<T>, b: seq<T>, usage: map<T, Usage>, c: Column)
    requires Distinct(a) && Distinct(b) && forall x :: x in a <==> x in b
    ensures SumOver(a, usage, c) == SumOver(b, usage, c)
    decreases |a|
  {
    HeadIsIn(b);
    if a != [] {
      assert a[0] in a;
      var k :| 0 <= k < |b| && b[k] == a[0];
      WithoutKeepsTheRest(a, b, k);
      SumIsOverTheSet(a[1..], b[..k] + b[k + 1..], usage, c);
      SumWithout(b, k, usage, c);
    }
  }

  /** The listing names exactly the sessions that can be reached, each once. */
  ghost predicate Lists(t: Table, ids: seq<string>, listing: seq<string>) {
    Distinct(listing) && forall x :: x in listing <==> Reachable(t, ids, x)
  }

  /** The first `n` of a listing can be read, and the next one cannot, if there is a next one. */
  ghost predicate ReadUpTo(t: Table, ids: seq<string>, failing: set<string>, listing: seq<string>, n: nat) {
    && Lists(t, ids, listing) && n <= |listing|
    && (forall k :: 0 <= k < n ==> listing[k] !in failing) && (n < |listing| ==> listing[n] in failing)
  }

  ghost predicate IsSum(r: Totals, ids: seq<string>, usage: map<string, Usage>) {
    forall c :: At(r, c) == SumOver(ids, usage, c)
  }

  lemma SumOneMore(ids: seq<string>, i: nat, usage: map<string, Usage>, c: Column)
    requires i < |ids|
    ensures SumOver(ids[..i + 1], usage, c) == SumOver(ids[..i], usage, c) + Share(UsageOf(usage, ids[i]), c)
  {
    SumWithout(ids[..i + 1], i, usage, c);
    assert ids[..i + 1][..i] + ids[..i + 1][i + 1..] == ids[..i];
  }

  function Added(t: Totals, u: Usage): Totals {
    Totals(t.calls + 1, t.prompt + u.prompt, t.completion + u.completion, t.thinking + u.thinking,
           t.cacheRead + u.cacheRead, t.total + u.total)
  }

  lemma AddedIsSum(r: Totals, ids: seq<string>, i: nat, usage: map<string, Usage>)
    requires i < |ids| && IsSum(r, ids[..i], usage)
    ensures var u := UsageOf(usage, ids[i]); IsSum(if u.total > 0 then Added(r, u) else r, ids[..i + 1], usage)
  {
    var u := UsageOf(usage, ids[i]);
    var r' := if u.total > 0 then Added(r, u) else r;
    forall c ensures At(r', c) == SumOver(ids[..i + 1], usage, c) {
      SumOneMore(ids, i, usage, c);
      assert At(r, c) == SumOver(ids[..i], usage, c);
      assert At(r', c) == At(r, c) + Share(u, c) by {
        match c case Calls => case Prompt => case Completion => case Thinking => case CacheRead => case Total =>
      }
    }
  }

  /** `failing` are the sessions whose usage query raises; the totals then stay as they are. */
  method LoadUsageMetrics(dbExists: bool, t: Table, sessionIds: seq<string>, usage: map<string, Usage>,
      failing: set<string>) returns (r: Totals)
    ensures !dbExists ==> r == NOTHING
    ensures dbExists && (forall x :: x in failing ==> !Reachable(t, sessionIds, x)) ==>
      forall listing :: Lists(t, sessionIds, listing) ==> IsSum(r, listing, usage)
    ensures dbExists ==> exists listing, n: nat ::
      ReadUpTo(t, sessionIds, failing, listing, n) && IsSum(r, listing[..n], usage)
  {
    r := NOTHING;
    if !dbExists || sessionIds == [] {
      forall listing | Lists(t, sessionIds, listing) && sessionIds == [] ensures listing == [] {
        NothingToList(t, listing);
      }
      if sessionIds == [] {
        NothingIsReachable(t);
        var none: seq<string> := [];
        assert ReadUpTo(t, sessionIds, failing, none, 0) && none[..0] == none;
      }
      return;
    }
    var ids := ExpandOpencodeSessionIds(t, sessionIds);
    assert Lists(t, sessionIds, ids);
    for i := 0 to |ids|
      invariant forall k :: 0 <= k < i ==> ids[k] !in failing
      invariant IsSum(r, ids[..i], usage)
    {
      if ids[i] in failing {
        assert ReadUpTo(t, sessionIds, failing, ids, i);
        return;
      }
      AddedIsSum(r, ids, i, usage);
      if UsageOf(usage, ids[i]).total > 0 {
        r := Added(r, UsageOf(usage, ids[i]));
      }
    }
    assert ids[..|ids|] == ids && ReadUpTo(t, sessionIds, failing, ids, |ids|);
    forall listing | Lists(t, sessionIds, listing) ensures IsSum(r, listing, usage) {
      forall c ensures At(r, c) == SumOver(listing, usage, c) {
        SumIsOverTheSet(ids, listing, usage, c);
      }
    }
  }

  lemma NothingIsReachable(t: Table)
    ensures Lists(t, [], [])
  {
  }

  lemma NothingToList(t: Table, listing: seq<string>)
    requires Lists(t, [], listing)
    ensures listing == []
  {
    HeadIsIn(listing);
  }

  /** Repeating ids, or adding ids that were reachable anyway, changes nothing. */
  lemma OverlapsReachTheSame(t: Table, a: seq<string>, b: seq<string>)
    requires forall x :: x in a && x != "" ==> Reachable(t, b, x)
    requires forall x :: x in b && x != "" ==> Reachable(t, a, x)
    ensures forall x :: Reachable(t, a, x) <==> Reachable(t, b, x)
  {
    forall x ensures Reachable(t, a, x) <==> Reachable(t, b, x) {
      if w :| WalkTo(t, a, w, x) {
        ReachableThrough(t, a, b, w);
      }
      if w :| WalkTo(t, b, w, x) {
        ReachableThrough(t, b, a, w);
      }
    }
  }

  lemma {:induction false} ReachableThrough(t: Table, a: seq<string>, b: seq<string>, w: seq<string>)
    requires forall x :: x in a && x != "" ==> Reachable(t, b, x)
    requires Walk(t, a, w)
    ensures Reachable(t, b, w[|w| - 1])
    decreases |w|
  {
    if |w| > 1 {
      WalkShrinks(t, a, w);
      ReachableThrough(t, a, b, w[..|w| - 1]);
      var v :| WalkTo(t, b, v, w[|w| - 2]);
      WalkGrows(t, b, v, w[|w| - 2], w[|w| - 1]);
    }
  }
}
