/**
 How far several daemons can exceed the callback limits, exactly: runs that reach the bounds of
 `CallbackRuns`, and the conditions under which a callback can succeed twice.
 */
module CallbackLimits {
  import opened Basics
  import opened Store
  import opened Runs
  import opened CallbackRuns

  // ------------------------------------------------------------ longer and longer runs

  ghost function Last(r: Run): World
    requires r.Valid()
  {
    r.worlds[|r.worlds| - 1]
  }

  ghost function Extend(r: Run, e: Event): Run
    requires r.Valid()
  {
    Run(r.events + [e], r.worlds + [Next(Last(r), e, r.cfg)], r.cfg)
  }

  ghost predicate Until(r: Run, now: int) { forall k :: 0 <= k < |r.events| ==> r.events[k].commit <= now }

  lemma ExtendIsValid(r: Run, e: Event)
    requires r.Valid() && Enabled(Last(r), e, r.cfg) && Until(r, e.commit)
    ensures Extend(r, e).Valid() && Until(Extend(r, e), e.commit) && Last(Extend(r, e)) == Next(Last(r), e, r.cfg)
  {
    var x := Extend(r, e);
    forall i: nat | i < |x.events| ensures x.StepAt(i) {
      if i < |r.events| {
        assert r.StepAt(i);
      }
    }
  }

  lemma {:induction false} ExtendCounts(r: Run, e: Event, i: nat, n: nat, id: TaskId)
    requires r.Valid() && i <= n <= |r.events|
    ensures Calls(Extend(r, e), i, n, id) == Calls(r, i, n, id) && Acks(Extend(r, e), i, n, id) == Acks(r, i, n, id)
  {
    if i < n {
      ExtendCounts(r, e, i, n - 1, id);
      assert IsCall(Extend(r, e), n - 1, id) == IsCall(r, n - 1, id);
    }
  }

  /** The payload depends on the row, here through its gate, when the callback is sent. */
  ghost predicate RowPayloads(r: Run, digestOf: Option<Gate> -> string)
    requires r.Valid()
  {
    forall k :: 0 <= k < |r.events| && r.events[k].op.OpSendCallback? && r.Row(k, r.events[k].op.id).Some? ==>
      r.events[k].op.digest == digestOf(r.Row(k, r.events[k].op.id).value.gate)
  }

  ghost predicate IsSend(r: Run, k: nat, id: TaskId)
    requires k < |r.events|
  {
    r.events[k].op.OpSendCallback? && r.events[k].op.id == id
  }

  /** Every payload sent for the task by events `i` to `n - 1` has this digest. */
  ghost predicate Digests(r: Run, i: nat, n: nat, id: TaskId, digest: string)
    requires n <= |r.events|
  {
    forall k :: i <= k < n && IsSend(r, k, id) ==> r.events[k].op.digest == digest
  }

  ghost predicate SteadyPayload(r: Run, i: nat, n: nat, id: TaskId)
    requires n <= |r.events|
  {
    exists digest :: Digests(r, i, n, id, digest)
  }

  /** No payload fails to be built. */
  ghost predicate NoneBreaks(r: Run, i: nat, n: nat, id: TaskId)
    requires n <= |r.events|
  {
    forall k :: i <= k < n && IsSend(r, k, id) ==> !r.events[k].op.result.BrokenBeforeSend?
  }

  // ------------------------------------------------------------------- small runs

  /** What a run over one row, claimed and then finished, has come to. */
  datatype Story = Story(run: Run, calls: nat, acks: nat, row: Row, now: int, digests: set<string>, breaks: bool)

  ghost predicate Told(s: Story, daemons: set<DaemonId>, digestOf: Option<Gate> -> string) {
    var r, n := s.run, |s.run.events|;
    && Epoch(r, 2, n, "t") && HandledBy(r, daemons) && Until(r, s.now)
    && Calls(r, 2, n, "t") == s.calls && Acks(r, 2, n, "t") == s.acks
    && Last(r).db == Tables(map["t" := s.row], [])
    && RowPayloads(r, digestOf)
    && (forall k :: 2 <= k < n && IsSend(r, k, "t") ==> r.events[k].op.digest in s.digests)
    && (!s.breaks ==> NoneBreaks(r, 2, n, "t"))
  }

  const PASSED := Row(Success, Some(GatePassed), 100, 0, None, Some("a"), Some(0), 1, true,
    Callback(Some(Retrying), 0, Some(0), None))

  /** Create, claim and finish one row with a callback target. */
  lemma Opening(cfg: Settings, daemons: set<DaemonId>, digestOf: Option<Gate> -> string) returns (s: Story)
    ensures Told(s, daemons, digestOf) && s.run.cfg == cfg && s.calls == s.acks == 0 && s.now == 0 && s.digests == {}
    ensures !s.breaks
    ensures s.row == PASSED && Last(s.run).lists == map[]
  {
    var queued := Row(Queued, None, 100, 0, None, None, None, 0, true, FRESH_CALLBACK);
    var held := queued.(status := Running, claimedBy := Some("a"), leaseExpiresAt := Some(0), attempts := 1);
    var r := Run([Event(0, 0, OpCreate("t", Queued, 100, true)), Event(0, 0, OpClaim("t", "a", 0)),
                  Event(0, 0, OpOutcome("t", Success, GatePassed))],
                 [START, World(Tables(map["t" := queued], []), map[]), World(Tables(map["t" := held], []), map[]),
                  World(Tables(map["t" := PASSED], []), map[])],
                 cfg);
    assert r.StepAt(0);
    assert r.StepAt(1);
    assert r.StepAt(2);
    assert r.Valid();
    assert !IsCall(r, 2, "t");
    assert Calls(r, 2, 2, "t") == 0 && Acks(r, 2, 2, "t") == 0;
    s := Story(r, 0, 0, PASSED, 0, {}, false);
  }

  /** One more event that is no outcome. */
  lemma Goes(s: Story, daemons: set<DaemonId>, digestOf: Option<Gate> -> string, e: Event, row: Row) returns (t: Story)
    requires Told(s, daemons, digestOf) && Enabled(Last(s.run), e, s.run.cfg) && s.now <= e.commit
    requires !e.op.OpOutcome? && ((e.op.OpListDue? || e.op.OpSendCallback?) ==> e.op.daemon in daemons)
    requires e.op.OpSendCallback? ==> e.op.id == "t" && e.op.digest == digestOf(s.row.gate)
    requires Next(Last(s.run), e, s.run.cfg).db == Tables(map["t" := row], [])
    ensures Told(t, daemons, digestOf) && t.run == Extend(s.run, e) && t.row == row && t.now == e.commit
    ensures Last(t.run) == Next(Last(s.run), e, s.run.cfg)
    ensures var called := e.op.OpSendCallback? && CallsClient(Last(s.run).db, "t", e.op.digest, e.op.result);
      && t.calls == s.calls + (if called then 1 else 0)
      && t.acks == s.acks + (if called && e.op.result.Acknowledged? then 1 else 0)
    ensures t.digests == s.digests + (if e.op.OpSendCallback? then {e.op.digest} else {})
    ensures t.breaks == (s.breaks || (e.op.OpSendCallback? && e.op.result.BrokenBeforeSend?))
  {
    var r, n := s.run, |s.run.events|;
    assert Until(r, e.commit);
    ExtendIsValid(r, e);
    ExtendCounts(r, e, 2, n, "t");
    var x := Extend(r, e);
    var called := e.op.OpSendCallback? && CallsClient(Last(r).db, "t", e.op.digest, e.op.result);
    assert IsCall(x, n, "t") <==> called;
    t := Story(x, s.calls + (if called then 1 else 0),
               s.acks + (if called && e.op.result.Acknowledged? then 1 else 0), row, e.commit,
               s.digests + (if e.op.OpSendCallback? then {e.op.digest} else {}),
               s.breaks || (e.op.OpSendCallback? && e.op.result.BrokenBeforeSend?));
    GoesOn(s, daemons, digestOf, e, x);
  }

  /** What holds of all events so far holds of one more. */
  lemma GoesOn(s: Story, daemons: set<DaemonId>, digestOf: Option<Gate> -> string, e: Event, x: Run)
    requires Told(s, daemons, digestOf) && x == Extend(s.run, e) && x.Valid()
    requires !e.op.OpOutcome? && ((e.op.OpListDue? || e.op.OpSendCallback?) ==> e.op.daemon in daemons)
    requires e.op.OpSendCallback? ==> e.op.id == "t" && e.op.digest == digestOf(s.row.gate)
    ensures Epoch(x, 2, |x.events|, "t") && HandledBy(x, daemons) && RowPayloads(x, digestOf)
    ensures forall k ::
      2 <= k < |x.events| && IsSend(x, k, "t") ==>
        x.events[k].op.digest in s.digests + (if e.op.OpSendCallback? then {e.op.digest} else {})
    ensures !s.breaks && !(e.op.OpSendCallback? && e.op.result.BrokenBeforeSend?) ==> NoneBreaks(x, 2, |x.events|, "t")
  {
    var r, n := s.run, |s.run.events|;
    assert x.events[n] == e && x.Row(n, "t") == Some(s.row);
    forall k | 0 <= k < n ensures x.events[k] == r.events[k] && forall id :: x.Row(k, id) == r.Row(k, id) {
    }
    assert forall k :: 2 <= k < n ==> (IsSend(x, k, "t") <==> IsSend(r, k, "t"));
    forall k | 0 <= k < |x.events| && x.events[k].op.OpSendCallback? && x.Row(k, x.events[k].op.id).Some?
      ensures x.events[k].op.digest == digestOf(x.Row(k, x.events[k].op.id).value.gate)
    {
      assert k < n ==> r.Row(k, r.events[k].op.id) == x.Row(k, x.events[k].op.id);
    }
  }

  /** A daemon lists the callback. */
  lemma Lists(s: Story, daemons: set<DaemonId>, digestOf: Option<Gate> -> string, d: DaemonId, now: int)
      returns (t: Story)
    requires Told(s, daemons, digestOf) && d in daemons && s.now <= now
    requires Listed(Last(s.run), d) == {} && CallbackDue(s.row, now)
    ensures Told(t, daemons, digestOf) && t == s.(run := t.run, now := now) && t.run.cfg == s.run.cfg
    ensures forall x :: Listed(Last(t.run), x) == if x == d then {"t"} else Listed(Last(s.run), x)
  {
    t := Goes(s, daemons, digestOf, Event(now, now, OpListDue(d, {"t"})), s.row);
    assert s.digests + {} == s.digests;
  }

  /** A daemon sends the callback it listed. */
  lemma Sends(s: Story, daemons: set<DaemonId>, digestOf: Option<Gate> -> string, d: DaemonId, result: SendResult,
      now: int) returns (t: Story)
    requires Told(s, daemons, digestOf) && d in daemons && s.now <= now
    requires "t" in Listed(Last(s.run), d) && PostsMade(s.run.cfg.callbackRetryTimes, result)
    ensures Told(t, daemons, digestOf) && t.run.cfg == s.run.cfg && t.now == now
    ensures t.row == s.row.(callback := SentCallback(s.run.cfg, s.row, digestOf(s.row.gate), result, now))
    ensures forall x ::
      Listed(Last(t.run), x) == if x == d then Listed(Last(s.run), d) - {"t"} else Listed(Last(s.run), x)
    ensures var called := CallsClient(Tables(map["t" := s.row], []), "t", digestOf(s.row.gate), result);
      && t.calls == s.calls + (if called then 1 else 0)
      && t.acks == s.acks + (if called && result.Acknowledged? then 1 else 0)
    ensures t.digests == s.digests + {digestOf(s.row.gate)}
    ensures t.breaks == (s.breaks || result.BrokenBeforeSend?)
  {
    var digest := digestOf(s.row.gate);
    var row := s.row.(callback := SentCallback(s.run.cfg, s.row, digest, result, now));
    assert map["t" := s.row]["t" := row] == map["t" := row];
    t := Goes(s, daemons, digestOf, Event(now, now, OpSendCallback("t", d, digest, result)), row);
  }

  /** An operator requeues the row. */
  lemma Requeues(s: Story, daemons: set<DaemonId>, digestOf: Option<Gate> -> string) returns (t: Story)
    requires Told(s, daemons, digestOf)
    ensures Told(t, daemons, digestOf) && t == s.(run := t.run, row := t.row) && t.run.cfg == s.run.cfg
    ensures t.row == s.row.(status := Queued, gate := None, claimedBy := None, leaseExpiresAt := None)
    ensures Last(t.run).lists == Last(s.run).lists
  {
    var row := s.row.(status := Queued, gate := None, claimedBy := None, leaseExpiresAt := None);
    assert map["t" := s.row]["t" := row] == map["t" := row];
    assert AcknowledgeAll([], "t") == [];
    t := Goes(s, daemons, digestOf, Event(s.now, s.now, OpRequeue("t")), row);
    assert s.digests + {} == s.digests;
  }

  // ---------------------------------------------------- the call budget is exact

  /** One daemon fails until only the last counted attempt is left. */
  lemma FailsUntilTheLast(cfg: Settings, daemons: set<DaemonId>, digestOf: Option<Gate> -> string, d: DaemonId)
      returns (s: Story)
    requires d in daemons
    ensures Told(s, daemons, digestOf) && s.run.cfg == cfg && s.calls == Max(1, cfg.maxCallbackAttempts) - 1
    ensures s.row.hasTarget && s.row.callback.attempts == s.calls && s.row.callback.state == Some(Retrying)
    ensures s.row.callback.nextRetryAt.Some?
    ensures forall x :: Listed(Last(s.run), x) == {}
  {
    s := Opening(cfg, daemons, digestOf);
    var k := 0;
    while k < cfg.maxCallbackAttempts - 1
      invariant 0 <= k <= Max(1, cfg.maxCallbackAttempts) - 1
      invariant Told(s, daemons, digestOf) && s.run.cfg == cfg && s.calls == k
      invariant s.row.hasTarget && s.row.callback.attempts == k && s.row.callback.state == Some(Retrying)
      invariant s.row.callback.nextRetryAt.Some?
      invariant forall x :: Listed(Last(s.run), x) == {}
    {
      var now := Max(s.now, s.row.callback.nextRetryAt.value);
      var listed := Lists(s, daemons, digestOf, d, now);
      assert {"t"} - {"t"} == {};
      s := Sends(listed, daemons, digestOf, d, Refused(Max(0, cfg.callbackRetryTimes + 1)), now);
      k := k + 1;
    }
  }

  /** All daemons list the callback while it is due. */
  lemma AllList(s: Story, daemons: set<DaemonId>, digestOf: Option<Gate> -> string) returns (t: Story)
    requires Told(s, daemons, digestOf) && s.row.callback.state == Some(Retrying) && s.row.callback.nextRetryAt.Some?
    requires forall x :: Listed(Last(s.run), x) == {}
    ensures Told(t, daemons, digestOf) && t == s.(run := t.run, now := t.now) && t.run.cfg == s.run.cfg
    ensures forall x :: x in daemons ==> "t" in Listed(Last(t.run), x)
  {
    t := s;
    var now := Max(s.now, s.row.callback.nextRetryAt.value);
    var todo := daemons;
    while todo != {}
      invariant todo <= daemons && t.now <= now
      invariant Told(t, daemons, digestOf) && t == s.(run := t.run, now := t.now) && t.run.cfg == s.run.cfg
      invariant forall x :: x in todo ==> Listed(Last(t.run), x) == {}
      invariant forall x :: x in daemons - todo ==> "t" in Listed(Last(t.run), x)
    {
      var d :| d in todo;
      t := Lists(t, daemons, digestOf, d, now);
      todo := todo - {d};
    }
  }

  /** All daemons send what they listed, and all are refused. */
  lemma AllSend(s: Story, daemons: set<DaemonId>, digestOf: Option<Gate> -> string) returns (t: Story)
    requires Told(s, daemons, digestOf) && s.row.hasTarget && s.row.callback.state != Some(Succeeded)
    requires forall x :: x in daemons ==> "t" in Listed(Last(s.run), x)
    ensures Told(t, daemons, digestOf) && t.run.cfg == s.run.cfg && t.calls == s.calls + |daemons|
  {
    t := s;
    var todo := daemons;
    while todo != {}
      invariant todo <= daemons && t.calls + |todo| == s.calls + |daemons|
      invariant Told(t, daemons, digestOf) && t.run.cfg == s.run.cfg && t.row.hasTarget
      invariant t.row.callback.state != Some(Succeeded)
      invariant forall x :: x in todo ==> "t" in Listed(Last(t.run), x)
    {
      var d :| d in todo;
      t := Sends(t, daemons, digestOf, d, Refused(Max(0, s.run.cfg.callbackRetryTimes + 1)), t.now);
      todo := todo - {d};
    }
  }

  /** A run of these daemons makes this many calls within one epoch. */
  ghost predicate CanCall(cfg: Settings, daemons: set<DaemonId>, calls: nat) {
    exists r: Run, i: nat, n: nat, id: TaskId ::
      r.cfg == cfg && Epoch(r, i, n, id) && HandledBy(r, daemons) && Calls(r, i, n, id) == calls
  }

  /** The call budget is reached, whatever the limit and however many daemons there are. */
  lemma CallBudgetIsReached(cfg: Settings, daemons: set<DaemonId>)
    requires daemons != {}
    ensures CanCall(cfg, daemons, Max(1, cfg.maxCallbackAttempts) + |daemons| - 1)
  {
    var digestOf: Option<Gate> -> string := _ => "";
    var d :| d in daemons;
    var s := FailsUntilTheLast(cfg, daemons, digestOf, d);
    s := AllList(s, daemons, digestOf);
    s := AllSend(s, daemons, digestOf);
    assert Epoch(s.run, 2, |s.run.events|, "t");
  }

  /** The configured limit can be exceeded exactly if more than one daemon handles callbacks. */
  lemma LimitExceededIffSeveralDaemons(cfg: Settings, daemons: set<DaemonId>)
    ensures (exists calls: nat :: calls > Max(1, cfg.maxCallbackAttempts) && CanCall(cfg, daemons, calls)) <==>
      |daemons| >= 2
  {
    if |daemons| >= 2 {
      CallBudgetIsReached(cfg, daemons);
    }
    forall calls: nat | CanCall(cfg, daemons, calls)
      ensures calls <= Max(1, cfg.maxCallbackAttempts) + Max(0, |daemons| - 1) {
      var r: Run, i: nat, n: nat, id: TaskId :| r.cfg == cfg && Epoch(r, i, n, id) && HandledBy(r, daemons)
        && Calls(r, i, n, id) == calls;
      CallBudget(r, i, n, id, daemons);
    }
  }

  // ------------------------------------------------------------ succeeding twice

  /** After a success nothing is sent again, as long as payloads stay the same and none fails to be built. */
  lemma {:induction false} SteadySucceedsOnce(r: Run, i: nat, n: nat, id: TaskId, daemons: set<DaemonId>,
    digest: string)
    requires Epoch(r, i, n, id) && HandledBy(r, daemons) && Digests(r, i, n, id, digest) && NoneBreaks(r, i, n, id)
    ensures r.Row(n, id).Some? && Acks(r, i, n, id) <= 1
    ensures Acks(r, i, n, id) == 1 ==> r.Row(n, id).value.hasTarget && AlreadyAcknowledged(r.Row(n, id).value, digest)
  {
    if n == i + 1 {
      RowSteps(r, n, id);
      assert Acks(r, i, i, id) == 0;
    } else {
      SteadySucceedsOnce(r, i, n - 1, id, daemons, digest);
      CallbackSteps(r, i, n, id, daemons);
      assert IsSend(r, n - 1, id) ==>
          r.events[n - 1].op.digest == digest && !r.events[n - 1].op.result.BrokenBeforeSend?;
    }
  }

  /**
     With two daemons and at most two counted attempts, a payload that fails to be built after a success
     uses up the limit.
   */
  ghost predicate SpentBySuccess(r: Run, n: nat, id: TaskId, daemons: set<DaemonId>, digest: string)
    requires n < |r.worlds|
  {
    && r.Row(n, id).Some?
    && var c, held := r.Row(n, id).value.callback, Holders(r.worlds[n], daemons, id);
    && c.attempts >= 1 && r.Row(n, id).value.hasTarget
    && ((c.state == Some(Succeeded) && c.digest == Some(digest) && |held| <= 1)
      || (c.state == Some(Exhausted) && held == {}))
  }

  lemma HoldersShrink(held: set<DaemonId>, daemons: set<DaemonId>, d: DaemonId, holds: set<DaemonId>)
    requires held <= daemons && d in held && holds == held - {d}
    ensures |holds| == |held| - 1 <= |daemons| - 1
  {
    SubsetSize(held, daemons);
  }

  lemma {:induction false} TwoDaemonsSucceedOnce(r: Run, i: nat, n: nat, id: TaskId, daemons: set<DaemonId>,
      digest: string)
    requires Epoch(r, i, n, id) && HandledBy(r, daemons) && Digests(r, i, n, id, digest)
    requires |daemons| <= 2 && r.cfg.maxCallbackAttempts <= 2
    ensures r.Row(n, id).Some? && Acks(r, i, n, id) <= 1
    ensures Acks(r, i, n, id) == 1 ==> SpentBySuccess(r, n, id, daemons, digest)
  {
    if n == i + 1 {
      RowSteps(r, n, id);
      assert Acks(r, i, i, id) == 0;
    } else {
      TwoDaemonsSucceedOnce(r, i, n - 1, id, daemons, digest);
      CallbackSteps(r, i, n, id, daemons);
      var held, holds := Holders(r.worlds[n - 1], daemons, id), Holders(r.worlds[n], daemons, id);
      if IsSend(r, n - 1, id) {
        HoldersShrink(held, daemons, r.events[n - 1].op.daemon, holds);
      } else if Acks(r, i, n - 1, id) == 1 {
        SubsetSize(holds, held);
      }
    }
  }

  /**
     Some run of these daemons succeeds twice within one epoch, with payloads that change or fail to be
     built only where allowed.
   */
  ghost predicate CanSucceedTwice(cfg: Settings, daemons: set<DaemonId>, changes: bool, breaks: bool) {
    exists r: Run, i: nat, n: nat, id: TaskId, digestOf: Option<Gate> -> string ::
      r.cfg == cfg && SucceedsTwice(r, i, n, id, digestOf, daemons, changes, breaks)
  }

  ghost predicate SucceedsTwice(r: Run, i: nat, n: nat, id: TaskId, digestOf: Option<Gate> -> string,
      daemons: set<DaemonId>, changes: bool, breaks: bool)
  {
    && Epoch(r, i, n, id) && HandledBy(r, daemons) && RowPayloads(r, digestOf)
    && (changes || SteadyPayload(r, i, n, id)) && (breaks || NoneBreaks(r, i, n, id))
    && Acks(r, i, n, id) >= 2
  }

  /**
     What a second success takes: another daemon with a stale list, and a payload that changed or could
     not be built.
   */
  predicate RoomForTwo(cfg: Settings, daemons: nat, changes: bool, breaks: bool) {
    (changes && daemons >= 2) || (breaks && (daemons >= 3 || (daemons >= 2 && cfg.maxCallbackAttempts >= 3)))
  }

  lemma SecondSuccessNeeds(r: Run, i: nat, n: nat, id: TaskId, digestOf: Option<Gate> -> string, daemons: set<DaemonId>,
      changes: bool, breaks: bool)
    requires SucceedsTwice(r, i, n, id, digestOf, daemons, changes, breaks)
    ensures RoomForTwo(r.cfg, |daemons|, changes, breaks)
  {
    if |daemons| < 2 {
      var d := SoleDaemon(daemons);
      assert HandledBy(r, {d});
      AtMostOneAcknowledgement(r, i, n, id, d);
    } else if !changes {
      var digest :| Digests(r, i, n, id, digest);
      if !breaks {
        SteadySucceedsOnce(r, i, n, id, daemons, digest);
      } else if |daemons| == 2 && r.cfg.maxCallbackAttempts <= 2 {
        TwoDaemonsSucceedOnce(r, i, n, id, daemons, digest);
      }
    }
  }

  lemma SoleDaemon(daemons: set<DaemonId>) returns (d: DaemonId)
    requires |daemons| < 2
    ensures daemons <= {d}
  {
    if daemons == {} {
      d := "";
    } else {
      d :| d in daemons;
      assert |daemons - {d}| == 0;
    }
  }

  lemma Two(daemons: set<DaemonId>) returns (a: DaemonId, b: DaemonId)
    requires |daemons| >= 2
    ensures a in daemons && b in daemons && a != b
  {
    a :| a in daemons;
    assert |daemons - {a}| >= 1;
    b :| b in daemons - {a};
  }

  /** The payload says passed or not; a requeue in between changes it. */
  lemma RequeueMakesTwo(cfg: Settings, daemons: set<DaemonId>, breaks: bool)
    requires cfg.callbackRetryTimes >= 0 && |daemons| >= 2
    ensures CanSucceedTwice(cfg, daemons, true, breaks)
  {
    var digestOf: Option<Gate> -> string := gate => if gate == Some(GatePassed) then "p" else "f";
    assert digestOf(Some(GatePassed))[0] != digestOf(None)[0];
    var a, b := Two(daemons);
    var s := Opening(cfg, daemons, digestOf);
    s := Lists(s, daemons, digestOf, a, 0);
    s := Lists(s, daemons, digestOf, b, 0);
    s := Sends(s, daemons, digestOf, a, Acknowledged(1), 0);
    s := Requeues(s, daemons, digestOf);
    s := Sends(s, daemons, digestOf, b, Acknowledged(1), 0);
    assert SucceedsTwice(s.run, 2, |s.run.events|, "t", digestOf, daemons, true, breaks);
  }

  /** A payload that fails to be built re-arms the callback, and the next list sends it again. */
  lemma BreakMakesTwo(cfg: Settings, daemons: set<DaemonId>, changes: bool)
    requires cfg.callbackRetryTimes >= 0 && |daemons| >= 2 && cfg.maxCallbackAttempts >= 3
    ensures CanSucceedTwice(cfg, daemons, changes, true)
  {
    var digestOf: Option<Gate> -> string := _ => "";
    var a, b := Two(daemons);
    var s := Opening(cfg, daemons, digestOf);
    s := Lists(s, daemons, digestOf, a, 0);
    s := Lists(s, daemons, digestOf, b, 0);
    s := Sends(s, daemons, digestOf, a, Acknowledged(1), 0);
    s := Sends(s, daemons, digestOf, b, BrokenBeforeSend, 0);
    var now := Max(0, s.row.callback.nextRetryAt.value);
    s := Lists(s, daemons, digestOf, a, now);
    LastOfThreeSends(s, daemons, digestOf, a, changes);
  }

  /** With a third daemon the failed payload need not be listed again. */
  lemma ThirdDaemonMakesTwo(cfg: Settings, daemons: set<DaemonId>, changes: bool)
    requires cfg.callbackRetryTimes >= 0 && |daemons| >= 3
    ensures CanSucceedTwice(cfg, daemons, changes, true)
  {
    var digestOf: Option<Gate> -> string := _ => "";
    var c :| c in daemons;
    var a, b := Two(daemons - {c});
    var s := Opening(cfg, daemons, digestOf);
    s := Lists(s, daemons, digestOf, a, 0);
    s := Lists(s, daemons, digestOf, b, 0);
    s := Lists(s, daemons, digestOf, c, 0);
    ThreeSend(s, daemons, digestOf, a, b, c, changes);
  }

  lemma ThreeSend(s0: Story, daemons: set<DaemonId>, digestOf: Option<Gate> -> string, a: DaemonId, b: DaemonId,
      c: DaemonId, changes: bool)
    requires Told(s0, daemons, digestOf) && s0.acks == 0 && s0.row == PASSED && s0.digests == {}
    requires s0.run.cfg.callbackRetryTimes >= 0
    requires {a, b, c} <= daemons && a != b && b != c && a != c
    requires forall x :: x in {a, b, c} ==> "t" in Listed(Last(s0.run), x)
    requires digestOf(Some(GatePassed)) == ""
    ensures CanSucceedTwice(s0.run.cfg, daemons, changes, true)
  {
    var s := Sends(s0, daemons, digestOf, a, Acknowledged(1), s0.now);
    s := Sends(s, daemons, digestOf, b, BrokenBeforeSend, s.now);
    LastOfThreeSends(s, daemons, digestOf, c, changes);
  }

  lemma LastOfThreeSends(s0: Story, daemons: set<DaemonId>, digestOf: Option<Gate> -> string, c: DaemonId,
      changes: bool)
    requires Told(s0, daemons, digestOf) && s0.acks == 1 && s0.digests == {""} && s0.row.hasTarget
    requires s0.row.callback.state != Some(Succeeded) && digestOf(s0.row.gate) == ""
    requires c in daemons && "t" in Listed(Last(s0.run), c) && s0.run.cfg.callbackRetryTimes >= 0
    ensures CanSucceedTwice(s0.run.cfg, daemons, changes, true)
  {
    var s := Sends(s0, daemons, digestOf, c, Acknowledged(1), s0.now);
    assert Digests(s.run, 2, |s.run.events|, "t", "");
    assert SucceedsTwice(s.run, 2, |s.run.events|, "t", digestOf, daemons, changes, true);
  }

  /**
     Exactly when a callback can succeed twice between two outcome writes: with a second daemon if its
     payload can change, and if a payload can fail to be built with a third daemon, or a second one
     and a limit of at least three.
   */
  lemma SecondSuccessIff(cfg: Settings, daemons: set<DaemonId>, changes: bool, breaks: bool)
    requires cfg.callbackRetryTimes >= 0
    ensures CanSucceedTwice(cfg, daemons, changes, breaks) <==> RoomForTwo(cfg, |daemons|, changes, breaks)
  {
    if changes && |daemons| >= 2 {
      RequeueMakesTwo(cfg, daemons, breaks);
    } else if breaks && |daemons| >= 3 {
      ThirdDaemonMakesTwo(cfg, daemons, changes);
    } else if breaks && |daemons| >= 2 && cfg.maxCallbackAttempts >= 3 {
      BreakMakesTwo(cfg, daemons, changes);
    }
    if CanSucceedTwice(cfg, daemons, changes, breaks) {
      var r: Run, i: nat, n: nat, id: TaskId, digestOf: Option<Gate> -> string :|
        r.cfg == cfg && SucceedsTwice(r, i, n, id, digestOf, daemons, changes, breaks);
      SecondSuccessNeeds(r, i, n, id, digestOf, daemons, changes, breaks);
    }
  }
}
