/**
 Callback budgets over whole runs.

 A daemon lists the due callbacks first and sends them afterwards, so with several daemons a listed
 callback may no longer be due when it is sent. An epoch of a task starts with an outcome write and
 lasts as long as no other outcome of the task is written.
 */
module CallbackRuns {
  import opened Basics
  import opened Store
  import opened Runs

  /** Only these daemons handle callbacks in the run. */
  ghost predicate HandledBy(r: Run, daemons: set<DaemonId>) {
    forall k :: 0 <= k < |r.events| ==>
      (r.events[k].op.OpListDue? || r.events[k].op.OpSendCallback?) ==> r.events[k].op.daemon in daemons
  }

  /** Event `i` starts an epoch of task `id` that lasts through the first `n` events. */
  ghost predicate Epoch(r: Run, i: nat, n: nat, id: TaskId) {
    && r.Valid()
    && i < n <= |r.events|
    && r.events[i].op.OpOutcome? && r.events[i].op.id == id && r.Row(i, id).Some?
    && forall k :: i < k < n ==> !(r.events[k].op.OpOutcome? && r.events[k].op.id == id)
  }

  /** Event `k` calls the HTTP client for the task. */
  predicate IsCall(r: Run, k: nat, id: TaskId)
    requires k < |r.events| < |r.worlds|
  {
    var op := r.events[k].op;
    op.OpSendCallback? && op.id == id && CallsClient(r.worlds[k].db, id, op.digest, op.result)
  }

  /** Client calls for the task among events `i` to `n - 1`. */
  function Calls(r: Run, i: nat, n: nat, id: TaskId): nat
    requires i <= n <= |r.events| < |r.worlds|
  {
    if n == i then 0 else Calls(r, i, n - 1, id) + (if IsCall(r, n - 1, id) then 1 else 0)
  }

  /** POSTs for the task among events `i` to `n - 1`. */
  function Posts(r: Run, i: nat, n: nat, id: TaskId): nat
    requires i <= n <= |r.events| < |r.worlds|
  {
    if n == i then 0
    else Posts(r, i, n - 1, id) + (if IsCall(r, n - 1, id) then r.events[n - 1].op.result.posts else 0)
  }

  /** Client calls that were acknowledged. */
  function Acks(r: Run, i: nat, n: nat, id: TaskId): nat
    requires i <= n <= |r.events| < |r.worlds|
  {
    if n == i then 0
    else Acks(r, i, n - 1, id) + (if IsCall(r, n - 1, id) && r.events[n - 1].op.result.Acknowledged? then 1 else 0)
  }

  /** The daemons that still have the task on their list. */
  ghost function Holders(w: World, daemons: set<DaemonId>, id: TaskId): set<DaemonId> {
    set d | d in daemons && id in Listed(w, d)
  }

  /** What one event may do to the callback columns and to the lists of one task. */
  ghost predicate CallbackStep(r: Run, n: nat, id: TaskId, daemons: set<DaemonId>)
    requires r.Valid() && 0 < n <= |r.events|
  {
    var e, before, after := r.events[n - 1], r.Row(n - 1, id), r.Row(n, id);
    var held, holds := Holders(r.worlds[n - 1], daemons, id), Holders(r.worlds[n], daemons, id);
    && before.Some? && after.Some?
    && after.value.hasTarget == before.value.hasTarget
    && if e.op.OpSendCallback? && e.op.id == id then
         && e.op.daemon in held
         && holds == held - {e.op.daemon}
         && after.value.callback == SentCallback(r.cfg, before.value, e.op.digest, e.op.result, e.stamp)
         && (IsCall(r, n - 1, id) ==> PostsMade(r.cfg.callbackRetryTimes, e.op.result))
       else
         && after.value.callback == before.value.callback
         && (holds <= held || (before.value.callback.state == Some(Retrying) && holds <= daemons))
  }

  lemma CallbackSteps(r: Run, i: nat, n: nat, id: TaskId, daemons: set<DaemonId>)
    requires Epoch(r, i, n, id) && i + 1 < n && HandledBy(r, daemons) && r.Row(n - 1, id).Some?
    ensures CallbackStep(r, n, id, daemons)
  {
    RowSteps(r, n, id);
    assert r.StepAt(n - 1);
    var e := r.events[n - 1];
    var held, holds := Holders(r.worlds[n - 1], daemons, id), Holders(r.worlds[n], daemons, id);
    if e.op.OpSendCallback? {
      assert e.op.daemon in daemons;
      forall d | d != e.op.daemon ensures Listed(r.worlds[n], d) == Listed(r.worlds[n - 1], d) {
      }
    } else if e.op.OpListDue? {
      assert e.op.daemon in daemons;
      if id !in e.op.ids {
        assert holds <= held;
      }
    } else {
      assert holds <= held;
    }
  }

  /** Phase one: every call so far was counted. Phase two, the budget being used up: only stale lists remain. */
  ghost predicate WithinBudget(r: Run, i: nat, n: nat, id: TaskId, daemons: set<DaemonId>)
    requires i <= n <= |r.events| < |r.worlds|
  {
    && r.Row(n, id).Some?
    && var c, budget := r.Row(n, id).value.callback, Max(1, r.cfg.maxCallbackAttempts);
    if c.attempts < budget then Calls(r, i, n, id) <= c.attempts
    else
      && c.state != Some(Retrying)
      && Calls(r, i, n, id) + |Holders(r.worlds[n], daemons, id)| <= budget + |daemons| - 1
  }

  lemma SubsetSize<T>(a: set<T>, b: set<T>)
    requires a <= b
    ensures |a| <= |b|
  {
    if a != {} {
      var x :| x in a;
      SubsetSize(a - {x}, b - {x});
    }
  }

  lemma {:induction false} BudgetIsKept(r: Run, i: nat, n: nat, id: TaskId, daemons: set<DaemonId>)
    requires Epoch(r, i, n, id) && HandledBy(r, daemons)
    ensures WithinBudget(r, i, n, id, daemons)
  {
    if n == i + 1 {
      RowSteps(r, n, id);
      assert Calls(r, i, n, id) == 0;
    } else {
      BudgetIsKept(r, i, n - 1, id, daemons);
      CallbackSteps(r, i, n, id, daemons);
      var e := r.events[n - 1];
      var held, holds := Holders(r.worlds[n - 1], daemons, id), Holders(r.worlds[n], daemons, id);
      if e.op.OpSendCallback? && e.op.id == id {
        SubsetSize(holds, daemons - {e.op.daemon});
      } else if r.Row(n - 1, id).value.callback.state != Some(Retrying) {
        SubsetSize(holds, held);
      }
    }
  }

  /**
     Between two outcome writes, `D` daemons call the client at most max(1, maximum) + D - 1 times
     for one task: a single daemon keeps to the configured maximum.
   */
  lemma CallBudget(r: Run, i: nat, n: nat, id: TaskId, daemons: set<DaemonId>)
    requires Epoch(r, i, n, id) && HandledBy(r, daemons)
    ensures Calls(r, i, n, id) <= Max(1, r.cfg.maxCallbackAttempts) + Max(0, |daemons| - 1)
  {
    BudgetIsKept(r, i, n, id, daemons);
  }

  lemma {:induction false} PostsPerCall(r: Run, i: nat, n: nat, id: TaskId)
    requires r.Valid() && i <= n <= |r.events|
    ensures Posts(r, i, n, id) <= Calls(r, i, n, id) * Max(0, r.cfg.callbackRetryTimes + 1)
  {
    if n > i {
      PostsPerCall(r, i, n - 1, id);
      assert r.StepAt(n - 1);
      OneMoreTimes(Calls(r, i, n - 1, id), Max(0, r.cfg.callbackRetryTimes + 1));
    }
  }

  /** POSTs between two outcome writes. */
  lemma PostBudget(r: Run, i: nat, n: nat, id: TaskId, daemons: set<DaemonId>)
    requires Epoch(r, i, n, id) && HandledBy(r, daemons)
    ensures Posts(r, i, n, id)
         <= (Max(1, r.cfg.maxCallbackAttempts) + Max(0, |daemons| - 1)) * Max(0, r.cfg.callbackRetryTimes + 1)
  {
    CallBudget(r, i, n, id, daemons);
    PostsPerCall(r, i, n, id);
    TimesGrows(Calls(r, i, n, id), Max(1, r.cfg.maxCallbackAttempts) + Max(0, |daemons| - 1),
      Max(0, r.cfg.callbackRetryTimes + 1));
  }

  // ---------------------------------------------------------- one acknowledgement

  /** With one daemon, a listed callback is still waiting to be sent. */
  lemma {:induction false} SingleDaemonListsAreFresh(r: Run, i: nat, n: nat, id: TaskId, d: DaemonId)
    requires Epoch(r, i, n, id) && HandledBy(r, {d})
    ensures r.Row(n, id).Some?
    ensures Acks(r, i, n, id) <= 1
    ensures r.Row(n, id).value.hasTarget && Acks(r, i, n, id) == 1 ==>
      r.Row(n, id).value.callback.state == Some(Succeeded) && id !in Listed(r.worlds[n], d)
    ensures !r.Row(n, id).value.hasTarget ==> Acks(r, i, n, id) == 0
  {
    if n == i + 1 {
      RowSteps(r, n, id);
      assert Acks(r, i, n, id) == 0;
    } else {
      SingleDaemonListsAreFresh(r, i, n - 1, id, d);
      CallbackSteps(r, i, n, id, {d});
      assert id in Listed(r.worlds[n - 1], d) <==> d in Holders(r.worlds[n - 1], {d}, id);
      assert id in Listed(r.worlds[n], d) <==> d in Holders(r.worlds[n], {d}, id);
    }
  }

  lemma AtMostOneAcknowledgement(r: Run, i: nat, n: nat, id: TaskId, d: DaemonId)
    requires Epoch(r, i, n, id) && HandledBy(r, {d})
    ensures Acks(r, i, n, id) <= 1
  {
    SingleDaemonListsAreFresh(r, i, n, id, d);
  }

  // ----------------------------------------------------------------- retry delays

  /** The delay the `n`-th event schedules for the task, if it does. */
  function Scheduled(r: Run, n: nat, id: TaskId): Option<int>
    requires 0 < n <= |r.events| < |r.worlds|
  {
    var op, after := r.events[n - 1].op, r.Row(n, id);
    if op.OpSendCallback? && op.id == id && after.Some?
       && after.value.callback.state == Some(Retrying) && after.value.callback.nextRetryAt.Some?
    then Some(after.value.callback.nextRetryAt.value - r.events[n - 1].stamp)
    else None
  }

  /** The delays scheduled for the task by events `i` to `n - 1`. */
  function Delays(r: Run, i: nat, n: nat, id: TaskId): seq<int>
    requires i <= n <= |r.events| < |r.worlds|
  {
    if n == i then []
    else
      var delay := Scheduled(r, n, id);
      Delays(r, i, n - 1, id) + (if delay.Some? then [delay.value] else [])
  }

  lemma ScheduledDelay(r: Run, i: nat, n: nat, id: TaskId, daemons: set<DaemonId>)
    requires Epoch(r, i, n, id) && i + 1 < n && HandledBy(r, daemons) && r.Row(n - 1, id).Some?
    ensures r.Row(n, id).Some?
    ensures var before, after := r.Row(n - 1, id).value.callback.attempts, r.Row(n, id).value.callback.attempts;
      match Scheduled(r, n, id)
      case None => before <= after
      case Some(delay) => delay == RetryDelay(r.cfg, after) && after == before + 1 < r.cfg.maxCallbackAttempts
  {
    CallbackSteps(r, i, n, id, daemons);
  }

  function Sum(s: seq<int>): int { if s == [] then 0 else Sum(s[..|s| - 1]) + s[|s| - 1] }

  ghost predicate Nondecreasing(s: seq<int>) { forall i, j :: 0 <= i < j < |s| ==> s[i] <= s[j] }

  lemma {:induction false} Pow2Grows(m: nat, n: nat)
    requires m <= n
    ensures 1 <= Pow2(m) <= Pow2(n)
  {
    if n > 0 {
      Pow2Grows(if m == n then m - 1 else m, n - 1);
    }
  }

  lemma DelaysGrow(cfg: Settings, a: int, b: int)
    requires 1 <= a <= b && cfg.initialDelay >= 0
    ensures RetryDelay(cfg, a) <= RetryDelay(cfg, b) <= cfg.initialDelay * Pow2(b - 1)
  {
    Pow2Grows(a - 1, b - 1);
    assert cfg.initialDelay * Pow2(a - 1) <= cfg.initialDelay * Pow2(b - 1);
  }

  /** After `attempts` failures: the delays grow, and at most double with each counted failure. */
  ghost predicate BoundedBy(cfg: Settings, s: seq<int>, attempts: nat) {
    && var top := Min(attempts, Max(0, cfg.maxCallbackAttempts - 1));
    && Nondecreasing(s)
    && (s != [] ==> top >= 1 && s[|s| - 1] <= RetryDelay(cfg, top))
    && Sum(s) <= cfg.initialDelay * (Pow2(top) - 1)
  }

  lemma SumBound(initial: int, a: nat, b: nat, delay: int, sum: int)
    requires initial >= 0 && a < b
    requires sum <= initial * (Pow2(a) - 1) && delay <= initial * Pow2(b - 1)
    ensures sum + delay <= initial * (Pow2(b) - 1)
  {
    Pow2Grows(a, b - 1);
    TimesGrows(Pow2(a) - 1, Pow2(b - 1) - 1, initial);
    assert initial * (Pow2(b - 1) - 1) + initial * Pow2(b - 1) == initial * (Pow2(b) - 1);
  }

  lemma BoundGrows(cfg: Settings, s: seq<int>, a: nat, b: nat)
    requires cfg.initialDelay >= 0 && a <= b && BoundedBy(cfg, s, a)
    ensures BoundedBy(cfg, s, b)
  {
    var cap := Max(0, cfg.maxCallbackAttempts - 1);
    var low, top := Min(a, cap), Min(b, cap);
    Pow2Grows(low, top);
    TimesGrows(Pow2(low) - 1, Pow2(top) - 1, cfg.initialDelay);
    if s != [] {
      DelaysGrow(cfg, low, top);
    }
  }

  lemma SumOneMore(s: seq<int>, x: int)
    ensures Sum(s + [x]) == Sum(s) + x
  {
    assert (s + [x])[..|s|] == s;
  }

  lemma NondecreasingExtends(s: seq<int>, x: int)
    requires Nondecreasing(s) && (s != [] ==> s[|s| - 1] <= x)
    ensures Nondecreasing(s + [x])
  {
  }

  lemma BoundExtends(cfg: Settings, s: seq<int>, a: nat)
    requires cfg.initialDelay >= 0 && a + 1 < cfg.maxCallbackAttempts && BoundedBy(cfg, s, a)
    ensures BoundedBy(cfg, s + [RetryDelay(cfg, a + 1)], a + 1)
  {
    var delay := RetryDelay(cfg, a + 1);
    assert Min(a, Max(0, cfg.maxCallbackAttempts - 1)) == a && Min(a + 1, Max(0, cfg.maxCallbackAttempts - 1)) == a + 1;
    if s != [] {
      DelaysGrow(cfg, a, a + 1);
    }
    NondecreasingExtends(s, delay);
    DelayFits(cfg, Sum(s), a);
    SumOneMore(s, delay);
  }

  lemma DelayFits(cfg: Settings, sum: int, a: nat)
    requires cfg.initialDelay >= 0 && sum <= cfg.initialDelay * (Pow2(a) - 1)
    ensures sum + RetryDelay(cfg, a + 1) <= cfg.initialDelay * (Pow2(a + 1) - 1)
  {
    DelaysGrow(cfg, a + 1, a + 1);
    SumBound(cfg.initialDelay, a, a + 1, RetryDelay(cfg, a + 1), sum);
  }

  lemma {:induction false} DelaysStayBounded(r: Run, i: nat, n: nat, id: TaskId, daemons: set<DaemonId>)
    requires Epoch(r, i, n, id) && HandledBy(r, daemons) && r.cfg.initialDelay >= 0
    ensures r.Row(n, id).Some? && BoundedBy(r.cfg, Delays(r, i, n, id), r.Row(n, id).value.callback.attempts)
  {
    if n == i + 1 {
      RowSteps(r, n, id);
      assert Delays(r, i, n, id) == [];
    } else {
      DelaysStayBounded(r, i, n - 1, id, daemons);
      ScheduledDelay(r, i, n, id, daemons);
      var s, before := Delays(r, i, n - 1, id), r.Row(n - 1, id).value.callback.attempts;
      match Scheduled(r, n, id)
      case Some(_) => BoundExtends(r.cfg, s, before);
      case None =>
        assert Delays(r, i, n, id) == s;
        BoundGrows(r.cfg, s, before, r.Row(n, id).value.callback.attempts);
    }
  }

  /**
     The first failure is followed by the initial delay, and each further one by twice the delay before
     it; the maximum caps both. A maximum below zero is the delay itself.
   */
  lemma DelaysDouble(cfg: Settings, n: nat)
    requires n >= 1
    ensures RetryDelay(cfg, 1) == Min(cfg.initialDelay, cfg.maxDelay)
    ensures cfg.maxDelay >= 0 ==> RetryDelay(cfg, n + 1) == Min(2 * RetryDelay(cfg, n), cfg.maxDelay)
    ensures cfg.maxDelay < 0 <= cfg.initialDelay ==> RetryDelay(cfg, n) == cfg.maxDelay
  {
    var p := Pow2(n - 1);
    assert Pow2(n) == 2 * p && Pow2(0) == 1;
    assert cfg.initialDelay * (2 * p) == 2 * (cfg.initialDelay * p);
    if 0 <= cfg.initialDelay {
      assert cfg.initialDelay * p >= 0;
    }
  }

  /** For N = maximum >= 1, the delays of an epoch are nondecreasing and total at most initial * (2^(N-1) - 1). */
  lemma DelayBudget(r: Run, i: nat, n: nat, id: TaskId, daemons: set<DaemonId>)
    requires Epoch(r, i, n, id) && HandledBy(r, daemons)
    requires r.cfg.initialDelay >= 0 && r.cfg.maxCallbackAttempts >= 1
    ensures Nondecreasing(Delays(r, i, n, id))
    ensures Sum(Delays(r, i, n, id)) <= r.cfg.initialDelay * (Pow2(r.cfg.maxCallbackAttempts - 1) - 1)
  {
    DelaysStayBounded(r, i, n, id, daemons);
    BoundGrows(r.cfg, Delays(r, i, n, id), r.Row(n, id).value.callback.attempts,
               r.Row(n, id).value.callback.attempts + r.cfg.maxCallbackAttempts);
  }
}
