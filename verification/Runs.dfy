/**
 Runs: arbitrary interleavings of database transactions by any number of daemons, executors,
 resolvers and operators.

 An event has two times. The source computes `now` before it enters the transaction, so an event
 carries the `stamp` it writes and compares with, and the time it `commit`s; only the latter is
 known to be nondecreasing along a run.
 */
module Runs {
  import opened Basics
  import opened Store

  datatype Op =
    | OpCreate(id: TaskId, status: Status, priority: int, hasTarget: bool)
    | OpClaim(id: TaskId, daemon: DaemonId, leaseSeconds: int)
    | OpClaimNothing
    | OpRecover(maxAttempts: int)
    | OpRequeue(id: TaskId)
    | OpRequestControl(id: TaskId, action: Action)
    | OpCancelRow(id: TaskId)
    | OpMarkStopped(id: TaskId)
    | OpOutcome(id: TaskId, status: Status, gate: Gate)
    | OpListDue(daemon: DaemonId, ids: set<TaskId>)
    | OpSendCallback(id: TaskId, daemon: DaemonId, digest: string, result: SendResult)
    | OpDaemonRestart(daemon: DaemonId)

  datatype Event = Event(stamp: int, commit: int, op: Op)

  /** The tables, and for each daemon the due callbacks it has listed but not handled yet. */
  datatype World = World(db: Tables, lists: map<DaemonId, set<TaskId>>)

  const START := World(EMPTY, map[])

  function Listed(w: World, d: DaemonId): set<TaskId> { if d in w.lists then w.lists[d] else {} }

  function NextTables(db: Tables, e: Event, cfg: Settings): Tables {
    match e.op
    case OpCreate(id, status, priority, hasTarget) => Create(db, id, status, priority, hasTarget, e.stamp)
    case OpClaim(id, daemon, lease) => Claim(db, id, daemon, lease, e.stamp)
    case OpRecover(maxAttempts) => Recover(db, maxAttempts, e.stamp)
    case OpRequeue(id) => Requeue(db, id)
    case OpRequestControl(id, action) => RequestControl(db, id, action)
    case OpCancelRow(id) => CancelRow(db, id)
    case OpMarkStopped(id) => MarkStopped(db, id)
    case OpOutcome(id, status, gate) => Outcome(db, id, status, gate, e.stamp)
    case OpSendCallback(id, _, digest, result) => SendCallback(db, cfg, id, digest, result, e.stamp)
    case _ => db
  }

  function Next(w: World, e: Event, cfg: Settings): World {
    World(NextTables(w.db, e, cfg),
          match e.op
          case OpListDue(d, ids) => w.lists[d := ids]
          case OpSendCallback(id, d, _, _) => w.lists[d := Listed(w, d) - {id}]
          case OpDaemonRestart(d) => w.lists[d := {}]
          case _ => w.lists)
  }

  /**
     What the call sites guarantee: tasks are created queued, outcomes are success or failed,
     the claimed row is one the query may return, a daemon lists due callbacks only once it has
     gone through its previous list, and sends only what it listed.
   */
  ghost predicate Enabled(w: World, e: Event, cfg: Settings) {
    && e.stamp <= e.commit
    && match e.op
       case OpCreate(_, status, _, _) => status == Queued
       case OpClaim(id, _, _) => Claimable(w.db, id, e.stamp)
       case OpClaimNothing => NothingEligible(w.db, e.stamp)
       case OpOutcome(_, status, _) => status == Success || status == Failed
       case OpListDue(d, ids) =>
         Listed(w, d) == {} && forall id :: id in ids ==> id in w.db.tasks && CallbackDue(w.db.tasks[id], e.stamp)
       case OpSendCallback(id, d, digest, result) =>
         id in Listed(w, d) && (CallsClient(w.db, id, digest, result) ==> PostsMade(cfg.callbackRetryTimes, result))
       case _ => true
  }

  /** One event of a run. */
  ghost predicate Step(w: World, e: Event, cfg: Settings, after: World) {
    Enabled(w, e, cfg) && after == Next(w, e, cfg)
  }

  /** `worlds[i]` is the world after the first `i` events. */
  datatype Run = Run(events: seq<Event>, worlds: seq<World>, cfg: Settings) {
    ghost predicate StepAt(i: nat)
      requires i < |events| && |worlds| == |events| + 1
    {
      Step(worlds[i], events[i], cfg, worlds[i + 1])
    }

    ghost predicate Valid() {
      && |worlds| == |events| + 1
      && worlds[0] == START
      && (forall i: nat :: i < |events| ==> StepAt(i))
      && (forall i, j :: 0 <= i <= j < |events| ==> events[i].commit <= events[j].commit)
    }

    /** The row of `id` after the first `n` events, if it exists by then. */
    function Row(n: nat, id: TaskId): Option<Row>
      requires n < |worlds|
    {
      if id in worlds[n].db.tasks then Some(worlds[n].db.tasks[id]) else None
    }
  }

  // -------------------------------------------------------------- a single row

  /** What an event does to the row of `id`. */
  function RowAfter(r: Row, id: TaskId, e: Event, cfg: Settings): Row {
    match e.op
    case OpClaim(x, daemon, lease) =>
      if x == id then r.(status := Running, claimedBy := Some(daemon), leaseExpiresAt := Some(e.stamp + lease),
                         attempts := r.attempts + 1)
      else r
    case OpRecover(maxAttempts) => if Stale(r, e.stamp) then RecoverRow(r, maxAttempts) else r
    case OpRequeue(x) => if x == id then r.(status := Queued, gate := None, claimedBy := None, leaseExpiresAt := None)
      else r
    case OpCancelRow(x) =>
      if x == id then r.(status := Cancelled, gate := Some(GateCancelled), claimedBy := None, leaseExpiresAt := None)
        else r
    case OpMarkStopped(x) =>
      if x == id then r.(status := Cancelled, gate := Some(GateStopped), claimedBy := None, leaseExpiresAt := None)
        else r
    case OpOutcome(x, status, gate) =>
      if x == id then r.(status := status, gate := Some(gate), callback := ArmedCallback(r, e.stamp)) else r
    case OpSendCallback(x, _, digest, result) =>
      if x == id then r.(callback := SentCallback(cfg, r, digest, result, e.stamp)) else r
    case _ => r
  }

  lemma RowEvolves(w: World, e: Event, cfg: Settings, id: TaskId)
    ensures id in w.db.tasks ==>
      id in Next(w, e, cfg).db.tasks && Next(w, e, cfg).db.tasks[id] == RowAfter(w.db.tasks[id], id, e, cfg)
    ensures id !in w.db.tasks ==> (id in Next(w, e, cfg).db.tasks <==> e.op.OpCreate? && e.op.id == id)
    ensures id !in w.db.tasks && id in Next(w, e, cfg).db.tasks ==>
      Next(w, e, cfg).db.tasks[id]
        == Row(e.op.status, None, e.op.priority, e.stamp, None, None, None, 0, e.op.hasTarget, FRESH_CALLBACK)
  {
  }

  /** How an event of a run may change the row of `id`. */
  ghost predicate RowStep(before: Option<Row>, id: TaskId, e: Event, cfg: Settings, after: Option<Row>) {
    && e.stamp <= e.commit
    && (before.Some? ==> after == Some(RowAfter(before.value, id, e, cfg)))
    && (before.None? ==> (after.Some? <==> e.op.OpCreate? && e.op.id == id))
    && (before.None? && after.Some? ==>
          after.value == Row(Queued, None, e.op.priority, e.stamp, None, None, None, 0, e.op.hasTarget, FRESH_CALLBACK))
    && (e.op.OpClaim? && e.op.id == id ==> before.Some? && before.value.status == Queued)
    && (e.op.OpOutcome? ==> e.op.status == Success || e.op.status == Failed)
  }

  lemma RowSteps(r: Run, n: nat, id: TaskId)
    requires r.Valid() && 0 < n <= |r.events|
    ensures RowStep(r.Row(n - 1, id), id, r.events[n - 1], r.cfg, r.Row(n, id))
  {
    assert r.StepAt(n - 1);
    RowEvolves(r.worlds[n - 1], r.events[n - 1], r.cfg, id);
  }

  lemma {:induction false} RowsWereCreated(r: Run, n: nat, id: TaskId)
    requires r.Valid() && n <= |r.events| && r.Row(n, id).Some?
    ensures exists i :: 0 <= i < n && r.events[i].op.OpCreate? && r.events[i].op.id == id
  {
    if n > 0 {
      RowSteps(r, n, id);
      if r.Row(n - 1, id).Some? {
        RowsWereCreated(r, n - 1, id);
      }
    }
  }

  // ------------------------------------------------------------------ row shape

  /**
     Holder and lease exist while running and not while queued or cancelled; the gate is set exactly
     when not pending.
   */
  predicate RowShape(r: Row) {
    && (r.status == Running ==> r.claimedBy.Some? && r.leaseExpiresAt.Some?)
    && (r.status == Queued || r.status == Cancelled ==> r.claimedBy.None? && r.leaseExpiresAt.None?)
    && (r.gate.None? <==> r.status == Queued || r.status == Running)
    && r.notBefore.None?
  }

  ghost predicate AllShaped(db: Tables) { forall id :: id in db.tasks ==> RowShape(db.tasks[id]) }

  lemma StepKeepsShape(w: World, e: Event, cfg: Settings)
    requires AllShaped(w.db) && Enabled(w, e, cfg)
    ensures AllShaped(Next(w, e, cfg).db)
  {
  }

  lemma {:induction false} RowsStayShaped(r: Run, n: nat)
    requires r.Valid() && n <= |r.events|
    ensures AllShaped(r.worlds[n].db)
  {
    if n > 0 {
      RowsStayShaped(r, n - 1);
      assert r.StepAt(n - 1);
      StepKeepsShape(r.worlds[n - 1], r.events[n - 1], r.cfg);
    }
  }

  /** A row inserted with another status than the default would not have the shape. */
  lemma OnlyQueuedInsertsAreShaped(id: TaskId, status: Status, priority: int, hasTarget: bool, now: int)
    ensures AllShaped(Create(EMPTY, id, status, priority, hasTarget, now)) <==> status == Queued
  {
    assert id in Create(EMPTY, id, status, priority, hasTarget, now).tasks;
  }

  // ----------------------------------------------------------- attempt budgets

  function ClaimsOf(events: seq<Event>, n: nat, id: TaskId): nat
    requires n <= |events|
  {
    if n == 0 then 0
    else ClaimsOf(events, n - 1, id) + (if events[n - 1].op.OpClaim? && events[n - 1].op.id == id then 1 else 0)
  }

  function RequeuesOf(events: seq<Event>, n: nat, id: TaskId): nat
    requires n <= |events|
  {
    if n == 0 then 0
    else RequeuesOf(events, n - 1, id) + (if events[n - 1].op.OpRequeue? && events[n - 1].op.id == id then 1 else 0)
  }

  /** Every recovery in the run uses at most this attempt limit. */
  ghost predicate RecoveriesCapped(events: seq<Event>, maxAttempts: int) {
    forall i :: 0 <= i < |events| && events[i].op.OpRecover? ==> events[i].op.maxAttempts <= maxAttempts
  }

  lemma {:induction false} AttemptsCountClaims(r: Run, n: nat, id: TaskId)
    requires r.Valid() && n <= |r.events|
    ensures ClaimsOf(r.events, n, id) == if r.Row(n, id).Some? then r.Row(n, id).value.attempts else 0
  {
    if n > 0 {
      AttemptsCountClaims(r, n - 1, id);
      RowSteps(r, n, id);
    }
  }

  /**
     Each operator requeue buys one more claim; otherwise the attempt limit stands, with at least
     one claim. A queued task has a claim left.
   */
  lemma {:induction false} AttemptBudget(r: Run, maxAttempts: int, n: nat, id: TaskId)
    requires r.Valid() && n <= |r.events| && RecoveriesCapped(r.events, maxAttempts) && r.Row(n, id).Some?
    ensures r.Row(n, id).value.attempts <= Max(1, maxAttempts) + RequeuesOf(r.events, n, id)
    ensures r.Row(n, id).value.status == Queued ==>
      r.Row(n, id).value.attempts < Max(1, maxAttempts) + RequeuesOf(r.events, n, id)
  {
    if n > 0 {
      RowSteps(r, n, id);
      if r.Row(n - 1, id).Some? {
        AttemptBudget(r, maxAttempts, n - 1, id);
      }
    }
  }

  // ---------------------------------------------------------- claim separation

  ghost predicate NoRequeueBetween(events: seq<Event>, i: nat, n: nat, id: TaskId)
    requires n <= |events|
  {
    forall k :: i < k < n ==> !(events[k].op.OpRequeue? && events[k].op.id == id)
  }

  /** Until the lease has run out in commit time, the claimed row is running under it or finished. */
  lemma {:induction false} LeaseProtects(r: Run, i: nat, n: nat)
    requires r.Valid() && i < n <= |r.events| && r.events[i].op.OpClaim?
    requires NoRequeueBetween(r.events, i, n, r.events[i].op.id)
    ensures var row, until := r.Row(n, r.events[i].op.id), r.events[i].stamp + r.events[i].op.leaseSeconds;
      && row.Some?
      && (|| r.events[n - 1].commit > until
          || (row.value.status == Running && row.value.leaseExpiresAt == Some(until))
          || (row.value.status != Running && row.value.status != Queued))
  {
    RowSteps(r, n, r.events[i].op.id);
    if n - 1 > i {
      LeaseProtects(r, i, n - 1);
      assert r.events[n - 2].commit <= r.events[n - 1].commit;
    }
  }

  /**
     Whichever daemons make them, two claims of one task with no operator requeue in between are
     separated by more than the first claim's lease.
   */
  lemma ClaimsAreALeaseApart(r: Run, i: nat, j: nat)
    requires r.Valid() && i < j < |r.events|
    requires r.events[i].op.OpClaim? && r.events[j].op.OpClaim? && r.events[i].op.id == r.events[j].op.id
    requires NoRequeueBetween(r.events, i, j, r.events[i].op.id)
    ensures r.events[j].commit > r.events[i].stamp + r.events[i].op.leaseSeconds
  {
    LeaseProtects(r, i, j);
    RowSteps(r, j + 1, r.events[i].op.id);
    assert r.events[j - 1].commit <= r.events[j].commit;
  }

  /** Claim `j` hits the task while the executor of claim `i`, which needs `duration` seconds, is still busy. */
  ghost predicate Overlap(r: Run, leaseSeconds: int, duration: nat, i: nat, j: nat, end: nat) {
    && r.Valid()
    && i < j < end < |r.events|
    && r.events[i].op.OpClaim? && r.events[j].op.OpClaim? && r.events[i].op.id == r.events[j].op.id
    && r.events[i].op.leaseSeconds == leaseSeconds
    && r.events[end].op.OpOutcome? && r.events[end].op.id == r.events[i].op.id
    && r.events[end].commit == r.events[i].stamp + duration
  }

  /** Create, claim, recover as soon as the lease is over, claim again; then the first executor finishes. */
  function OverlappingRun(cfg: Settings, leaseSeconds: int, duration: nat): Run {
    var late := Max(0, leaseSeconds + 1);
    var queued := Row(Queued, None, 100, 0, None, None, None, 0, false, FRESH_CALLBACK);
    var events := [Event(0, 0, OpCreate("t", Queued, 100, false)),
                   Event(0, 0, OpClaim("t", "a", leaseSeconds)),
                   Event(late, late, OpRecover(3)),
                   Event(late, late, OpClaim("t", "b", leaseSeconds)),
                   Event(duration, duration, OpOutcome("t", Success, GatePassed))];
    var rows := [queued,
                 queued.(status := Running, claimedBy := Some("a"), leaseExpiresAt := Some(leaseSeconds),
                         attempts := 1),
                 queued.(attempts := 1),
                 queued.(status := Running, claimedBy := Some("b"), leaseExpiresAt := Some(late + leaseSeconds),
                         attempts := 2)];
    var w4 := World(Tables(map["t" := rows[3]], []), map[]);
    Run(events,
        [START, World(Tables(map["t" := rows[0]], []), map[]), World(Tables(map["t" := rows[1]], []), map[]),
         World(Tables(map["t" := rows[2]], []), map[]), w4, Next(w4, events[4], cfg)],
        cfg)
  }

  lemma LongExecutionsCanOverlap(cfg: Settings, leaseSeconds: int, duration: nat)
    requires duration > leaseSeconds
    ensures Overlap(OverlappingRun(cfg, leaseSeconds, duration), leaseSeconds, duration, 1, 3, 4)
  {
    var r := OverlappingRun(cfg, leaseSeconds, duration);
    forall i: nat | i < |r.events| ensures r.StepAt(i) {
      if i == 0 {
        assert r.StepAt(0);
      } else if i == 1 {
        assert r.StepAt(1);
      } else if i == 2 {
        assert Stale(r.worlds[2].db.tasks["t"], r.events[2].stamp);
        assert Recover(r.worlds[2].db, 3, r.events[2].stamp).tasks == r.worlds[3].db.tasks;
        assert r.StepAt(2);
      } else if i == 3 {
        assert r.StepAt(3);
      } else {
        assert r.StepAt(4);
      }
    }
  }

  /** Create, claim, requeue the running row, claim again; then the first executor finishes. */
  function RequeuedRun(cfg: Settings, leaseSeconds: int, duration: nat): Run {
    var queued := Row(Queued, None, 100, 0, None, None, None, 0, false, FRESH_CALLBACK);
    var held := queued.(status := Running, claimedBy := Some("a"), leaseExpiresAt := Some(leaseSeconds), attempts := 1);
    var again := held.(claimedBy := Some("b"), attempts := 2);
    var end := Event(duration, duration, OpOutcome("t", Success, GatePassed));
    Run([Event(0, 0, OpCreate("t", Queued, 100, false)), Event(0, 0, OpClaim("t", "a", leaseSeconds)),
         Event(0, 0, OpRequeue("t")), Event(0, 0, OpClaim("t", "b", leaseSeconds)), end],
        [START, World(Tables(map["t" := queued], []), map[]), World(Tables(map["t" := held], []), map[]),
         World(Tables(map["t" := queued.(attempts := 1)], []), map[]), World(Tables(map["t" := again], []), map[]),
         Next(World(Tables(map["t" := again], []), map[]), end, cfg)],
        cfg)
  }

  lemma RequeueLetsExecutionsOverlap(cfg: Settings, leaseSeconds: int, duration: nat)
    ensures Overlap(RequeuedRun(cfg, leaseSeconds, duration), leaseSeconds, duration, 1, 3, 4)
    ensures !NoRequeueBetween(RequeuedRun(cfg, leaseSeconds, duration).events, 1, 3, "t")
  {
    var r := RequeuedRun(cfg, leaseSeconds, duration);
    assert r.StepAt(0);
    assert r.StepAt(1);
    assert r.StepAt(2);
    assert r.StepAt(3);
    assert r.StepAt(4);
  }

  /**
     Whatever run it is in, an overlap has one of two causes: the execution outlasts its lease, or the
     row was requeued.
   */
  lemma OverlapHasACause(r: Run, leaseSeconds: int, duration: nat, i: nat, j: nat, end: nat)
    requires Overlap(r, leaseSeconds, duration, i, j, end)
    ensures duration > leaseSeconds || !NoRequeueBetween(r.events, i, j, r.events[i].op.id)
  {
    if NoRequeueBetween(r.events, i, j, r.events[i].op.id) {
      ClaimsAreALeaseApart(r, i, j);
      assert r.events[j].commit <= r.events[end].commit;
    }
  }

  /** Some run has an overlap; requeues between the two claims occur only where allowed. */
  ghost predicate CanOverlap(leaseSeconds: int, duration: nat, requeued: bool) {
    exists r: Run, i: nat, j: nat, end: nat ::
      Overlap(r, leaseSeconds, duration, i, j, end) && (requeued || NoRequeueBetween(r.events, i, j, r.events[i].op.id))
  }

  /** Two executions can overlap exactly if one outlasts its lease or the row is requeued between the two claims. */
  lemma ExclusiveIffWithinLease(cfg: Settings, leaseSeconds: int, duration: nat, requeued: bool)
    ensures CanOverlap(leaseSeconds, duration, requeued) <==> requeued || duration > leaseSeconds
  {
    if requeued {
      RequeueLetsExecutionsOverlap(cfg, leaseSeconds, duration);
    } else if duration > leaseSeconds {
      LongExecutionsCanOverlap(cfg, leaseSeconds, duration);
      assert NoRequeueBetween(OverlappingRun(cfg, leaseSeconds, duration).events, 1, 3, "t");
    }
    forall r: Run, i: nat, j: nat, end: nat | Overlap(r, leaseSeconds, duration, i, j, end)
      ensures duration > leaseSeconds || !NoRequeueBetween(r.events, i, j, r.events[i].op.id)
    {
      OverlapHasACause(r, leaseSeconds, duration, i, j, end);
    }
  }

  // ------------------------------------------- finitely many claims and recoveries

  function Claims(events: seq<Event>, n: nat): nat
    requires n <= |events|
  {
    if n == 0 then 0 else Claims(events, n - 1) + (if events[n - 1].op.OpClaim? then 1 else 0)
  }

  function Creates(events: seq<Event>, n: nat): nat
    requires n <= |events|
  {
    if n == 0 then 0 else Creates(events, n - 1) + (if events[n - 1].op.OpCreate? then 1 else 0)
  }

  function Requeues(events: seq<Event>, n: nat): nat
    requires n <= |events|
  {
    if n == 0 then 0 else Requeues(events, n - 1) + (if events[n - 1].op.OpRequeue? then 1 else 0)
  }

  /** The ids inserted by the first `n` events, each once. */
  function Ids(events: seq<Event>, n: nat): (ids: seq<TaskId>)
    requires n <= |events|
    ensures Distinct(ids) && |ids| <= Creates(events, n)
    ensures forall i :: 0 <= i < n && events[i].op.OpCreate? ==> events[i].op.id in ids
  {
    if n == 0 then []
    else
      var rest := Ids(events, n - 1);
      if events[n - 1].op.OpCreate? && events[n - 1].op.id !in rest then rest + [events[n - 1].op.id] else rest
  }

  function SumClaims(events: seq<Event>, n: nat, ids: seq<TaskId>): nat
    requires n <= |events|
  {
    if ids == [] then 0 else ClaimsOf(events, n, ids[0]) + SumClaims(events, n, ids[1..])
  }

  function SumRequeues(events: seq<Event>, n: nat, ids: seq<TaskId>): nat
    requires n <= |events|
  {
    if ids == [] then 0 else RequeuesOf(events, n, ids[0]) + SumRequeues(events, n, ids[1..])
  }

  lemma {:induction false} SumsStep(events: seq<Event>, n: nat, ids: seq<TaskId>)
    requires 0 < n <= |events| && Distinct(ids)
    ensures SumClaims(events, n, ids) ==
      SumClaims(events, n - 1, ids) + (if events[n - 1].op.OpClaim? && events[n - 1].op.id in ids then 1 else 0)
    ensures SumRequeues(events, n, ids) ==
      SumRequeues(events, n - 1, ids) + (if events[n - 1].op.OpRequeue? && events[n - 1].op.id in ids then 1 else 0)
  {
    if ids != [] {
      SumsStep(events, n, ids[1..]);
    }
  }

  lemma {:induction false} SumsAtStart(events: seq<Event>, ids: seq<TaskId>)
    ensures SumClaims(events, 0, ids) == 0 && SumRequeues(events, 0, ids) == 0
  {
    if ids != [] {
      SumsAtStart(events, ids[1..]);
    }
  }

  /** Every claim is a claim of some inserted task. */
  lemma {:induction false} SumsCountEvents(r: Run, n: nat, ids: seq<TaskId>)
    requires r.Valid() && n <= |r.events| && Distinct(ids)
    requires forall i :: 0 <= i < |r.events| && r.events[i].op.OpCreate? ==> r.events[i].op.id in ids
    ensures SumClaims(r.events, n, ids) == Claims(r.events, n) && SumRequeues(r.events, n, ids) <= Requeues(r.events, n)
  {
    if n == 0 {
      SumsAtStart(r.events, ids);
    } else {
      SumsCountEvents(r, n - 1, ids);
      SumsStep(r.events, n, ids);
      if r.events[n - 1].op.OpClaim? {
        RowSteps(r, n, r.events[n - 1].op.id);
        RowsWereCreated(r, n - 1, r.events[n - 1].op.id);
      }
    }
  }

  lemma {:induction false} SumWithinBudget(r: Run, maxAttempts: int, n: nat, ids: seq<TaskId>)
    requires r.Valid() && n <= |r.events| && RecoveriesCapped(r.events, maxAttempts)
    ensures SumClaims(r.events, n, ids) <= |ids| * Max(1, maxAttempts) + SumRequeues(r.events, n, ids)
  {
    if ids != [] {
      SumWithinBudget(r, maxAttempts, n, ids[1..]);
      ClaimBudget(r, maxAttempts, n, ids[0]);
      OneMoreTimes(|ids| - 1, Max(1, maxAttempts));
    }
  }

  /** The claims of one task, inserted or not. */
  lemma ClaimBudget(r: Run, maxAttempts: int, n: nat, id: TaskId)
    requires r.Valid() && n <= |r.events| && RecoveriesCapped(r.events, maxAttempts)
    ensures ClaimsOf(r.events, n, id) <= Max(1, maxAttempts) + RequeuesOf(r.events, n, id)
  {
    AttemptsCountClaims(r, n, id);
    if r.Row(n, id).Some? {
      AttemptBudget(r, maxAttempts, n, id);
    }
  }

  /** How often one of the first `n` events recovered the task. */
  ghost function RecoveriesOf(r: Run, n: nat, id: TaskId): nat
    requires |r.worlds| == |r.events| + 1 && n <= |r.events|
  {
    if n == 0 then 0
    else
      var e, row := r.events[n - 1], r.Row(n - 1, id);
      RecoveriesOf(r, n - 1, id) + (if e.op.OpRecover? && row.Some? && Stale(row.value, e.stamp) then 1 else 0)
  }

  /** Each recovery of a task uses up a claim of it. */
  lemma {:induction false} RecoveriesWithinClaims(r: Run, n: nat, id: TaskId)
    requires r.Valid() && n <= |r.events|
    ensures RecoveriesOf(r, n, id) + (if r.Row(n, id).Some? && r.Row(n, id).value.status == Running then 1 else 0)
         <= ClaimsOf(r.events, n, id)
  {
    if n > 0 {
      RecoveriesWithinClaims(r, n - 1, id);
      RowSteps(r, n, id);
    }
  }

  /**
     However long the run, it holds at most max(1, limit) claims per created task plus one per
     requeue, and no task is recovered more often than it was claimed.
   */
  lemma FinitelyManyClaims(r: Run, maxAttempts: int)
    requires r.Valid() && RecoveriesCapped(r.events, maxAttempts)
    ensures var n := |r.events|;
      && Claims(r.events, n) <= Creates(r.events, n) * Max(1, maxAttempts) + Requeues(r.events, n)
      && forall id :: RecoveriesOf(r, n, id) <= ClaimsOf(r.events, n, id)
  {
    var n := |r.events|;
    var ids := Ids(r.events, n);
    SumsCountEvents(r, n, ids);
    SumWithinBudget(r, maxAttempts, n, ids);
    TimesGrows(|ids|, Creates(r.events, n), Max(1, maxAttempts));
    forall id ensures RecoveriesOf(r, n, id) <= ClaimsOf(r.events, n, id) {
      RecoveriesWithinClaims(r, n, id);
    }
  }

  // ------------------------------------------------------------ draining the queue

  ghost function QueuedIds(db: Tables): set<TaskId> { set id | id in db.tasks && db.tasks[id].status == Queued }

  ghost predicate ClaimsOnly(events: seq<Event>, a: nat, b: nat) {
    a <= b <= |events| && forall i :: a <= i < b ==> events[i].op.OpClaim?
  }

  ghost function ClaimedIds(events: seq<Event>, a: nat, b: nat): set<TaskId>
    requires ClaimsOnly(events, a, b)
  {
    set i | a <= i < b :: events[i].op.id
  }

  lemma ClaimTakesOne(db: Tables, id: TaskId, daemon: DaemonId, leaseSeconds: int, now: int)
    requires Claimable(db, id, now)
    ensures id in QueuedIds(db)
    ensures QueuedIds(Claim(db, id, daemon, leaseSeconds, now)) == QueuedIds(db) - {id}
    ensures forall q :: q in QueuedIds(db) - {id} ==> Claim(db, id, daemon, leaseSeconds, now).tasks[q] == db.tasks[q]
  {
  }

  lemma {:induction false} ClaimsTakeFromQueue(r: Run, a: nat, b: nat)
    requires r.Valid() && ClaimsOnly(r.events, a, b)
    ensures QueuedIds(r.worlds[b].db) == QueuedIds(r.worlds[a].db) - ClaimedIds(r.events, a, b)
    ensures ClaimedIds(r.events, a, b) <= QueuedIds(r.worlds[a].db)
    ensures forall q :: q in QueuedIds(r.worlds[b].db) ==> r.worlds[b].db.tasks[q] == r.worlds[a].db.tasks[q]
    decreases b
  {
    if a < b {
      ClaimsTakeFromQueue(r, a, b - 1);
      assert r.StepAt(b - 1);
      var e := r.events[b - 1];
      ClaimTakesOne(r.worlds[b - 1].db, e.op.id, e.op.daemon, e.op.leaseSeconds, e.stamp);
      assert ClaimedIds(r.events, a, b) == ClaimedIds(r.events, a, b - 1) + {e.op.id};
    }
  }

  lemma ClaimRespectsOrder(r: Run, i: nat, q: TaskId)
    requires r.Valid() && i < |r.events| && r.events[i].op.OpClaim? && q in QueuedIds(r.worlds[i].db)
    ensures r.events[i].op.id in QueuedIds(r.worlds[i].db)
    ensures !Before(r.worlds[i].db.tasks[q], r.worlds[i].db.tasks[r.events[i].op.id])
  {
    assert r.StepAt(i);
    RowsStayShaped(r, i);
    assert Eligible(r.worlds[i].db.tasks[q], r.events[i].stamp);
  }

  /** The first row has the greater priority number, or the same one and is at least as old. */
  predicate HighestThenOldest(tasks: map<TaskId, Row>, first: TaskId, later: TaskId) {
    && first in tasks && later in tasks && tasks[first].priority >= tasks[later].priority
    && (tasks[first].priority == tasks[later].priority ==> tasks[first].createdAt <= tasks[later].createdAt)
  }

  lemma ClaimedInOrder(r: Run, a: nat, b: nat, i: nat, j: nat)
    requires r.Valid() && ClaimsOnly(r.events, a, b) && a <= i < j < b < |r.events|
    ensures r.events[i].op.id != r.events[j].op.id
    ensures HighestThenOldest(r.worlds[a].db.tasks, r.events[i].op.id, r.events[j].op.id)
  {
    var later := r.events[j].op.id;
    ClaimsTakeFromQueue(r, a, i);
    ClaimsTakeFromQueue(r, i, j + 1);
    assert later in ClaimedIds(r.events, i, j + 1);
    ClaimRespectsOrder(r, i, later);
    ClaimsTakeFromQueue(r, i + 1, j + 1);
    assert later in ClaimedIds(r.events, i + 1, j + 1);
    ClaimsTakeFromQueue(r, i, i + 1);
    assert r.events[i].op.id in ClaimedIds(r.events, i, i + 1);
  }

  /**
     A daemon that keeps claiming with no other writer gets every queued task exactly once, by
     descending priority and then ascending creation time, before it gets none.
   */
  lemma ClaimingDrainsTheQueueInOrder(r: Run, a: nat, b: nat)
    requires r.Valid() && ClaimsOnly(r.events, a, b) && b < |r.events| && r.events[b].op.OpClaimNothing?
    ensures ClaimedIds(r.events, a, b) == QueuedIds(r.worlds[a].db)
    ensures forall i, j :: a <= i < j < b ==> r.events[i].op.id != r.events[j].op.id
    ensures forall i, j :: a <= i < j < b ==>
      HighestThenOldest(r.worlds[a].db.tasks, r.events[i].op.id, r.events[j].op.id)
  {
    forall i, j | a <= i < j < b {
      ClaimedInOrder(r, a, b, i, j);
    }
    ClaimsTakeFromQueue(r, a, b);
    assert r.StepAt(b);
    RowsStayShaped(r, b);
    assert forall q :: q in QueuedIds(r.worlds[b].db) ==> Eligible(r.worlds[b].db.tasks[q], r.events[b].stamp);
    assert QueuedIds(r.worlds[b].db) == {};
  }

  // -------------------------------------------------------- control requests last

  ghost predicate Pending(db: Tables, id: TaskId) {
    || (id in db.tasks && db.tasks[id].status == Cancelled)
    || exists i :: 0 <= i < |db.controls| && db.controls[i].task == id && !db.controls[i].acknowledged
  }

  lemma PendingIsObserved(db: Tables, id: TaskId)
    ensures Pending(db, id) <==> ObservedControl(db, id).Some?
  {
  }

  /**
     The step withdraws every request for the row: a requeue, or an outcome for a row without
     unacknowledged requests.
   */
  predicate Settles(db: Tables, op: Op, id: TaskId) {
    && id in db.tasks
    && ((op.OpRequeue? && op.id == id) || (op.OpOutcome? && op.id == id && CheckTaskControl(db.controls, id).None?))
  }

  lemma StepKeepsPending(w: World, e: Event, cfg: Settings, id: TaskId)
    requires Pending(w.db, id) && Enabled(w, e, cfg) && !Settles(w.db, e.op, id)
    ensures Pending(Next(w, e, cfg).db, id)
  {
    var after := Next(w, e, cfg).db;
    if id in w.db.tasks && w.db.tasks[id].status == Cancelled && !(e.op.OpOutcome? && e.op.id == id) {
      RowEvolves(w, e, cfg, id);
      assert id in after.tasks && after.tasks[id].status == Cancelled;
    } else {
      var i :| 0 <= i < |w.db.controls| && w.db.controls[i].task == id && !w.db.controls[i].acknowledged;
      assert |after.controls| >= |w.db.controls|;
      if (e.op.OpCancelRow? || e.op.OpMarkStopped?) && e.op.id == id && id in w.db.tasks {
        assert id in after.tasks && after.tasks[id].status == Cancelled;
      } else {
        assert after.controls[i] == w.db.controls[i];
      }
    }
  }

  lemma SettlingWithdraws(w: World, e: Event, cfg: Settings, id: TaskId)
    requires Enabled(w, e, cfg) && Settles(w.db, e.op, id)
    ensures !Pending(Next(w, e, cfg).db, id)
  {
    var after := Next(w, e, cfg).db;
    if e.op.OpRequeue? {
      forall i | 0 <= i < |after.controls| && after.controls[i].task == id ensures after.controls[i].acknowledged {
        assert after.controls[i] == AcknowledgeAll(w.db.controls, id)[i];
      }
    }
  }

  /** A request in sight goes out of sight exactly by a step that settles it. */
  lemma WithdrawnIffSettled(w: World, e: Event, cfg: Settings, id: TaskId)
    requires ObservedControl(w.db, id).Some? && Enabled(w, e, cfg)
    ensures ObservedControl(Next(w, e, cfg).db, id).None? <==> Settles(w.db, e.op, id)
  {
    PendingIsObserved(w.db, id);
    PendingIsObserved(Next(w, e, cfg).db, id);
    if Settles(w.db, e.op, id) {
      SettlingWithdraws(w, e, cfg, id);
    } else {
      StepKeepsPending(w, e, cfg, id);
    }
  }

  lemma RequestIsSeenAtOnce(r: Run, i: nat)
    requires r.Valid() && i < |r.events|
    requires r.events[i].op.OpRequestControl? && r.Row(i, r.events[i].op.id).Some?
    ensures ObservedControl(r.worlds[i + 1].db, r.events[i].op.id).Some?
  {
    var id, db := r.events[i].op.id, r.worlds[i + 1].db;
    assert r.StepAt(i);
    assert db.controls[|db.controls| - 1] == Control(id, r.events[i].op.action, false);
    PendingIsObserved(db, id);
  }

  ghost predicate SeenThroughout(r: Run, i: nat, n: nat, id: TaskId)
    requires n < |r.worlds|
  {
    forall m :: i < m <= n ==> ObservedControl(r.worlds[m].db, id).Some?
  }

  ghost predicate NothingSettles(r: Run, i: nat, n: nat, id: TaskId)
    requires n <= |r.events| < |r.worlds|
  {
    forall k :: i < k < n ==> !Settles(r.worlds[k].db, r.events[k].op, id)
  }

  /**
     In every run, once an operator has requested a stop or a cancel, every later control check of
     the row sees a request, exactly as long as no step settles what is in sight.
   */
  lemma {:induction false} VisibleIffUnsettled(r: Run, i: nat, n: nat)
    requires r.Valid() && i < n <= |r.events|
    requires r.events[i].op.OpRequestControl? && r.Row(i, r.events[i].op.id).Some?
    ensures SeenThroughout(r, i, n, r.events[i].op.id) <==> NothingSettles(r, i, n, r.events[i].op.id)
  {
    var id := r.events[i].op.id;
    RequestIsSeenAtOnce(r, i);
    if n > i + 1 {
      VisibleIffUnsettled(r, i, n - 1);
      assert r.StepAt(n - 1);
      if ObservedControl(r.worlds[n - 1].db, id).Some? {
        WithdrawnIffSettled(r.worlds[n - 1], r.events[n - 1], r.cfg, id);
      }
    }
  }

  /**
     Both kinds of settling steps occur: a requeue withdraws every request, and a late outcome write
     undoes a cancel.
   */
  lemma RequestsCanBeLost(db: Tables, id: TaskId, action: Action, status: Status, gate: Gate, now: int)
    requires id in db.tasks && status != Cancelled
    ensures ObservedControl(Requeue(RequestControl(db, id, action), id), id).None?
    ensures ObservedControl(Outcome(CancelRow(RequestControl(db, id, action), id), id, status, gate, now), id).None?
  {
    var requested := RequestControl(db, id, action);
    forall i | 0 <= i < |requested.controls| && AcknowledgeAll(requested.controls, id)[i].task == id
      ensures AcknowledgeAll(requested.controls, id)[i].acknowledged
    {
    }
  }
}
