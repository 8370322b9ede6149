/**
 Feedback on findings: each resolver, one thread per feedback session or human decision, updates its
 finding, counts the open findings and writes the outcome in three separate transactions. Operators
 can requeue a reviewed row meanwhile, and executors then claim it, store findings and finish it.
 */
module Feedback {
  import opened Basics
  import opened Store
  import opened Database

  type FindingId = string
  type ResolverId = nat

  datatype FindingStatus = Open | ModelFalsePositive | ReReviewedPass | HumanNonFix

  datatype Finding = Finding(task: TaskId, status: FindingStatus)

  // --------------------------------------------------------------- one resolver

  /** The JSON a feedback turn returned, as far as it is read. */
  datatype Reply = Reply(resolved: bool, status: string)

  datatype Turn = TurnRaised | Turn(completed: bool, reply: Option<Reply>)

  /** The status a model turn gives its finding, if the turn resolves it. */
  function Verdict(turn: Turn): (r: Option<FindingStatus>)
    ensures r != Some(Open)
    ensures r.Some? <==> turn.Turn? && turn.completed && turn.reply.Some? && turn.reply.value.resolved
    ensures r.Some? ==> (r.value == ReReviewedPass <==> turn.reply.value.status == "re_reviewed_pass")
    ensures r.Some? ==> (r.value == ModelFalsePositive <==> turn.reply.value.status != "re_reviewed_pass")
  {
    if turn.Turn? && turn.completed && turn.reply.Some? && turn.reply.value.resolved
    then Some(if turn.reply.value.status == "re_reviewed_pass" then ReReviewedPass else ModelFalsePositive)
    else None
  }

  ghost predicate NoneOpen(findings: map<FindingId, Finding>, task: TaskId) {
    forall f :: f in findings && findings[f].task == task ==> findings[f].status != Open
  }

  function OpenFindings(findings: map<FindingId, Finding>, task: TaskId): set<FindingId> {
    set f | f in findings && findings[f].task == task && findings[f].status == Open
  }

  lemma NoneOpenMeansEmpty(findings: map<FindingId, Finding>, task: TaskId)
    ensures NoneOpen(findings, task) <==> OpenFindings(findings, task) == {}
  {
    forall f | f in findings && findings[f].task == task && findings[f].status == Open
      ensures f in OpenFindings(findings, task)
    {
    }
  }

  datatype Phase =
    | Updating(verdict: Option<FindingStatus>)  // the turn is over, nothing written yet
    | Counting
    | Writing
    | Finished
    | Aborted                                   // the finding was not found for the task

  datatype Resolver = Resolver(task: TaskId, finding: FindingId, phase: Phase)

  /** `executing` are the executions under way: which daemon has claimed which row. */
  datatype World = World(findings: map<FindingId, Finding>, db: Tables, resolvers: map<ResolverId, Resolver>,
    executing: set<(DaemonId, TaskId)>)

  predicate Known(w: World, r: Resolver) { r.finding in w.findings && w.findings[r.finding].task == r.task }

  /** The next transaction of resolver `id`. */
  function Advance(w: World, id: ResolverId, now: int): World
    requires id in w.resolvers
  {
    var r := w.resolvers[id];
    match r.phase
    case Updating(None) => w.(resolvers := w.resolvers[id := r.(phase := Finished)])
    case Updating(Some(status)) =>
      if Known(w, r)
      then w.(findings := w.findings[r.finding := w.findings[r.finding].(status := status)],
              resolvers := w.resolvers[id := r.(phase := Counting)])
      else w.(resolvers := w.resolvers[id := r.(phase := Aborted)])
    case Counting =>
      w.(resolvers := w.resolvers[id :=
        r.(phase := if OpenFindings(w.findings, r.task) == {} then Writing else Finished)])
    case Writing =>
      w.(db := Outcome(w.db, r.task, Success, GatePassed, now), resolvers := w.resolvers[id := r.(phase := Finished)])
    case Finished => w
    case Aborted => w
  }

  datatype Move =
    | Spawn(id: ResolverId, task: TaskId, finding: FindingId, verdict: Option<FindingStatus>)
    | Go(id: ResolverId, now: int)
    | RequeueTask(task: TaskId)
    | ClaimTask(daemon: DaemonId, task: TaskId, leaseSeconds: int, now: int)
    | StoreFinding(daemon: DaemonId, task: TaskId, finding: FindingId)
    | FinishTask(daemon: DaemonId, task: TaskId, status: Status, gate: Gate, now: int)
    | RecoverTasks(maxAttempts: int, now: int)
    | AskFor(task: TaskId, action: Action)
    | CancelRowOf(task: TaskId)
    | StopRowOf(task: TaskId)

  ghost predicate Step(w: World, m: Move, after: World) {
    match m
    case Spawn(id, task, finding, verdict) =>
      && id !in w.resolvers && verdict != Some(Open)
      && after == w.(resolvers := w.resolvers[id := Resolver(task, finding, Updating(verdict))])
    case Go(id, now) => id in w.resolvers && after == Advance(w, id, now)
    case RequeueTask(task) => after == w.(db := Requeue(w.db, task))
    case ClaimTask(daemon, task, lease, now) =>
      && Claimable(w.db, task, now)
      && after == w.(db := Claim(w.db, task, daemon, lease, now), executing := w.executing + {(daemon, task)})
    case StoreFinding(daemon, task, f) =>  // the insert fails on an existing id
      && (daemon, task) in w.executing
      && after == if f in w.findings then w else w.(findings := w.findings[f := Finding(task, Open)])
    case FinishTask(daemon, task, status, gate, now) =>
      && (daemon, task) in w.executing && (status == Success || status == Failed)
      && after == w.(db := Outcome(w.db, task, status, gate, now), executing := w.executing - {(daemon, task)})
    case RecoverTasks(maxAttempts, now) => after == w.(db := Recover(w.db, maxAttempts, now))
    case AskFor(task, action) => after == w.(db := RequestControl(w.db, task, action))
    case CancelRowOf(task) => after == w.(db := CancelRow(w.db, task))
    case StopRowOf(task) => after == w.(db := MarkStopped(w.db, task))
  }

  /** Any interleaving of any number of resolvers, operators and executors, from a world without resolvers. */
  datatype Run = Run(moves: seq<Move>, worlds: seq<World>) {
    ghost predicate StepAt(i: nat)
      requires i < |moves| && |worlds| == |moves| + 1
    {
      Step(worlds[i], moves[i], worlds[i + 1])
    }

    ghost predicate Valid() {
      && |worlds| == |moves| + 1
      && worlds[0].resolvers == map[]
      && forall i: nat :: i < |moves| ==> StepAt(i)
    }

    /** Nobody reruns anything meanwhile. */
    ghost predicate ResolversOnly() { forall i :: 0 <= i < |moves| ==> moves[i].Spawn? || moves[i].Go? }
  }

  predicate Passed(w: World, task: TaskId) {
    task in w.db.tasks && w.db.tasks[task].gate == Some(GatePassed)
  }

  /** Nobody has anything left to do for the task. */
  ghost predicate Quiet(w: World, task: TaskId) {
    forall id :: id in w.resolvers && w.resolvers[id].task == task ==>
        w.resolvers[id].phase.Finished? || w.resolvers[id].phase.Aborted?
  }

  /**
     A passed gate has no open finding behind it, nor does a resolver about to write one. And when
     none is open, the gate is passed or some resolver is about to see that it should be.
   */
  ghost predicate Inv(w: World, task: TaskId) {
    && task in w.db.tasks
    && (Passed(w, task) ==> NoneOpen(w.findings, task))
    && (forall id :: id in w.resolvers && w.resolvers[id].task == task && w.resolvers[id].phase.Writing? ==>
      NoneOpen(w.findings, task))
    && (NoneOpen(w.findings, task) && !Passed(w, task) ==> exists id :: Concluding(w, task, id))
    && (forall id :: id in w.resolvers ==> w.resolvers[id].phase != Updating(Some(Open)))
  }

  ghost predicate Concluding(w: World, task: TaskId, id: ResolverId) {
    id in w.resolvers && w.resolvers[id].task == task
      && (w.resolvers[id].phase.Counting? || w.resolvers[id].phase.Writing?)
  }

  /** While none is open and the gate is not passed, some resolver is still to see it. */
  lemma SomeoneConcludes(w: World, m: Move, after: World, task: TaskId)
    requires Inv(w, task) && Step(w, m, after) && (m.Spawn? || m.Go?)
    requires NoneOpen(after.findings, task) && !Passed(after, task)
    ensures exists id :: Concluding(after, task, id)
  {
    if m.Go? && NoneOpen(w.findings, task) {
      var c :| Concluding(w, task, c);
      if c == m.id {
        assert OpenFindings(w.findings, task) == {};
      }
      assert Concluding(after, task, c);
    } else if m.Go? {
      var f :| f in w.findings && w.findings[f].task == task && w.findings[f].status == Open;
      assert f in after.findings && after.findings[f] != w.findings[f];
      assert Concluding(after, task, m.id);
    } else {
      var c :| Concluding(w, task, c);
      assert Concluding(after, task, c);
    }
  }

  lemma StepKeepsInv(w: World, m: Move, after: World, task: TaskId)
    requires Inv(w, task) && Step(w, m, after) && (m.Spawn? || m.Go?)
    ensures Inv(after, task)
  {
    if NoneOpen(after.findings, task) && !Passed(after, task) {
      SomeoneConcludes(w, m, after, task);
    }
    if m.Go? && after.resolvers[m.id].phase.Writing? {
      CountedNone(w, after, m);
    }
  }

  lemma {:induction false} InvHolds(r: Run, n: nat, task: TaskId)
    requires r.Valid() && r.ResolversOnly() && n <= |r.moves| && Inv(r.worlds[0], task)
    ensures Inv(r.worlds[n], task)
  {
    if n > 0 {
      InvHolds(r, n - 1, task);
      assert r.StepAt(n - 1);
      StepKeepsInv(r.worlds[n - 1], r.moves[n - 1], r.worlds[n], task);
    }
  }

  /** In no interleaving is a task passed while one of its findings is open. */
  lemma NeverPassedWhileOpen(r: Run, n: nat, task: TaskId)
    requires r.Valid() && r.ResolversOnly() && n <= |r.moves|
    requires task in r.worlds[0].db.tasks && (Passed(r.worlds[0], task) ==> NoneOpen(r.worlds[0].findings, task))
    ensures Passed(r.worlds[n], task) ==> NoneOpen(r.worlds[n].findings, task)
  {
    assert forall s: nat :: s < |r.moves| ==> !r.moves[s].StoreFinding? && !r.moves[s].FinishTask?;
    SoundIffSafe(r, n, task);
  }

  /**
     Once all resolvers are through, the task is passed exactly if every finding was resolved, in
     whatever order their transactions interleaved.
   */
  lemma PassedIffAllResolved(r: Run, task: TaskId)
    requires r.Valid() && r.ResolversOnly()
    requires task in r.worlds[0].db.tasks && (Passed(r.worlds[0], task) <==> NoneOpen(r.worlds[0].findings, task))
    requires Quiet(r.worlds[|r.moves|], task)
    ensures Passed(r.worlds[|r.moves|], task) <==> NoneOpen(r.worlds[|r.moves|].findings, task)
  {
    InvHolds(r, |r.moves|, task);
  }

  /** A resolved finding stays resolved. */
  lemma {:induction false} ResolvedStaysResolved(r: Run, i: nat, n: nat, f: FindingId)
    requires r.Valid() && i <= n <= |r.moves|
    requires f in r.worlds[i].findings && r.worlds[i].findings[f].status != Open
    requires forall id :: id in r.worlds[i].resolvers ==> r.worlds[i].resolvers[id].phase != Updating(Some(Open))
    ensures f in r.worlds[n].findings && r.worlds[n].findings[f].status != Open
    ensures forall id :: id in r.worlds[n].resolvers ==> r.worlds[n].resolvers[id].phase != Updating(Some(Open))
  {
    if i < n {
      ResolvedStaysResolved(r, i, n - 1, f);
      assert r.StepAt(n - 1);
    }
  }

  // ---------------------------------------------------------------------- reruns

  /** No open finding below a passed gate. */
  ghost predicate Sound(w: World, task: TaskId) { Passed(w, task) ==> NoneOpen(w.findings, task) }

  /** Move `k` is resolver `id` writing the outcome of the task. */
  ghost predicate Writes(r: Run, k: nat, id: ResolverId, task: TaskId)
    requires r.Valid() && k < |r.moves|
  {
    r.moves[k].Go? && r.moves[k].id == id && id in r.worlds[k].resolvers
    && r.worlds[k].resolvers[id].task == task && r.worlds[k].resolvers[id].phase.Writing?
  }

  /** Move `c` is resolver `id` counting no open findings of the task. */
  ghost predicate CountsNone(r: Run, c: nat, id: ResolverId, task: TaskId)
    requires r.Valid() && c < |r.moves|
  {
    r.moves[c].Go? && r.moves[c].id == id && id in r.worlds[c].resolvers
    && r.worlds[c].resolvers[id].task == task && r.worlds[c].resolvers[id].phase.Counting?
      && NoneOpen(r.worlds[c].findings, task)
  }

  /** Move `s` stores a new finding of the task. */
  ghost predicate Stores(r: Run, s: nat, task: TaskId, f: FindingId)
    requires r.Valid() && s < |r.moves|
  {
    r.moves[s].StoreFinding? && r.moves[s].task == task && r.moves[s].finding == f && f !in r.worlds[s].findings
  }

  /**
     The resolver that writes with move `k` counted with move `c`, and move `s` stored a finding since
     that is still open.
   */
  ghost predicate StoredSince(r: Run, c: nat, s: nat, k: nat, task: TaskId, f: FindingId)
    requires r.Valid() && c < s < k < |r.moves|
  {
    && r.moves[k].Go? && CountsNone(r, c, r.moves[k].id, task) && Stores(r, s, task, f)
    && f in r.worlds[k].findings && r.worlds[k].findings[f] == Finding(task, Open)
  }

  ghost predicate UnsafeWrite(r: Run, k: nat, task: TaskId)
    requires r.Valid() && k < |r.moves|
  {
    && r.moves[k].Go? && Writes(r, k, r.moves[k].id, task) && task in r.worlds[k].db.tasks
    && exists c: nat, s: nat, f: FindingId :: c < s < k && StoredSince(r, c, s, k, task, f)
  }

  /**
     The three ways to an open finding below a passed gate: a finding is stored although the gate is
     passed, an executor passes the row although an older finding is open, or a finding is stored
     between the count and the write of a resolver and is still open at the write.
   */
  ghost predicate Unsafe(r: Run, k: nat, task: TaskId)
    requires r.Valid() && k < |r.moves|
  {
    || (r.moves[k].StoreFinding? && Stores(r, k, task, r.moves[k].finding) && Passed(r.worlds[k], task))
    || (r.moves[k].FinishTask? && r.moves[k].task == task && r.moves[k].gate == GatePassed
        && task in r.worlds[k].db.tasks && !NoneOpen(r.worlds[k].findings, task))
    || UnsafeWrite(r, k, task)
  }

  /** Resolvers resolve: none is about to open its finding, and one about to write has counted none open. */
  ghost predicate ResolversAreSane(r: Run, n: nat)
    requires r.Valid() && n <= |r.moves|
  {
    forall id :: id in r.worlds[n].resolvers ==>
      && r.worlds[n].resolvers[id].phase != Updating(Some(Open))
      && (r.worlds[n].resolvers[id].phase.Writing? ==>
          exists c: nat :: c < n && CountsNone(r, c, id, r.worlds[n].resolvers[id].task))
  }

  lemma {:induction false} ResolversStaySane(r: Run, n: nat)
    requires r.Valid() && n <= |r.moves|
    ensures ResolversAreSane(r, n)
  {
    if n > 0 {
      ResolversStaySane(r, n - 1);
      assert r.StepAt(n - 1);
      var w, after, m := r.worlds[n - 1], r.worlds[n], r.moves[n - 1];
      forall id | id in after.resolvers
        ensures after.resolvers[id].phase != Updating(Some(Open))
        ensures after.resolvers[id].phase.Writing? ==>
          exists c: nat :: c < n && CountsNone(r, c, id, after.resolvers[id].task)
      {
        if after.resolvers[id].phase.Writing? {
          if m.Go? && m.id == id {
            CountedNone(w, after, m);
            assert CountsNone(r, n - 1, id, after.resolvers[id].task);
          } else {
            assert id in w.resolvers && after.resolvers[id] == w.resolvers[id];
          }
        }
      }
    }
  }

  lemma CountedNone(w: World, after: World, m: Move)
    requires m.Go? && Step(w, m, after) && after.resolvers[m.id].phase.Writing?
    ensures w.resolvers[m.id].phase.Counting? && NoneOpen(w.findings, w.resolvers[m.id].task)
    ensures after.resolvers[m.id].task == w.resolvers[m.id].task
  {
    var task := w.resolvers[m.id].task;
    assert w.resolvers[m.id].phase.Counting?;
    forall f | f in w.findings && w.findings[f].task == task ensures w.findings[f].status != Open {
      assert f !in OpenFindings(w.findings, task);
    }
  }

  /** A finding that is open, though none was after `c`, was stored since. */
  lemma {:induction false} OpenWasStored(r: Run, c: nat, k: nat, task: TaskId, f: FindingId) returns (s: nat)
    requires r.Valid() && c < k <= |r.moves|
    requires NoneOpen(r.worlds[c + 1].findings, task)
    requires f in r.worlds[k].findings && r.worlds[k].findings[f] == Finding(task, Open)
    ensures c < s < k && Stores(r, s, task, f)
  {
    if c + 1 == k {
      assert false;
    } else {
      assert r.StepAt(k - 1);
      ResolversStaySane(r, k - 1);
      if f in r.worlds[k - 1].findings {
        s := OpenWasStored(r, c, k - 1, task, f);
      } else {
        s := k - 1;
      }
    }
  }

  lemma UnsafeBreaks(r: Run, k: nat, task: TaskId)
    requires r.Valid() && k < |r.moves| && Unsafe(r, k, task)
    ensures !Sound(r.worlds[k + 1], task)
  {
    assert r.StepAt(k);
    var after := r.worlds[k + 1];
    if UnsafeWrite(r, k, task) {
      var c: nat, s: nat, f: FindingId :| c < s < k && StoredSince(r, c, s, k, task, f);
      assert f in after.findings && after.findings[f] == Finding(task, Open);
    } else if r.moves[k].StoreFinding? {
      var f := r.moves[k].finding;
      assert after.findings[f] == Finding(task, Open);
    }
  }

  lemma SafeKeepsSound(r: Run, k: nat, task: TaskId)
    requires r.Valid() && k < |r.moves| && Sound(r.worlds[k], task) && !Unsafe(r, k, task)
    ensures Sound(r.worlds[k + 1], task)
  {
    assert r.StepAt(k);
    ResolversStaySane(r, k);
    var w, after := r.worlds[k], r.worlds[k + 1];
    if r.moves[k].Go? && Writes(r, k, r.moves[k].id, task) && task in w.db.tasks {
      WriterIsSafe(r, k, task);
    }
  }

  /** A resolver whose write is not unsafe writes while no finding is open. */
  lemma WriterIsSafe(r: Run, k: nat, task: TaskId)
    requires r.Valid() && k < |r.moves| && r.moves[k].Go? && Writes(r, k, r.moves[k].id, task)
    requires task in r.worlds[k].db.tasks
    requires !UnsafeWrite(r, k, task)
    ensures NoneOpen(r.worlds[k].findings, task)
  {
    ResolversStaySane(r, k);
    var c: nat :| c < k && CountsNone(r, c, r.moves[k].id, task);
    assert r.StepAt(c);
    assert NoneOpen(r.worlds[c + 1].findings, task);
    forall f | f in r.worlds[k].findings && r.worlds[k].findings[f].task == task
      ensures r.worlds[k].findings[f].status != Open {
      if r.worlds[k].findings[f].status == Open {
        var s := OpenWasStored(r, c, k, task, f);
        assert StoredSince(r, c, s, k, task, f);
      }
    }
  }

  ghost predicate SoundThroughout(r: Run, n: nat, task: TaskId)
    requires n < |r.worlds|
  {
    forall k :: 0 <= k <= n ==> Sound(r.worlds[k], task)
  }

  ghost predicate SafeThroughout(r: Run, n: nat, task: TaskId)
    requires r.Valid() && n <= |r.moves|
  {
    forall k: nat :: k < n ==> !Unsafe(r, k, task)
  }

  /**
     In every run, reruns included, a passed gate never covers an open finding exactly if none of the
     three unsafe moves happens.
   */
  lemma {:induction false} SoundIffSafe(r: Run, n: nat, task: TaskId)
    requires r.Valid() && n <= |r.moves| && Sound(r.worlds[0], task)
    ensures SoundThroughout(r, n, task) <==> SafeThroughout(r, n, task)
  {
    if n > 0 {
      SoundIffSafe(r, n - 1, task);
      if Unsafe(r, n - 1, task) {
        UnsafeBreaks(r, n - 1, task);
      } else if Sound(r.worlds[n - 1], task) {
        SafeKeepsSound(r, n - 1, task);
      }
    }
  }

  // ---------------------------------------------------------------- out of the queue

  predicate IsQueued(w: World, task: TaskId) { task in w.db.tasks && w.db.tasks[task].status == Queued }

  /** Move `k` gives the row an outcome: a resolver passes it, or an executor or an operator ends it. */
  ghost predicate Concludes(r: Run, k: nat, task: TaskId)
    requires r.Valid() && k < |r.moves|
  {
    var m := r.moves[k];
    || (m.Go? && Writes(r, k, m.id, task))
    || (m.FinishTask? && m.task == task)
    || (m.CancelRowOf? && m.task == task)
    || (m.StopRowOf? && m.task == task)
  }

  ghost predicate Claims(r: Run, k: nat, task: TaskId)
    requires k < |r.moves|
  {
    r.moves[k].ClaimTask? && r.moves[k].task == task
  }

  /** A queued row leaves the queue exactly when it is claimed, or when it gets an outcome that nobody ran for. */
  lemma LeavesQueueIff(r: Run, k: nat, task: TaskId)
    requires r.Valid() && k < |r.moves| && IsQueued(r.worlds[k], task)
    ensures !IsQueued(r.worlds[k + 1], task) <==> Claims(r, k, task) || Concludes(r, k, task)
  {
    assert r.StepAt(k);
  }

  ghost predicate QueuedThroughout(r: Run, i: nat, n: nat, task: TaskId)
    requires n < |r.worlds|
  {
    forall k :: i <= k <= n ==> IsQueued(r.worlds[k], task)
  }

  ghost predicate NothingConcludes(r: Run, i: nat, n: nat, task: TaskId)
    requires r.Valid() && n <= |r.moves|
  {
    forall k: nat :: i <= k < n ==> !Concludes(r, k, task)
  }

  /** A row that is requeued and not claimed yet waits in the queue exactly as long as nothing concludes it. */
  lemma {:induction false} WaitsIffNothingConcludes(r: Run, i: nat, n: nat, task: TaskId)
    requires r.Valid() && i <= n <= |r.moves| && IsQueued(r.worlds[i], task)
    requires forall k: nat :: i <= k < n ==> !Claims(r, k, task)
    ensures QueuedThroughout(r, i, n, task) <==> NothingConcludes(r, i, n, task)
  {
    if i < n {
      WaitsIffNothingConcludes(r, i, n - 1, task);
      if IsQueued(r.worlds[n - 1], task) {
        LeavesQueueIff(r, n - 1, task);
      }
      assert n - 1 + 1 == n;
    }
  }

  /** Once concluded, the row is not claimed before it is requeued again: the rerun does not happen. */
  lemma {:induction false} ConcludedIsNotClaimed(r: Run, i: nat, n: nat, task: TaskId)
    requires r.Valid() && i <= n <= |r.moves| && task in r.worlds[i].db.tasks
    requires r.worlds[i].db.tasks[task].status != Queued && r.worlds[i].db.tasks[task].status != Running
    requires forall k :: i <= k < n ==> !(r.moves[k].RequeueTask? && r.moves[k].task == task)
    ensures task in r.worlds[n].db.tasks
    ensures r.worlds[n].db.tasks[task].status != Queued && r.worlds[n].db.tasks[task].status != Running
    ensures forall k: nat :: i <= k < n ==> !Claims(r, k, task)
  {
    if i < n {
      ConcludedIsNotClaimed(r, i, n - 1, task);
      assert r.StepAt(n - 1);
    }
  }

  // A reviewed row with one open finding, and what a rerun by daemon "d" makes of it.

  function Reviewed(status: Status, gate: Option<Gate>, holder: Option<DaemonId>, lease: Option<int>, attempts: nat,
      callback: Callback): Tables
  {
    Tables(map["t" := Row(status, gate, 100, 0, None, holder, lease, attempts, false, callback)], [])
  }

  const UNARMED := Callback(Some(NoTarget), 0, None, None)

  /** A resolver counts, a whole rerun stores a finding and fails the row, and then the resolver writes passed. */
  function RerunRace(): Run {
    var first, one, two := map["f" := Finding("t", Open)], map["f" := Finding("t", HumanNonFix)],
      map["f" := Finding("t", HumanNonFix), "g" := Finding("t", Open)];
    var failed := Reviewed(Success, Some(GateFailed), Some("d"), Some(0), 1, UNARMED);
    var queued := Reviewed(Queued, None, None, None, 1, UNARMED);
    var running := Reviewed(Running, None, Some("d"), Some(300), 2, UNARMED);
    var again := Reviewed(Success, Some(GateFailed), Some("d"), Some(300), 2, UNARMED);
    var passed := Reviewed(Success, Some(GatePassed), Some("d"), Some(300), 2, UNARMED);
    var updating, counting := map[0 := Resolver("t", "f", Updating(Some(HumanNonFix)))],
      map[0 := Resolver("t", "f", Counting)];
    var writing, finished := map[0 := Resolver("t", "f", Writing)], map[0 := Resolver("t", "f", Finished)];
    Run([Spawn(0, "t", "f", Some(HumanNonFix)), Go(0, 0), Go(0, 0), RequeueTask("t"), ClaimTask("d", "t", 300, 0),
         StoreFinding("d", "t", "g"), FinishTask("d", "t", Success, GateFailed, 0), Go(0, 0)],
        [World(first, failed, map[], {}), World(first, failed, updating, {}),
         World(one, failed, counting, {}), World(one, failed, writing, {}),
         World(one, queued, writing, {}), World(one, running, writing, {("d", "t")}),
         World(two, running, writing, {("d", "t")}),
         World(two, again, writing, {}), World(two, passed, finished, {})])
  }

  lemma RerunRaceEndsPassedWithOpenFinding()
    ensures var r := RerunRace();
      r.Valid() && Sound(r.worlds[0], "t") && Passed(r.worlds[8], "t") && !NoneOpen(r.worlds[8].findings, "t")
  {
    var r := RerunRace();
    RaceUntilTheCount();
    RaceRequeue();
    RaceClaim();
    RaceStore();
    RaceFinish();
    RaceWrite();
    assert r.Valid();
    assert "g" in r.worlds[8].findings && r.worlds[8].findings["g"].status == Open;
  }

  lemma RaceUntilTheCount()
    ensures var r := RerunRace(); r.StepAt(0) && r.StepAt(1) && r.StepAt(2)
  {
    var r := RerunRace();
    assert r.StepAt(0);
    assert r.StepAt(1);
    assert OpenFindings(r.worlds[2].findings, "t") == {};
    assert r.StepAt(2);
  }

  lemma RaceRequeue()
    ensures RerunRace().StepAt(3)
  {
  }

  lemma RaceClaim()
    ensures RerunRace().StepAt(4)
  {
  }

  lemma RaceStore()
    ensures RerunRace().StepAt(5)
  {
  }

  lemma RaceFinish()
    ensures RerunRace().StepAt(6)
  {
  }

  lemma RaceWrite()
    ensures RerunRace().StepAt(7)
  {
  }

  /** The same race without an executor: the write of the resolver takes the requeued row out of the queue. */
  function LostRerun(): Run {
    var race := RerunRace();
    var passed := Reviewed(Success, Some(GatePassed), None, None, 1, UNARMED);
    var finished := map[0 := Resolver("t", "f", Finished)];
    Run(race.moves[..4] + [Go(0, 0)], race.worlds[..5] + [World(race.worlds[4].findings, passed, finished, {})])
  }

  lemma LostRerunLeavesTheQueueUnclaimed()
    ensures var r := LostRerun();
      r.Valid() && r.moves[3] == RequeueTask("t") && IsQueued(r.worlds[4], "t") && Concludes(r, 4, "t")
        && !IsQueued(r.worlds[5], "t")
  {
    var race, r := RerunRace(), LostRerun();
    RaceUntilTheCount();
    RaceRequeue();
    LostWrite();
    forall i: nat | i < 4 ensures r.StepAt(i) {
      assert race.StepAt(i);
    }
    assert r.Valid();
  }

  lemma LostWrite()
    ensures var r := LostRerun(); |r.worlds| == |r.moves| + 1 == 6 && r.StepAt(4)
  {
  }

  /** Without any resolver: a rerun that finds nothing passes the row over the open finding of the first run. */
  function CleanRerun(): Run {
    var open := map["f" := Finding("t", Open)];
    Run([RequeueTask("t"), ClaimTask("d", "t", 300, 0), FinishTask("d", "t", Success, GatePassed, 0)],
        [World(open, Reviewed(Success, Some(GateFailed), Some("d"), Some(0), 1, UNARMED), map[], {}),
         World(open, Reviewed(Queued, None, None, None, 1, UNARMED), map[], {}),
         World(open, Reviewed(Running, None, Some("d"), Some(300), 2, UNARMED), map[], {("d", "t")}),
         World(open, Reviewed(Success, Some(GatePassed), Some("d"), Some(300), 2, UNARMED), map[], {})])
  }

  lemma CleanRerunEndsPassedWithOpenFinding()
    ensures var r := CleanRerun();
      r.Valid() && Sound(r.worlds[0], "t") && Passed(r.worlds[3], "t") && !NoneOpen(r.worlds[3].findings, "t")
  {
    var r := CleanRerun();
    assert r.StepAt(0);
    assert r.StepAt(1);
    assert r.StepAt(2);
    assert r.worlds[3].findings["f"].status == Open;
  }

  // ----------------------------------------------------------------- in sequence

  /** One resolver on its own, from its verdict to its end. */
  function Alone(findings: map<FindingId, Finding>, db: Tables, task: TaskId, f: FindingId,
      verdict: Option<FindingStatus>, now: int): World
  {
    var w0 := World(findings, db, map[0 := Resolver(task, f, Updating(verdict))], {});
    var w1 := Advance(w0, 0, now);
    var w2 := Advance(w1, 0, now);
    Advance(w2, 0, now)
  }

  /** Only the one finding changes, to its verdict; it must exist for the task. */
  predicate Resolves(before: map<FindingId, Finding>, task: TaskId, f: FindingId, verdict: Option<FindingStatus>,
      after: map<FindingId, Finding>, r: Result<()>)
  {
    if verdict.None? then after == before && r.Ok?
    else if f in before && before[f].task == task then after == before[f := Finding(task, verdict.value)] && r.Ok?
    else after == before && r.Raised?
  }

  /** The task's row, if it exists, is a success with a passed gate and a fresh callback; others are as before. */
  predicate PassedInstead(before: map<TaskId, Row>, task: TaskId, now: int, after: map<TaskId, Row>) {
    && after.Keys == before.Keys
    && (forall q :: q in before && q != task ==> after[q] == before[q])
    && (task in before ==>
          var r := before[task];
          after[task] == r.(status := Success, gate := Some(GatePassed), callback :=
            Callback(Some(if r.hasTarget then Retrying else NoTarget), 0, if r.hasTarget then Some(now) else None,
                     r.callback.digest)))
  }

  class FeedbackProcessor {
    const db: ReviewDB
    var findings: map<FindingId, Finding>

    constructor (db: ReviewDB, findings: map<FindingId, Finding>)
      ensures this.db == db && this.findings == findings
    {
      this.db := db;
      this.findings := findings;
    }

    method UpdateFindingStatus(task: TaskId, f: FindingId, status: FindingStatus) returns (r: Result<()>)
      modifies this
      ensures r.Ok? <==> f in old(findings) && old(findings)[f].task == task
      ensures findings == if r.Ok? then old(findings)[f := Finding(task, status)] else old(findings)
    {
      if f !in findings || findings[f].task != task {
        return Raised;
      }
      findings := findings[f := findings[f].(status := status)];
      return Ok(());
    }

    method OpenFindingsCount(task: TaskId) returns (n: nat)
      ensures n == |OpenFindings(findings, task)|
    {
      n := |OpenFindings(findings, task)|;
    }

    method RecomputePassAck(task: TaskId, now: int)
      modifies db
      ensures db.Snapshot() ==
        if OpenFindings(findings, task) == {} then Outcome(old(db.Snapshot()), task, Success, GatePassed, now)
          else old(db.Snapshot())
      ensures if NoneOpen(findings, task) then PassedInstead(old(db.tasks), task, now, db.tasks)
        else db.tasks == old(db.tasks)
    {
      NoneOpenMeansEmpty(findings, task);
      var open := OpenFindingsCount(task);
      if open != 0 {
        return;
      }
      db.UpdateTaskOutcome(task, Success, GatePassed, now);
    }

    method ProcessFindingFeedback(task: TaskId, f: FindingId, turn: Turn, now: int) returns (r: Result<()>)
      modifies this, db
      ensures var end := Alone(old(findings), old(db.Snapshot()), task, f, Verdict(turn), now);
        && findings == end.findings && db.Snapshot() == end.db
        && (r.Raised? <==> end.resolvers[0].phase.Aborted?)
      ensures Resolves(old(findings), task, f, Verdict(turn), findings, r)
      ensures if Verdict(turn).Some? && r.Ok? && NoneOpen(findings, task) then
        PassedInstead(old(db.tasks), task, now, db.tasks) else db.tasks == old(db.tasks)
    {
      var verdict := Verdict(turn);
      if verdict.None? {
        return Ok(());
      }
      r := UpdateFindingStatus(task, f, verdict.value);
      if r.Ok? {
        RecomputePassAck(task, now);
      }
    }

    method MarkHumanNonFix(task: TaskId, f: FindingId, now: int) returns (r: Result<()>)
      modifies this, db
      ensures var end := Alone(old(findings), old(db.Snapshot()), task, f, Some(HumanNonFix), now);
        && findings == end.findings && db.Snapshot() == end.db
        && (r.Raised? <==> end.resolvers[0].phase.Aborted?)
      ensures Resolves(old(findings), task, f, Some(HumanNonFix), findings, r)
      ensures if r.Ok? && NoneOpen(findings, task) then PassedInstead(old(db.tasks), task, now, db.tasks)
        else db.tasks == old(db.tasks)
    {
      r := UpdateFindingStatus(task, f, HumanNonFix);
      if r.Ok? {
        RecomputePassAck(task, now);
      }
    }
  }
}
