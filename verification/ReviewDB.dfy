/**
 The review database as the program uses it: one object whose tables are updated in place, one
 method per transaction. Every method is tied to the step of `Store` it performs.
 */
module Database {
  import opened Basics
  import opened Store

  /** Some row comes first among a nonempty set of rows. */
  lemma {:induction false} SomeRowComesFirst(tasks: map<TaskId, Row>, ids: set<TaskId>) returns (first: TaskId)
    requires ids != {} && ids <= tasks.Keys
    ensures first in ids
    ensures forall q :: q in ids ==> !Before(tasks[q], tasks[first])
  {
    first :| first in ids;
    var rest := ids - {first};
    if rest != {} {
      var other := SomeRowComesFirst(tasks, rest);
      if Before(tasks[other], tasks[first]) {
        first := other;
      }
    }
  }

  /** Queued, and its time has come if it has one. */
  predicate Waiting(r: Row, now: int) { r.status == Queued && (r.notBefore.Some? ==> r.notBefore.value <= now) }

  /** A missing time comes first. */
  predicate NoLater(a: Option<int>, b: Option<int>) { a.None? || (b.Some? && a.value <= b.value) }

  /** The row, if it exists, gets this status and gate and loses its holder and lease; all else stays. */
  predicate RowBecomes(before: map<TaskId, Row>, id: TaskId, after: map<TaskId, Row>, status: Status,
      gate: Option<Gate>)
  {
    && after.Keys == before.Keys
    && (forall q :: q in before && q != id ==> after[q] == before[q])
    && (id in before ==>
          after[id] == before[id].(status := status, gate := gate, claimedBy := None, leaseExpiresAt := None))
  }

  /** The task's requests, or only those to stop, are acknowledged if it exists; the others are as they were. */
  predicate AcknowledgedFor(before: seq<Control>, id: TaskId, onlyStop: bool, tasks: map<TaskId, Row>,
      after: seq<Control>)
  {
    && |after| == |before|
    && forall i :: 0 <= i < |after| ==>
         after[i] == if id in tasks && before[i].task == id && (onlyStop ==> before[i].action == StopTask)
                     then before[i].(acknowledged := true) else before[i]
  }

  class ReviewDB {
    var tasks: map<TaskId, Row>
    var controls: seq<Control>

    function Snapshot(): Tables
      reads this
    {
      Tables(tasks, controls)
    }

    constructor ()
      ensures Snapshot() == EMPTY
    {
      tasks, controls := map[], [];
    }

    method CreateTask(id: TaskId, status: Status, priority: int, hasTarget: bool, now: int)
      modifies this
      ensures Snapshot() == Create(old(Snapshot()), id, status, priority, hasTarget, now)
    {
      if id !in tasks {
        tasks := tasks[id := Row(status, None, priority, now, None, None, None, 0, hasTarget, FRESH_CALLBACK)];
      }
    }

    method ClaimNextTask(daemon: DaemonId, leaseSeconds: int, now: int) returns (claimed: Option<TaskId>)
      modifies this
      ensures claimed.None? <==> NothingEligible(old(Snapshot()), now)
      ensures claimed.None? ==> Snapshot() == old(Snapshot())
      ensures claimed.Some? ==>
        && Claimable(old(Snapshot()), claimed.value, now)
        && Snapshot() == Claim(old(Snapshot()), claimed.value, daemon, leaseSeconds, now)
      ensures claimed.None? <==> forall q :: q in old(tasks) ==> !Waiting(old(tasks)[q], now)
      ensures claimed.Some? ==>
        && claimed.value in old(tasks)
        && Waiting(old(tasks)[claimed.value], now)
        && (forall q :: q in old(tasks) && Waiting(old(tasks)[q], now) ==>
              var first, other := old(tasks)[claimed.value], old(tasks)[q];
              first.priority >= other.priority
              && (first.priority == other.priority ==> first.createdAt <= other.createdAt))
        && tasks == old(tasks)[claimed.value := old(tasks)[claimed.value].(
             status := Running, claimedBy := Some(daemon), leaseExpiresAt := Some(now + leaseSeconds),
             attempts := old(tasks)[claimed.value].attempts + 1)]
    {
      var eligible := set id | id in tasks && Eligible(tasks[id], now);
      assert forall q :: q in tasks && Eligible(tasks[q], now) ==> q in eligible;
      if eligible == {} {
        return None;
      }
      ghost var best := SomeRowComesFirst(tasks, eligible);
      assert best in eligible && forall q :: q in eligible ==> !Before(tasks[q], tasks[best]);
      var id :| id in eligible && forall q :: q in eligible ==> !Before(tasks[q], tasks[id]);
      var r := tasks[id];
      tasks := tasks[id := r.(status := Running, claimedBy := Some(daemon),
                              leaseExpiresAt := Some(now + leaseSeconds), attempts := r.attempts + 1)];
      claimed := Some(id);
    }

    /** Each stale row is either failed for good or queued again; `recovered` lists the latter. */
    method RecoverStaleRunningTasks(maxAttempts: int, now: int) returns (recovered: seq<TaskId>)
      modifies this
      ensures Snapshot() == Recover(old(Snapshot()), maxAttempts, now)
      ensures Distinct(recovered)
      ensures forall id :: id in recovered <==>
        id in old(tasks) && Stale(old(tasks)[id], now) && old(tasks)[id].attempts < maxAttempts
      ensures tasks.Keys == old(tasks).Keys && controls == old(controls)
      ensures forall id :: id in tasks ==>
        var r := old(tasks)[id];
        var over := r.status == Running && r.leaseExpiresAt.Some? && r.leaseExpiresAt.value < now;
        && (!over ==> tasks[id] == r)
        && (over && r.attempts < maxAttempts ==>
              tasks[id] == r.(status := Queued, claimedBy := None, leaseExpiresAt := None))
        && (over && r.attempts >= maxAttempts ==>
              tasks[id] == r.(
                status := Failed, gate := Some(GateIncomplete), claimedBy := None, leaseExpiresAt := None))
    {
      ghost var before := tasks;
      var rows := set id | id in tasks && Stale(tasks[id], now);
      ghost var stale := rows;
      recovered := [];
      while rows != {}
        invariant rows <= stale
        invariant tasks.Keys == before.Keys && controls == old(controls)
        invariant forall id :: id in before ==>
          tasks[id] == if id in stale - rows then RecoverRow(before[id], maxAttempts) else before[id]
        invariant Distinct(recovered)
        invariant forall id :: id in recovered <==> id in stale - rows && before[id].attempts < maxAttempts
        decreases rows
      {
        var id :| id in rows;
        rows := rows - {id};
        var r := tasks[id];
        if r.attempts >= maxAttempts {
          tasks := tasks[id :=
            r.(status := Failed, gate := Some(GateIncomplete), claimedBy := None, leaseExpiresAt := None)];
        } else {
          tasks := tasks[id := r.(status := Queued, claimedBy := None, leaseExpiresAt := None)];
          recovered := recovered + [id];
        }
      }
    }

    method RequeueTask(id: TaskId)
      modifies this
      ensures Snapshot() == Requeue(old(Snapshot()), id)
      ensures RowBecomes(old(tasks), id, tasks, Queued, None)
      ensures AcknowledgedFor(old(controls), id, false, old(tasks), controls)
    {
      if id in tasks {
        tasks := tasks[id := tasks[id].(status := Queued, gate := None, claimedBy := None, leaseExpiresAt := None)];
        controls := AcknowledgeAll(controls, id);
      }
    }

    method UpdateTaskOutcome(id: TaskId, status: Status, gate: Gate, now: int)
      modifies this
      ensures Snapshot() == Outcome(old(Snapshot()), id, status, gate, now)
      ensures controls == old(controls) && tasks.Keys == old(tasks).Keys
      ensures forall q :: q in tasks && q != id ==> tasks[q] == old(tasks)[q]
      ensures id in tasks ==>
        var r := old(tasks)[id];
        tasks[id] == r.(status := status, gate := Some(gate), callback :=
          Callback(Some(if r.hasTarget then Retrying else NoTarget), 0, if r.hasTarget then Some(now) else None,
                   r.callback.digest))
    {
      if id in tasks {
        tasks := tasks[id :=
          tasks[id].(status := status, gate := Some(gate), callback := ArmedCallback(tasks[id], now))];
      }
    }

    method RequestTaskControl(id: TaskId, action: Action)
      modifies this
      ensures Snapshot() == RequestControl(old(Snapshot()), id, action)
    {
      if id in tasks {
        controls := controls + [Control(id, action, false)];
      }
    }

    /** Two transactions: the request, then the row. */
    method CancelTask(id: TaskId)
      modifies this
      ensures Snapshot() == CancelRow(RequestControl(old(Snapshot()), id, Action.CancelTask), id)
      ensures RowBecomes(old(tasks), id, tasks, Cancelled, Some(GateCancelled))
      ensures id in tasks ==> AcknowledgedFor(old(controls) + [Control(id, Action.CancelTask, false)], id, false,
                                              old(tasks), controls)
    {
      RequestTaskControl(id, Action.CancelTask);
      if id in tasks {
        tasks := tasks[id :=
          tasks[id].(status := Cancelled, gate := Some(GateCancelled), claimedBy := None, leaseExpiresAt := None)];
        controls := AcknowledgeAll(controls, id);
      }
    }

    method MarkTaskStopped(id: TaskId)
      modifies this
      ensures Snapshot() == MarkStopped(old(Snapshot()), id)
      ensures RowBecomes(old(tasks), id, tasks, Cancelled, Some(GateStopped))
      ensures AcknowledgedFor(old(controls), id, true, old(tasks), controls)
    {
      if id in tasks {
        tasks := tasks[id :=
          tasks[id].(status := Cancelled, gate := Some(GateStopped), claimedBy := None, leaseExpiresAt := None)];
        controls := Acknowledge(controls, id, true);
      }
    }

    method SetCallbackState(id: TaskId, state: CallbackState, attempts: nat, nextRetryAt: Option<int>,
        digest: Option<string>)
      modifies this`tasks
      ensures tasks.Keys == old(tasks).Keys
      ensures forall q :: q in tasks && q != id ==> tasks[q] == old(tasks)[q]
      ensures id in tasks ==> tasks[id] == old(tasks)[id].(callback :=
        Callback(Some(state), attempts, nextRetryAt, if digest.Some? then digest else old(tasks)[id].callback.digest))
    {
      if id in tasks {
        var c := tasks[id].callback;
        tasks := tasks[id := tasks[id].(callback := Callback(Some(state), attempts, nextRetryAt,
                                          if digest.Some? then digest else c.digest))];
      }
    }

    /**
     The due callbacks, earliest first, at most `limit` of them.
     */
    method DueCallbackTasks(limit: nat, now: int) returns (due: seq<TaskId>)
      ensures Distinct(due) && |due| <= limit
      ensures forall id :: id in due ==> id in tasks && CallbackDue(tasks[id], now)
      ensures forall i, j :: 0 <= i < j < |due| ==>
        NoLater(tasks[due[i]].callback.nextRetryAt, tasks[due[j]].callback.nextRetryAt)
      ensures |due| < limit ==> forall q :: q in tasks && CallbackDue(tasks[q], now) ==> q in due
      ensures forall q, id :: q in tasks && CallbackDue(tasks[q], now) && q !in due && id in due ==>
        NoLater(tasks[id].callback.nextRetryAt, tasks[q].callback.nextRetryAt)
    {
      var left := set id | id in tasks && CallbackDue(tasks[id], now);
      due := [];
      while left != {} && |due| < limit
        invariant Distinct(due) && |due| <= limit
        invariant forall id :: id in left <==> id in tasks && CallbackDue(tasks[id], now) && id !in due
        invariant forall id :: id in due ==> id in tasks && CallbackDue(tasks[id], now)
        invariant forall i, j :: 0 <= i < j < |due| ==> !DueBefore(tasks[due[j]], tasks[due[i]])
        invariant forall q, id :: q in left && id in due ==> !DueBefore(tasks[q], tasks[id])
        decreases left
      {
        ghost var best := SomeRetryComesFirst(tasks, left);
        assert best in left && forall q :: q in left ==> !DueBefore(tasks[q], tasks[best]);
        var id :| id in left && forall q :: q in left ==> !DueBefore(tasks[q], tasks[id]);
        due := due + [id];
        left := left - {id};
      }
    }
  }

  lemma {:induction false} SomeRetryComesFirst(tasks: map<TaskId, Row>, ids: set<TaskId>) returns (first: TaskId)
    requires ids != {} && ids <= tasks.Keys
    ensures first in ids
    ensures forall q :: q in ids ==> !DueBefore(tasks[q], tasks[first])
  {
    first :| first in ids;
    var rest := ids - {first};
    if rest != {} {
      var other := SomeRetryComesFirst(tasks, rest);
      if DueBefore(tasks[other], tasks[first]) {
        first := other;
      }
    }
  }
}
