/**
 The task table and the control table of the review database, as values, and the effect of each
 transaction on them. `Runs` and `CallbackRuns` reason about sequences of these steps; the
 class `ReviewDB` performs them in place.
 */
module Store {
  import opened Basics

  type TaskId = string
  type DaemonId = string

  datatype Status = Queued | Running | Success | Failed | Incomplete | Skipped | Cancelled

  datatype Gate =
    | GatePassed | GateFailed | GateSkipped | GateIncomplete
    | GateContextTooLarge | GateStopped | GateCancelled

  datatype CallbackState = Retrying | Succeeded | Exhausted | NoTarget

  datatype Callback = Callback(state: Option<CallbackState>, attempts: nat, nextRetryAt: Option<int>,
    digest: Option<string>)

  datatype Row = Row(
    status: Status, gate: Option<Gate>, priority: int, createdAt: int, notBefore: Option<int>,
    claimedBy: Option<DaemonId>, leaseExpiresAt: Option<int>, attempts: nat,
    hasTarget: bool, callback: Callback)

  datatype Action = StopTask | CancelTask

  /** One row of task_controls; the sequence order is the id order. */
  datatype Control = Control(task: TaskId, action: Action, acknowledged: bool)

  datatype Tables = Tables(tasks: map<TaskId, Row>, controls: seq<Control>)

  const EMPTY := Tables(map[], [])

  /** The daemon settings the steps read. */
  datatype Settings = Settings(maxCallbackAttempts: int, initialDelay: int, maxDelay: int, callbackRetryTimes: int)

  /** How one `_send_callback` ends once a payload is due to be sent. */
  datatype SendResult =
    | Acknowledged(posts: nat)  // the client returned: the last of its POSTs got a 2xx
    | Refused(posts: nat)       // the client raised after its own retries
    | BrokenBeforeSend          // building the record or the payload raised, nothing was sent

  // ---------------------------------------------------------------- queue steps

  const FRESH_CALLBACK := Callback(None, 0, None, None)

  /** The INSERT fails on an existing primary key and the transaction rolls back. */
  function Create(s: Tables, id: TaskId, status: Status, priority: int, hasTarget: bool, now: int): Tables {
    if id in s.tasks then s
    else s.(tasks := s.tasks[id := Row(status, None, priority, now, None, None, None, 0, hasTarget, FRESH_CALLBACK)])
  }

  predicate Eligible(r: Row, now: int) {
    r.status == Queued && (r.notBefore == None || r.notBefore.value <= now)
  }

  /** `ORDER BY priority DESC, created_at ASC`: r comes strictly before q. */
  predicate Before(r: Row, q: Row) {
    r.priority > q.priority || (r.priority == q.priority && r.createdAt < q.createdAt)
  }

  /** A row the claim query may return: no eligible row comes before it. Ties are left open, as in SQL. */
  ghost predicate Claimable(s: Tables, id: TaskId, now: int) {
    && id in s.tasks
    && Eligible(s.tasks[id], now)
    && forall q :: q in s.tasks && Eligible(s.tasks[q], now) ==> !Before(s.tasks[q], s.tasks[id])
  }

  ghost predicate NothingEligible(s: Tables, now: int) {
    forall q :: q in s.tasks ==> !Eligible(s.tasks[q], now)
  }

  function Claim(s: Tables, id: TaskId, daemon: DaemonId, leaseSeconds: int, now: int): Tables {
    if id !in s.tasks then s
    else
      var r := s.tasks[id];
      s.(tasks := s.tasks[id := r.(status := Running, claimedBy := Some(daemon),
                                   leaseExpiresAt := Some(now + leaseSeconds), attempts := r.attempts + 1)])
  }

  predicate Stale(r: Row, now: int) {
    r.status == Running && r.leaseExpiresAt.Some? && r.leaseExpiresAt.value < now
  }

  function RecoverRow(r: Row, maxAttempts: int): Row {
    if r.attempts >= maxAttempts
    then r.(status := Failed, gate := Some(GateIncomplete), claimedBy := None, leaseExpiresAt := None)
    else r.(status := Queued, claimedBy := None, leaseExpiresAt := None)
  }

  function Recover(s: Tables, maxAttempts: int, now: int): Tables {
    s.(tasks := map id | id in s.tasks ::
         if Stale(s.tasks[id], now) then RecoverRow(s.tasks[id], maxAttempts) else s.tasks[id])
  }

  function Requeue(s: Tables, id: TaskId): Tables {
    if id !in s.tasks then s
    else Tables(s.tasks[id := s.tasks[id].(status := Queued, gate := None, claimedBy := None, leaseExpiresAt := None)],
               AcknowledgeAll(s.controls, id))
  }

  /** `update_task_outcome`: no guard on the previous status, and the callback is re-armed. */
  function Outcome(s: Tables, id: TaskId, status: Status, gate: Gate, now: int): Tables {
    if id !in s.tasks then s
    else
      var r := s.tasks[id];
      s.(tasks := s.tasks[id := r.(status := status, gate := Some(gate), callback := ArmedCallback(r, now))])
  }

  function ArmedCallback(r: Row, now: int): Callback {
    if r.hasTarget then r.callback.(state := Some(Retrying), attempts := 0, nextRetryAt := Some(now))
    else r.callback.(state := Some(NoTarget), attempts := 0, nextRetryAt := None)
  }

  // -------------------------------------------------------------- control steps

  function RequestControl(s: Tables, id: TaskId, action: Action): Tables {
    if id !in s.tasks then s  // foreign key violation
    else s.(controls := s.controls + [Control(id, action, false)])
  }

  function Acknowledge(controls: seq<Control>, id: TaskId, onlyStop: bool): (r: seq<Control>)
    ensures |r| == |controls|
    ensures forall i :: 0 <= i < |r| ==>
      r[i] == (if controls[i].task == id && (onlyStop ==> controls[i].action == StopTask)
               then controls[i].(acknowledged := true) else controls[i])
  {
    if controls == [] then []
    else
      var c := controls[0];
      [if c.task == id && (onlyStop ==> c.action == StopTask) then c.(acknowledged := true) else c]
      + Acknowledge(controls[1..], id, onlyStop)
  }

  function AcknowledgeAll(controls: seq<Control>, id: TaskId): seq<Control> { Acknowledge(controls, id, false) }

  /** The second transaction of `cancel_task`. */
  function CancelRow(s: Tables, id: TaskId): Tables {
    if id !in s.tasks then s
    else Tables(s.tasks[id := s.tasks[id].(status := Cancelled, gate := Some(GateCancelled),
                                          claimedBy := None, leaseExpiresAt := None)],
               AcknowledgeAll(s.controls, id))
  }

  /** `mark_task_stopped` acknowledges stop requests only. */
  function MarkStopped(s: Tables, id: TaskId): Tables {
    if id !in s.tasks then s
    else Tables(s.tasks[id := s.tasks[id].(status := Cancelled, gate := Some(GateStopped),
                                          claimedBy := None, leaseExpiresAt := None)],
               Acknowledge(s.controls, id, true))
  }

  /** The latest unacknowledged request for the task. */
  function CheckTaskControl(controls: seq<Control>, id: TaskId): (r: Option<Action>)
    ensures r.Some? <==> exists i :: 0 <= i < |controls| && controls[i].task == id && !controls[i].acknowledged
  {
    if controls == [] then None
    else
      var last := controls[|controls| - 1];
      if last.task == id && !last.acknowledged then Some(last.action)
      else
        var rest := controls[..|controls| - 1];
        assert forall i :: 0 <= i < |rest| ==> rest[i] == controls[i];
        CheckTaskControl(rest, id)
  }

  /** Request number `i` is for the task and open, and every later one for it is acknowledged. */
  ghost predicate LatestOpen(controls: seq<Control>, id: TaskId, action: Action, i: int) {
    && 0 <= i < |controls| && controls[i] == Control(id, action, false)
    && forall j :: i < j < |controls| && controls[j].task == id ==> controls[j].acknowledged
  }

  lemma {:induction false} CheckSeesTheLatestOpen(controls: seq<Control>, id: TaskId, action: Action)
    ensures CheckTaskControl(controls, id) == Some(action) <==> exists i :: LatestOpen(controls, id, action, i)
  {
    if controls != [] {
      var n := |controls| - 1;
      var rest, last := controls[..n], controls[n];
      if last.task == id && !last.acknowledged {
        if last.action == action {
          assert LatestOpen(controls, id, action, n);
        }
      } else {
        CheckSeesTheLatestOpen(rest, id, action);
        if i :| LatestOpen(rest, id, action, i) {
          assert LatestOpen(controls, id, action, i);
        }
        if i :| LatestOpen(controls, id, action, i) {
          assert LatestOpen(rest, id, action, i);
        }
      }
    }
  }

  /** What `_raise_if_task_control_requested` raises, if it raises. */
  function ObservedControl(s: Tables, id: TaskId): Option<Action> {
    if id in s.tasks && s.tasks[id].status == Cancelled then
      Some(if s.tasks[id].gate == Some(GateStopped) then StopTask else CancelTask)
    else CheckTaskControl(s.controls, id)
  }

  // ------------------------------------------------------------- callback steps

  predicate CallbackDue(r: Row, now: int) {
    r.callback.state == Some(Retrying) && (r.callback.nextRetryAt == None || r.callback.nextRetryAt.value <= now)
  }

  /** Pending retries first by due time; a missing time sorts first. */
  predicate DueBefore(r: Row, q: Row) {
    match (r.callback.nextRetryAt, q.callback.nextRetryAt)
    case (None, Some(_)) => true
    case (Some(a), Some(b)) => a < b
    case _ => false
  }

  /** The delay scheduled after the `attempts`-th failure. */
  function RetryDelay(cfg: Settings, attempts: int): int {
    Min(cfg.initialDelay * Pow2(Max(0, attempts - 1)), cfg.maxDelay)
  }

  /** Whether `_send_callback` reaches `callback_client.send`. */
  predicate CallsClient(s: Tables, id: TaskId, digest: string, result: SendResult) {
    && id in s.tasks
    && s.tasks[id].hasTarget
    && !AlreadyAcknowledged(s.tasks[id], digest)
    && !result.BrokenBeforeSend?
  }

  /** How many POSTs a client call makes: at most one more than its retries, and all of them before it gives up. */
  predicate PostsMade(retryTimes: int, result: SendResult) {
    match result
    case Acknowledged(posts) => 1 <= posts <= retryTimes + 1
    case Refused(posts) => posts == Max(0, retryTimes + 1)
    case BrokenBeforeSend => true
  }

  predicate AlreadyAcknowledged(r: Row, digest: string) {
    r.callback.state == Some(Succeeded) && r.callback.digest == Some(digest)
  }

  function FailedCallback(cfg: Settings, c: Callback, now: int): Callback {
    var attempts := c.attempts + 1;
    if attempts >= cfg.maxCallbackAttempts then c.(state := Some(Exhausted), attempts := attempts, nextRetryAt := None)
    else c.(state := Some(Retrying), attempts := attempts, nextRetryAt := Some(now + RetryDelay(cfg, attempts)))
  }

  /** The callback columns after `_send_callback`. */
  function SentCallback(cfg: Settings, r: Row, digest: string, result: SendResult, now: int): Callback {
    if result.BrokenBeforeSend? then FailedCallback(cfg, r.callback, now)
    else if !r.hasTarget then r.callback.(state := Some(NoTarget), nextRetryAt := None)
    else if AlreadyAcknowledged(r, digest) then r.callback
    else if result.Refused? then FailedCallback(cfg, r.callback, now)
    else Callback(Some(Succeeded), r.callback.attempts + 1, None, Some(digest))
  }

  function SendCallback(s: Tables, cfg: Settings, id: TaskId, digest: string, result: SendResult, now: int): Tables {
    if id !in s.tasks then s
    else s.(tasks := s.tasks[id := s.tasks[id].(callback := SentCallback(cfg, s.tasks[id], digest, result, now))])
  }
}
