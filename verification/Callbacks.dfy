/** The HTTP callback client and the daemon that drives it. */
module Callbacks {
  import opened Basics
  import opened Store
  import opened Database

  /** One POST: a status code, or an exception. */
  datatype Response = Status(code: int) | NetworkError

  datatype Entry = Entry(attempt: int, response: Response)

  predicate Acked(r: Response) { r.Status? && 200 <= r.code < 300 }

  class CallbackClient {
    const retryTimes: int

    constructor (retryTimes: int)
      ensures this.retryTimes == retryTimes
    {
      this.retryTimes := retryTimes;
    }

    /** `responses(k)` is the answer the k-th POST would get, counting from 0. */
    method Send(responses: nat -> Response) returns (r: Result<seq<Entry>>, posts: nat)
      ensures r.Ok? <==> exists k :: 0 <= k <= retryTimes && Acked(responses(k))
      ensures r.Ok? ==>
        && 1 <= posts <= retryTimes + 1
        && r.value == seq(posts, k requires 0 <= k => Entry(k + 1, responses(k)))
        && Acked(responses(posts - 1))
        && forall k :: 0 <= k < posts - 1 ==> !Acked(responses(k))
      ensures r.Raised? ==> posts == Max(0, retryTimes + 1)
    {
      var history := [];
      var attempt := 1;
      while attempt < retryTimes + 2
        invariant 1 <= attempt <= Max(1, retryTimes + 2)
        invariant history == seq(attempt - 1, k requires 0 <= k => Entry(k + 1, responses(k)))
        invariant forall k :: 0 <= k < attempt - 1 ==> !Acked(responses(k))
      {
        var response := responses(attempt - 1);
        history := history + [Entry(attempt, response)];
        if response.Status? && 200 <= response.code < 300 {
          return Ok(history), |history|;
        }
        attempt := attempt + 1;
      }
      return Raised, |history|;
    }
  }

  /** What building the record and the payload of a callback comes to. */
  datatype Payload = RecordRaises | PayloadRaises | Payload(digest: string)

  /** The tables after the daemon has sent the callbacks in `due` one after the other. */
  function SentAll(db: Tables, cfg: Settings, due: seq<TaskId>, sent: seq<(string, SendResult)>, clock: nat -> int)
      : Tables
    requires |due| == |sent|
  {
    if due == [] then db
    else
      var n := |due| - 1;
      SendCallback(SentAll(db, cfg, due[..n], sent[..n], clock), cfg, due[n], sent[n].0, sent[n].1, clock(n))
  }

  lemma SentAllStep(db: Tables, cfg: Settings, due: seq<TaskId>, sent: seq<(string, SendResult)>,
      last: (string, SendResult), clock: nat -> int)
    requires |sent| < |due|
    ensures var n := |sent|;
      SentAll(db, cfg, due[..n + 1], sent + [last], clock)
        == SendCallback(SentAll(db, cfg, due[..n], sent, clock), cfg, due[n], last.0, last.1, clock(n))
  {
    var n := |sent|;
    assert due[..n + 1][..n] == due[..n] && (sent + [last])[..n] == sent;
  }

  /** The daemon is through with the callback. */
  predicate Done(db: Tables, id: TaskId) {
    id in db.tasks && db.tasks[id].callback.state in {Some(Succeeded), Some(NoTarget)}
  }

  lemma SendTouchesOneRow(db: Tables, cfg: Settings, id: TaskId, digest: string, result: SendResult, now: int,
    q: TaskId)
    requires q != id
    ensures Done(SendCallback(db, cfg, id, digest, result, now), q) == Done(db, q)
  {
  }

  class Daemon {
    const db: ReviewDB
    const cfg: Settings
    const client: CallbackClient

    constructor (db: ReviewDB, cfg: Settings)
      ensures this.db == db && this.cfg == cfg && client.retryTimes == cfg.callbackRetryTimes
    {
      this.db := db;
      this.cfg := cfg;
      client := new CallbackClient(cfg.callbackRetryTimes);
    }

    /** One more attempt is counted; the last one allowed ends the retries, another one is scheduled with its delay. */
    predicate CountsAsFailure(before: Callback, after: Callback, now: int) {
      && after.attempts == before.attempts + 1 && after.digest == before.digest
      && after.state == Some(if after.attempts >= cfg.maxCallbackAttempts then Exhausted else Retrying)
      && (after.state == Some(Exhausted) ==> after.nextRetryAt == None)
      && (after.state == Some(Retrying) ==> after.nextRetryAt == Some(now + RetryDelay(cfg, after.attempts)))
    }

    /**
       What becomes of the row, told by the payload and the answers: a row without target needs nothing,
       a payload already acknowledged is not sent again, an acknowledged POST succeeds, the rest fails.
     */
    ghost predicate Settled(before: Row, payload: Payload, responses: nat -> Response, now: int, after: Row) {
      && after == before.(callback := after.callback)
      && var c, c' := before.callback, after.callback;
         if payload.RecordRaises? then CountsAsFailure(c, c', now)
         else if !before.hasTarget then c' == Callback(Some(NoTarget), c.attempts, None, c.digest)
         else if payload.PayloadRaises? then CountsAsFailure(c, c', now)
         else if c.state == Some(Succeeded) && c.digest == Some(payload.digest) then c' == c
         else if exists k :: 0 <= k <= cfg.callbackRetryTimes && Acked(responses(k))
         then c' == Callback(Some(Succeeded), c.attempts + 1, None, Some(payload.digest))
         else CountsAsFailure(c, c', now)
    }

    method RecordCallbackFailure(id: TaskId, now: int)
      requires id in db.tasks
      modifies db
      ensures db.controls == old(db.controls)
      ensures db.tasks == old(db.tasks)[id :=
        old(db.tasks)[id].(callback := FailedCallback(cfg, old(db.tasks)[id].callback, now))]
      ensures CountsAsFailure(old(db.tasks)[id].callback, db.tasks[id].callback, now)
    {
      var c := db.tasks[id].callback;
      var attempts := c.attempts + 1;
      if attempts >= cfg.maxCallbackAttempts {
        db.SetCallbackState(id, Exhausted, attempts, None, None);
      } else {
        var delay := RetryDelay(cfg, attempts);
        db.SetCallbackState(id, Retrying, attempts, Some(now + delay), None);
      }
    }

    /** `done` tells whether the callback needs no further attempt. */
    method SendCallbackFor(id: TaskId, payload: Payload, responses: nat -> Response, now: int)
      returns (done: bool, digest: string, result: SendResult)
      requires client.retryTimes == cfg.callbackRetryTimes
      modifies db
      ensures db.Snapshot() == SendCallback(old(db.Snapshot()), cfg, id, digest, result, now)
      ensures CallsClient(old(db.Snapshot()), id, digest, result) ==> PostsMade(cfg.callbackRetryTimes, result)
      ensures done <==> Done(db.Snapshot(), id)
      ensures db.tasks.Keys == old(db.tasks).Keys
      ensures forall q :: q in db.tasks && q != id ==> db.tasks[q] == old(db.tasks)[q]
      ensures id in db.tasks ==> Settled(old(db.tasks)[id], payload, responses, now, db.tasks[id])
    {
      digest, result := "", BrokenBeforeSend;
      if id !in db.tasks {
        return false, digest, result;
      }
      var task := db.tasks[id];
      if payload.RecordRaises? {
        RecordCallbackFailure(id, now);
        return false, digest, result;
      }
      if !task.hasTarget {
        db.SetCallbackState(id, NoTarget, task.callback.attempts, None, None);
        return true, digest, Refused(0);
      }
      if payload.PayloadRaises? {
        RecordCallbackFailure(id, now);
        return false, digest, result;
      }
      digest := payload.digest;
      if task.callback.state == Some(Succeeded) && task.callback.digest == Some(digest) {
        return true, digest, Refused(0);
      }
      var answer, posts := client.Send(responses);
      if answer.Ok? {
        db.SetCallbackState(id, Succeeded, task.callback.attempts + 1, None, Some(digest));
        return true, digest, Acknowledged(posts);
      }
      RecordCallbackFailure(id, now);
      return false, digest, Refused(posts);
    }

    lemma OthersStayDone(s: Tables, cfg: Settings, due: seq<TaskId>, i: nat, digest: string, result: SendResult,
        now: int)
      requires i < |due| && Distinct(due)
      ensures forall q :: q in due[..i] ==> Done(SendCallback(s, cfg, due[i], digest, result, now), q) == Done(s, q)
      ensures forall q :: q in due[..i + 1] <==> q in due[..i] || q == due[i]
    {
      forall q | q in due[..i] ensures Done(SendCallback(s, cfg, due[i], digest, result, now), q) == Done(s, q) {
        SendTouchesOneRow(s, cfg, due[i], digest, result, now, q);
      }
      assert due[..i + 1] == due[..i] + [due[i]];
    }

    /** Lists the due callbacks once, then sends each of them; `completed` are those that need no further attempt. */
    method RetryCallbacks(limit: nat, now: int, payloads: nat -> Payload, responses: nat -> nat -> Response,
        clock: nat -> int)
      returns (due: seq<TaskId>, sent: seq<(string, SendResult)>, completed: seq<TaskId>)
      requires client.retryTimes == cfg.callbackRetryTimes
      modifies db
      ensures |sent| == |due| <= limit && Distinct(due)
      ensures forall id :: id in due ==> id in old(db.tasks) && CallbackDue(old(db.tasks)[id], now)
      ensures db.Snapshot() == SentAll(old(db.Snapshot()), cfg, due, sent, clock)
      ensures forall id :: id in completed <==> id in due && Done(db.Snapshot(), id)
    {
      due := db.DueCallbackTasks(limit, now);
      sent, completed := [], [];
      ghost var before := db.Snapshot();
      while |sent| < |due|
        invariant |sent| <= |due|
        invariant db.Snapshot() == SentAll(before, cfg, due[..|sent|], sent, clock)
        invariant forall id :: id in completed <==> id in due[..|sent|] && Done(db.Snapshot(), id)
      {
        var i := |sent|;
        ghost var current := db.Snapshot();
        var done, digest, result := SendCallbackFor(due[i], payloads(i), responses(i), clock(i));
        SentAllStep(before, cfg, due, sent, (digest, result), clock);
        OthersStayDone(current, cfg, due, i, digest, result, clock(i));
        sent := sent + [(digest, result)];
        if done {
          completed := completed + [due[i]];
        }
      }
      assert due[..|sent|] == due;
    }
  }
}
