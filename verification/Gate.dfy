/** What the end of a workflow run means, for every run that `Workflow.Run` can produce. */
module Gate {
  import opened Basics
  import opened Store
  import opened Risk
  import opened Workflow
  import Judge
  import JudgeProofs
  import Regroup

  ghost function Ending(log: Log): Write
    requires log != [] && log[|log| - 1].Wrote?
  {
    log[|log| - 1].write
  }

  /** Every reviewer of the plan came to a good end. */
  ghost predicate ReviewersGood(env: Env) {
    forall i: nat :: i < Reviewers(env) ==> Good(env.sessions(i).turn)
  }

  /** Every finding the judge reported is rejected on its own account. */
  ghost predicate AllRejected(env: Env)
    requires Good(env.judge)
  {
    var items := env.judge.payload.value;
    forall i :: 0 <= i < |items| ==> Judge.RejectionReason(items[i].candidate, env.changed).Some?
  }

  /** The outcome that the change, the turns and the judge's findings call for. */
  ghost function Decision(env: Env): Write {
    if Production(env.files) == [] then Finish(Success, GateSkipped)
    else if env.truncated then Finish(Failed, GateContextTooLarge)
    else if !ReviewersGood(env) || !Good(env.judge) || NormalizerRaises(env) then Finish(Failed, GateIncomplete)
    else if AllRejected(env) then Finish(Success, GatePassed)
    else Finish(Success, GateFailed)
  }

  /** Nobody asks to stop or cancel. */
  ghost predicate NoRequests(env: Env) {
    (forall k: nat :: env.control(k).None?)
    && forall i: nat :: env.sessions(i).first.None? && env.sessions(i).second.None? && env.sessions(i).third.None?
  }

  /** No operation fails besides the model turns. */
  ghost predicate NothingBreaks(env: Env) {
    env.broken == {} && forall i: nat :: !Breaks(env.sessions(i))
  }

  lemma PlanSize(env: Env, plan: seq<PlanItem>)
    requires Planned(env, plan) && plan != []
    ensures |plan| == Reviewers(env)
  {
    var risk :| TierMeans(risk, env.files, env.triggers, env.diffBytes, env.truncated) && plan == PlanReviewers(risk);
    EveryPlannedReviewerIsRequired(risk, env.files, env.triggers, env.diffBytes, env.truncated);
  }

  /** The gate of a verdict does not depend on how the judge's findings were grouped. */
  lemma VerdictGate(env: Env, v: Judge.Verdict)
    requires JudgedAs(env, v)
    ensures !NormalizerRaises(env) && (v.accepted == [] <==> AllRejected(env))
  {
    var items := env.judge.payload.value;
    var outputs :| Regroup.Regrouped(items, outputs) && Judge.Judged(Judge.Flatten(outputs), env.changed) == Ok(v);
    Regroup.RegroupingKeepsTheGate(items, outputs, env.changed);
    JudgeProofs.NothingAcceptedIffAllRejected(items, env.changed);
  }

  lemma ReviewedGate(env: Env, log: Log, v: Judge.Verdict)
    requires FullyReviewed(env, log, v)
    ensures Decision(env) == if v.accepted == [] then Finish(Success, GatePassed) else Finish(Success, GateFailed)
    ensures forall i: nat :: i < Reviewers(env) ==> Reviewed(i, env.sessions(i).turn) in log
  {
    var plan :| Planned(env, plan) && plan != [] && (forall item :: item in plan ==> item.required)
      && AllReviewed(plan, env, log);
    PlanSize(env, plan);
    VerdictGate(env, v);
  }

  /**
     Whatever is requested and whatever fails, an outcome other than incomplete is the one that is
     called for: passed only if all required reviewers and the judge came to good ends and every
     finding is rejected, failed only if some finding stands, skipped only without production files.
   */
  lemma OutcomeIsTheDecision(env: Env, log: Log)
    requires Complete(env, log) && Ending(log).Finish? && Ending(log).gate != GateIncomplete
    ensures Ending(log) == Decision(env)
  {
    var w := Ending(log);
    if w.status == Success && (w.gate == GatePassed || w.gate == GateFailed) {
      var v :| FullyReviewed(env, log, v) && (v.accepted == [] <==> w.gate == GatePassed);
      ReviewedGate(env, log, v);
    }
  }

  /**
     A failed gate stores at least one finding, and each stored finding is one that the judge reported
     and that is not rejected.
   */
  lemma StoredFindingsWereReported(env: Env, log: Log)
    requires Complete(env, log) && Ending(log) == Finish(Success, GateFailed)
    ensures Findings(log) != []
    ensures forall e ::
      e in Findings(log) ==>
          exists item :: item in env.judge.payload.value && Judge.Survivor(item, env.changed) == Some(e)
  {
    var v :| FullyReviewed(env, log, v) && v.accepted != [];
    var items := env.judge.payload.value;
    var outputs :| Regroup.Regrouped(items, outputs) && Judge.Judged(Judge.Flatten(outputs), env.changed) == Ok(v);
    var flat := Judge.Flatten(outputs);
    forall e | e in v.accepted ensures exists item :: item in items && Judge.Survivor(item, env.changed) == Some(e) {
      AcceptedIsASurvivor(flat, env.changed, v, e);
      var i :| 0 <= i < |flat| && Judge.Survivor(flat[i], env.changed) == Some(e);
      JudgeProofs.SameElements(flat, items);
      assert flat[i] in flat;
    }
  }

  lemma AcceptedIsASurvivor(items: seq<Judge.Item>, changed: Judge.ChangedLines, v: Judge.Verdict, e: Judge.Entry)
    requires Judge.Judged(items, changed) == Ok(v) && e in v.accepted
    ensures exists i :: 0 <= i < |items| && Judge.Survivor(items[i], changed) == Some(e)
  {
    JudgeProofs.FoldIsGroupBy(items, changed);
    var all := JudgeProofs.Survivors(items, changed);
    var k :| 0 <= k < |v.accepted| && v.accepted[k] == e;
    JudgeProofs.GroupByPositions(all, v.accepted);
    JudgeProofs.BestIsStrongest(all, e.key);
    JudgeProofs.SurvivorsAre(items, changed, e);
  }

  /** Left alone, a run ends with exactly the outcome that is called for, incomplete included. */
  lemma UndisturbedRunIsDecided(env: Env, log: Log)
    requires Complete(env, log) && NoRequests(env) && NothingBreaks(env)
    ensures Ending(log) == Decision(env)
  {
    var w := Ending(log);
    NoRequestsNoInterruption(env, log);
    if w.Finish? && w.gate == GateIncomplete {
      if e :| e in log && WentWrong(e) {
        assert Met(env, e);
      }
    } else {
      OutcomeIsTheDecision(env, log);
    }
  }

  /**
     A run ends cancelled or stopped exactly if one of its own checks saw a request, and with the write
     of a request that was seen.
   */
  lemma CancelledIffSeen(env: Env, log: Log)
    requires Complete(env, log)
    ensures !Ending(log).Finish? <==> exists e :: e in log && SeesRequest(e)
    ensures Ending(log) == Cancel ==> Check(Some(CancelTask)) in log
    ensures Ending(log) == Stop ==> Check(Some(StopTask)) in log
  {
    if !Ending(log).Finish? {
      assert SeesRequest(Check(Some(if Ending(log) == Cancel then CancelTask else StopTask)));
    }
  }

  /** Some event of the log needs this many checks. */
  lemma NeededIsCleared(env: Env, log: Log, e: Event)
    requires Complete(env, log) && e in log
    ensures ClearedUpTo(env, Needed(|Findings(log)|, e))
  {
  }

  lemma {:induction false} FindingsAreCreated(log: Log)
    ensures Findings(log) != [] ==> exists e :: e in log && e.Created?
  {
    if Findings(log) != [] && !log[|log| - 1].Created? {
      FindingsAreCreated(log[..|log| - 1]);
      var e :| e in log[..|log| - 1] && e.Created?;
      assert e in log;
    }
  }

  /**
     What a run makes, it makes only if every check that comes before is answered with none, by what
     the checks of the main path are answered, in their order, and those of the sessions.
   */
  lemma NothingWithoutItsChecks(env: Env, log: Log, j: nat)
    requires Complete(env, log)
    ensures Ending(log) == Finish(Success, GatePassed) || Ending(log) == Finish(Success, GateFailed) ==>
      (j <= 6 + |Findings(log)| ==> env.control(j).None?) && AllSeeNothing(env, Reviewers(env))
    ensures j < |Findings(log)| ==> env.control(6 + j).None?
    ensures Findings(log) != [] && j <= 5 ==> env.control(j).None?
    ensures SomeJudged(log) ==> (j <= 4 ==> env.control(j).None?) && AllSeeNothing(env, Reviewers(env))
    ensures SomeReviewed(log) && j <= 3 ==> env.control(j).None?
    ensures Ending(log) == Finish(Success, GateSkipped) || Ending(log) == Finish(Failed, GateContextTooLarge) ==>
      (j <= 2 ==> env.control(j).None?)
  {
    NeededIsCleared(env, log, log[|log| - 1]);
    if Findings(log) != [] {
      FindingsAreCreated(log);
      var e :| e in log && e.Created?;
      NeededIsCleared(env, log, e);
    }
    if e :| e in log && e.JudgeTurn? {
      NeededIsCleared(env, log, e);
    }
    if e :| e in log && e.Reviewed? {
      NeededIsCleared(env, log, e);
    }
  }

  /** Every check that a run with `stored` findings comes to is answered with none if no operation fails. */
  ghost predicate Unasked(env: Env, stored: nat) {
    && (forall j: nat :: j <= LastCheck(env, Reviewers(env), stored) ==> env.control(j).None?)
    && (Reviewable(env) ==> AllSeeNothing(env, Reviewers(env)))
  }

  /**
     Where no operation fails, whatever the turns come to, a run ends cancelled or stopped exactly if
     one of the checks that it comes to is told so.
   */
  lemma RequestsAreObeyed(env: Env, log: Log)
    requires Complete(env, log) && NothingBreaks(env)
    ensures Ending(log).Finish? <==> Unasked(env, |Findings(log)|)
    ensures !Ending(log).Finish? ==> AskedFor(env, Reviewers(env), |Findings(log)|, RequestBehind(Ending(log)).value)
  {
    if Ending(log) == Finish(Failed, GateIncomplete) {
      IncompleteIsUnasked(env, log);
    } else if Ending(log).Finish? {
      var stored := |Findings(log)|;
      forall j: nat | j <= LastCheck(env, Reviewers(env), stored) ensures env.control(j).None? {
        NothingWithoutItsChecks(env, log, j);
      }
      NothingWithoutItsChecks(env, log, 0);
    }
  }

  lemma IncompleteIsUnasked(env: Env, log: Log)
    requires Complete(env, log) && NothingBreaks(env) && Ending(log) == Finish(Failed, GateIncomplete)
    ensures Unasked(env, |Findings(log)|)
  {
    var e: Event;
    if NormalizerRaised(env, log) {
      e := JudgeTurn(env.judge);
    } else {
      e :| e in log && WentWrong(e);
    }
    assert Met(env, e);
    NeededIsCleared(env, log, e);
  }

  /**
     Once a check anywhere in the run saw a request, no judge turn starts, no finding is stored and no
     outcome of a review is written.
   */
  lemma NothingAfterARequest(env: Env, log: Log, i: nat, j: nat)
    requires Complete(env, log) && i < j < |log| && Observes(log[i])
    ensures !log[j].JudgeTurn? && !log[j].Created?
    ensures log[j].Wrote? ==> j == |log| - 1 && log[j].write in {Cancel, Stop, Finish(Failed, GateIncomplete)}
  {
    if log[j].Wrote? {
      forall k | 0 <= k < |log| - 1 ensures !log[k].Wrote? {
        assert log[k] in log[..|log| - 1];
      }
      assert log[i] in log;
      assert Ending(log).Finish? ==> !(Ending(log).gate == GateContextTooLarge) by {
        assert log[i].Check? || !NoTurns(log);
      }
    }
  }

  /** The checks that still follow a turn that polled a request are answered with none. */
  ghost predicate Withdrawn(env: Env, polled: Event) {
    if polled.JudgeTurn? then env.control(5).None? else AllSeeNothing(env, Reviewers(env)) && env.control(4).None?
  }

  /**
     A run whose turn polled a request ends incomplete exactly if the request was withdrawn before the
     next checks: those of all sessions and the one after the fan-out for a reviewer's turn, the one
     after the turn for the judge's. Otherwise it ends cancelled or stopped.
   */
  lemma PolledRequest(env: Env, log: Log, i: nat)
    requires env.Valid() && Complete(env, log) && i < |log| && Observes(log[i]) && !log[i].Check?
    ensures Ending(log) == Finish(Failed, GateIncomplete) <==> Withdrawn(env, log[i])
    ensures Ending(log) in {Cancel, Stop} <==> !Withdrawn(env, log[i])
  {
    assert i < |log| - 1;
    assert log[i] in log && Met(env, log[i]);
    NothingAfterARequest(env, log, i, |log| - 1);
    CancelledIffSeen(env, log);
    if log[i].Reviewed? {
      PolledReviewerStopsBeforeTheJudge(env, log, i);
    }
  }

  lemma PolledReviewerStopsBeforeTheJudge(env: Env, log: Log, i: nat)
    requires env.Valid() && Complete(env, log) && i < |log| && log[i].Reviewed? && log[i].turn.observed
    ensures SomeReviewed(log) && !SomeJudged(log)
  {
    assert log[i] in log && Met(env, log[i]);
  }

  /**
     A request that is withdrawn between the poll and the next check leaves a task that is incomplete,
     not cancelled.
   */
  method PolledRequestWithdrawn() returns (log: Log)
    ensures exists e :: e in log && Observes(e)
    ensures log != [] && log[|log| - 1] == Wrote(Finish(Failed, GateIncomplete))
  {
    var cancelled := Turn(true, false, false, true, None);
    var session := Session(None, false, cancelled, None, false, None);
    var env := Env(_ => None, {}, [FileSummary("a.py", 1, true, false, false, false)], _ => {}, 10, false,
                   _ => session, [], [], Turn(false, false, true, true, Some([])), map[]);
    var r := Run(true, env);
    log := r.value;
    assert !ReviewersGood(env) by {
      assert !Good(env.sessions(0).turn);
    }
    UndisturbedRunIsDecided(env, log);
    var e :| e in log && WentWrong(e);
    assert Met(env, e);
  }

  // -------------------------------------------------------------- effect on rows

  /** The task tables after the last write of a run; cancelling first records a request of its own. */
  function Written(s: Tables, id: TaskId, w: Write, now: int): Tables {
    match w
    case Finish(status, gate) => Outcome(s, id, status, gate, now)
    case Cancel => CancelRow(RequestControl(s, id, CancelTask), id)
    case Stop => MarkStopped(s, id)
  }

  /**
     Whatever happened to the row meanwhile, the run leaves its task in a terminal status, with the gate
     it stands for.
   */
  lemma RunLeavesTaskTerminal(env: Env, log: Log, s: Tables, id: TaskId, now: int)
    requires Complete(env, log) && id in s.tasks
    ensures var w := Ending(log);
      var row := Written(s, id, w, now).tasks[id];
      && row.status in {Success, Failed, Cancelled} && row.gate.Some?
      && (w.Cancel? ==>
            && row.status == Cancelled
            && row.gate == Some(GateCancelled)
            && ObservedControl(Written(s, id, w, now), id) == Some(CancelTask))
      && (w.Stop? ==>
            && row.status == Cancelled
            && row.gate == Some(GateStopped)
            && ObservedControl(Written(s, id, w, now), id) == Some(StopTask))
      && (w.Finish? ==> row.status == w.status && row.gate == Some(w.gate) && row.attempts == s.tasks[id].attempts)
  {
  }

  lemma NoRequestsNoInterruption(env: Env, log: Log)
    requires Faithful(env, log) && NoRequests(env)
    ensures Quiet(log)
  {
    forall e | e in log ensures !SeesRequest(e) {
      assert Met(env, e);
    }
  }
}
