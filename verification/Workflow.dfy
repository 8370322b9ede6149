/**
 One run of the review workflow, over arbitrary model turns, control requests and failing
 operations. The log records what the run does and sees, in order.
 */
module Workflow {
  import opened Basics
  import opened Store
  import opened Risk
  import Judge
  import Regroup

  /** The operations that may raise, apart from the model turns. */
  datatype Stage =
    | PrepareRepo | PrepareContext | CreatePlan | StartFanout | ReviewerStage(index: nat) | FinishFanout
    | StartJudge | FinishJudge | RecordJudge | WriteRejections | CreateFinding(position: nat) | WriteReport
      | WriteOutcome | SkipReport | EarlyOutcome

  /**
     What one model turn comes to. `observed`: a control check polled during the turn saw a request;
     the turn is then cancelled. `payload` is what its output parses to.
   */
  datatype Turn<+P> = Turn(observed: bool, raised: bool, completed: bool, hasSession: bool, payload: Option<P>)

  predicate Proper<P>(t: Turn<P>) { t.observed ==> t.raised || !t.completed }

  predicate Good<P>(t: Turn<P>) { !t.raised && t.completed && t.hasSession && t.payload.Some? }

  /** The last thing a run does to the task. */
  datatype Write = Finish(status: Status, gate: Gate) | Cancel | Stop

  datatype Event =
    | Check(seen: Option<Action>)
    | Broke(stage: Stage)
    | Reviewed(index: nat, turn: Turn<string>)
    | JudgeTurn(judgeTurn: Turn<seq<Judge.Item>>)
    | Created(entry: Judge.Entry)
    | Wrote(write: Write)

  type Log = seq<Event>

  /** What one reviewer's session meets: three control checks, the turn, and failures before and after it. */
  datatype Session = Session(first: Option<Action>, setupBreaks: bool, turn: Turn<string>, second: Option<Action>,
    recordBreaks: bool, third: Option<Action>)

  /**
     What a run meets. `control(k)` is what check number `k` of the main path sees; `schedule` says
     which reviewer's thread goes on next, and `completion` in which order reviewers end.
   */
  datatype Env = Env(
    control: nat -> Option<Action>, broken: set<Stage>,
    files: seq<FileSummary>, triggers: string -> set<Specialist>, diffBytes: int, truncated: bool,
    sessions: nat -> Session, schedule: seq<nat>, completion: seq<nat>,
    judge: Turn<seq<Judge.Item>>, changed: Judge.ChangedLines)
  {
    ghost predicate Valid() { Proper(judge) && forall i :: Proper(sessions(i).turn) }
  }

  predicate AsksIn(s: Session, seen: Option<Action>) { seen == s.first || seen == s.second || seen == s.third }

  /** The event is one the run could meet: what it saw, tried and got is what was there. */
  ghost predicate Met(env: Env, e: Event) {
    match e
    case Check(seen) =>
      seen.None? || (exists k: nat :: env.control(k) == seen) || exists i: nat :: AsksIn(env.sessions(i), seen)
    case Broke(stage) => stage in env.broken || (stage.ReviewerStage? && Breaks(env.sessions(stage.index)))
    case Reviewed(index, turn) => turn == env.sessions(index).turn
    case JudgeTurn(turn) => turn == env.judge
    case _ => true
  }

  predicate Breaks(s: Session) { s.setupBreaks || s.recordBreaks }

  ghost predicate Faithful(env: Env, log: Log) { forall e :: e in log ==> Met(env, e) }

  predicate SeesRequest(e: Event) { e.Check? && e.seen.Some? }

  /** A check of the run itself, or one polled during a turn, saw a stop or cancel request. */
  predicate Observes(e: Event)
  {
    SeesRequest(e) || (e.Reviewed? && e.turn.observed) || (e.JudgeTurn? && e.judgeTurn.observed)
  }

  /** What must not happen once a request was seen. */
  predicate Commits(e: Event)
  {
    e.JudgeTurn? || e.Created? || (e.Wrote? && e.write.Finish? && e.write.status == Success)
  }

  ghost predicate Quiet(log: Log) { forall e :: e in log ==> !SeesRequest(e) }

  ghost predicate Halts(log: Log) {
    forall i, j :: 0 <= i < j < |log| && Observes(log[i]) ==> !Commits(log[j])
  }

  ghost predicate Unobserved(log: Log) { forall e :: e in log ==> !Observes(e) }

  ghost predicate Harmless(log: Log) { forall e :: e in log ==> !Commits(e) }

  lemma HarmlessHalts(log: Log)
    requires Harmless(log)
    ensures Halts(log)
  {
  }

  lemma HaltsAppend(a: Log, b: Log)
    requires Halts(a) && Halts(b) && (Unobserved(a) || Harmless(b))
    ensures Halts(a + b)
  {
    forall i, j | 0 <= i < j < |a + b| && Observes((a + b)[i]) ensures !Commits((a + b)[j]) {
      if i < |a| {
        assert a[i] in a;
      }
      if j >= |a| {
        assert b[j - |a|] in b;
      }
    }
  }

  // ------------------------------------------------------------------- reviewers

  datatype End = Output(text: string) | NoOutput | ControlRaised(action: Action) | ReviewerFailed

  /** What a reviewer's events can be. */
  ghost predicate OfReviewer(index: nat, s: Session, e: Event) {
    (e.Check? && AsksIn(s, e.seen)) || (e == Broke(ReviewerStage(index)) && Breaks(s)) || e == Reviewed(index, s.turn)
  }

  /** How a reviewer's end follows from its events. */
  ghost predicate Explained(index: nat, required: bool, s: Session, log: Log, end: End) {
    && (forall e :: e in log ==> OfReviewer(index, s, e))
    && (Quiet(log) <==> SeesNothing(s))
    && (match end
        case ControlRaised(a) => log != [] && log[|log| - 1] == Check(Some(a)) && Quiet(log[..|log| - 1])
        case Output(text) => Quiet(log) && Reviewed(index, s.turn) in log && Good(s.turn)
          && s.turn.payload == Some(text)
        case NoOutput => Quiet(log) && !required && Reviewed(index, s.turn) in log && !Good(s.turn)
        case ReviewerFailed =>
            && Quiet(log)
            && (|| Broke(ReviewerStage(index)) in log
                || (Reviewed(index, s.turn) in log && !Good(s.turn) && (required || s.turn.raised))))
  }

  /** None of the checks that the session comes to make sees a request. */
  predicate SeesNothing(s: Session) {
    && s.first.None?
    && (s.setupBreaks
        || (s.second.None?
            && (s.recordBreaks || s.turn.raised || (s.turn.completed && s.turn.hasSession) || s.third.None?)))
  }

  method RunSingleReviewer(index: nat, required: bool, s: Session) returns (log: Log, end: End)
    ensures Explained(index, required, s, log, end)
  {
    log := [Check(s.first)];
    assert Check(s.first) in log;
    if s.first.Some? {
      return log, ControlRaised(s.first.value);
    }
    if s.setupBreaks {
      return log + [Broke(ReviewerStage(index))], ReviewerFailed;
    }
    log := log + [Reviewed(index, s.turn), Check(s.second)];
    assert Check(s.second) in log;
    if s.second.Some? {
      return log, ControlRaised(s.second.value);
    }
    if s.recordBreaks {
      return log + [Broke(ReviewerStage(index))], ReviewerFailed;
    }
    if s.turn.raised {
      return log, ReviewerFailed;
    }
    if !(s.turn.completed && s.turn.hasSession) {
      log := log + [Check(s.third)];
      assert Check(s.third) in log;
      if s.third.Some? {
        return log, ControlRaised(s.third.value);
      }
      if required {
        return log, ReviewerFailed;
      }
      return log, NoOutput;
    }
    if s.turn.payload.None? {
      if required {
        return log, ReviewerFailed;
      }
      return log, NoOutput;
    }
    return log, Output(s.turn.payload.value);
  }

  // --------------------------------------------------------------- interleavings

  /** The events that belong to thread `r`, in order. */
  ghost function Project(merged: Log, owner: seq<nat>, r: nat): Log
    requires |owner| == |merged|
  {
    if merged == [] then []
    else
      var n := |merged| - 1;
      Project(merged[..n], owner[..n], r) + (if owner[n] == r then [merged[n]] else [])
  }

  /** Each thread's events are all there, in their order. */
  ghost predicate Interleaving(merged: Log, owner: seq<nat>, logs: seq<Log>) {
    && |owner| == |merged| && (forall i :: 0 <= i < |owner| ==> owner[i] < |logs|)
    && (forall r: nat :: r < |logs| ==> Project(merged, owner, r) == logs[r])
  }

  lemma {:induction false} ProjectMembers(merged: Log, owner: seq<nat>, r: nat, e: Event)
    requires |owner| == |merged|
    ensures e in Project(merged, owner, r) <==> exists i :: 0 <= i < |merged| && owner[i] == r && merged[i] == e
  {
    if merged != [] {
      var n := |merged| - 1;
      ProjectMembers(merged[..n], owner[..n], r, e);
      if i :| 0 <= i < |merged| && owner[i] == r && merged[i] == e {
        if i < n {
          assert owner[..n][i] == r && merged[..n][i] == e;
        }
      }
    }
  }

  lemma MergedMembers(merged: Log, owner: seq<nat>, logs: seq<Log>, e: Event)
    requires Interleaving(merged, owner, logs)
    ensures e in merged <==> exists r :: 0 <= r < |logs| && e in logs[r]
  {
    if e in merged {
      var i :| 0 <= i < |merged| && merged[i] == e;
      ProjectMembers(merged, owner, owner[i], e);
      assert e in logs[owner[i]];
    }
    if r :| 0 <= r < |logs| && e in logs[r] {
      ProjectMembers(merged, owner, r, e);
    }
  }

  /** Thread `r` has run its first `next[r]` events. */
  ghost predicate PartlyMerged(merged: Log, owner: seq<nat>, logs: seq<Log>, next: seq<nat>) {
    && |owner| == |merged| && |next| == |logs| && (forall i :: 0 <= i < |owner| ==> owner[i] < |logs|)
    && (forall r: nat :: r < |logs| ==> next[r] <= |logs[r]| && Project(merged, owner, r) == logs[r][..next[r]])
  }

  lemma MergeOne(merged: Log, owner: seq<nat>, logs: seq<Log>, next: seq<nat>, r: nat)
    requires PartlyMerged(merged, owner, logs, next) && r < |logs| && next[r] < |logs[r]|
    ensures PartlyMerged(merged + [logs[r][next[r]]], owner + [r], logs, next[r := next[r] + 1])
  {
    var merged', owner' := merged + [logs[r][next[r]]], owner + [r];
    assert merged'[..|merged|] == merged && owner'[..|owner|] == owner;
    forall q: nat | q < |logs| ensures Project(merged', owner', q) == logs[q][..next[r := next[r] + 1][q]] {
      if q == r {
        assert logs[r][..next[r] + 1] == logs[r][..next[r]] + [logs[r][next[r]]];
      } else {
        assert Project(merged', owner', q) == Project(merged, owner, q) + [];
      }
    }
  }

  /** The threads' events as the schedule interleaves them; every interleaving has a schedule. */
  method Interleave(logs: seq<Log>, schedule: seq<nat>) returns (merged: Log, owner: seq<nat>)
    ensures Interleaving(merged, owner, logs)
  {
    var next: seq<nat> := seq(|logs|, _ => 0);
    merged, owner := [], [];
    for k := 0 to |schedule|
      invariant PartlyMerged(merged, owner, logs, next)
    {
      var r := schedule[k];
      if r < |logs| && next[r] < |logs[r]| {
        MergeOne(merged, owner, logs, next, r);
        merged, owner, next := merged + [logs[r][next[r]]], owner + [r], next[r := next[r] + 1];
      }
    }
    for r := 0 to |logs|
      invariant PartlyMerged(merged, owner, logs, next)
      invariant forall q :: 0 <= q < r ==> next[q] == |logs[q]|
    {
      while next[r] < |logs[r]|
        invariant PartlyMerged(merged, owner, logs, next)
        invariant forall q :: 0 <= q < r ==> next[q] == |logs[q]|
        decreases |logs[r]| - next[r]
      {
        MergeOne(merged, owner, logs, next, r);
        merged, owner, next := merged + [logs[r][next[r]]], owner + [r], next[r := next[r] + 1];
      }
    }
  }

  /** The order in which reviewers end: as hinted, and the others after. */
  method CompletionOrder(hint: seq<nat>, n: nat) returns (order: seq<nat>)
    ensures Distinct(order) && forall r :: r in order <==> 0 <= r < n
  {
    order := [];
    for k := 0 to |hint|
      invariant Distinct(order) && forall r :: r in order ==> 0 <= r < n
    {
      if hint[k] < n && hint[k] !in order {
        order := order + [hint[k]];
      }
    }
    for k := 0 to n
      invariant Distinct(order) && (forall r :: r in order ==> 0 <= r < n) && forall r :: 0 <= r < k ==> r in order
    {
      if k !in order {
        order := order + [k];
      }
    }
  }

  // ---------------------------------------------------------------------- fan-out

  /** The reviewer's own events, for some reviewer of the plan. */
  ghost predicate OfFanout(plan: seq<PlanItem>, env: Env, e: Event) {
    exists i: nat :: i < |plan| && OfReviewer(i, env.sessions(i), e)
  }

  /** Every reviewer's turn is in the log and gave findings. */
  ghost predicate AllReviewed(plan: seq<PlanItem>, env: Env, log: Log) {
    forall i: nat :: i < |plan| ==> Reviewed(i, env.sessions(i).turn) in log && Good(env.sessions(i).turn)
  }

  /** Something that is not a control request went wrong. */
  predicate WentWrong(e: Event) {
    e.Broke? || (e.Reviewed? && !Good(e.turn)) || (e.JudgeTurn? && !Good(e.judgeTurn))
  }

  ghost predicate AllSeeNothing(env: Env, n: nat) { forall i: nat :: i < n ==> SeesNothing(env.sessions(i)) }

  /** What the fan-out returns, in terms of what happened. */
  ghost predicate FannedOut(plan: seq<PlanItem>, env: Env, log: Log, failed: bool, control: Option<Action>) {
    && (forall e :: e in log ==> OfFanout(plan, env, e))
    && (control.None? <==> Quiet(log)) && (control.Some? ==> Check(control) in log)
    && (control.None? <==> AllSeeNothing(env, |plan|))
    && (failed ==> exists e :: e in log && WentWrong(e))
    && ((forall item :: item in plan ==> item.required) && !failed && control.None? ==> AllReviewed(plan, env, log))
  }

  ghost predicate AllExplained(plan: seq<PlanItem>, env: Env, logs: seq<Log>, ends: seq<End>)
  {
    |logs| == |ends| == |plan| && forall i: nat :: i < |plan| ==>
      Explained(i, plan[i].required, env.sessions(i), logs[i], ends[i])
  }

  /** The loop over the reviewers as they end. */
  method Collect(plan: seq<PlanItem>, ends: seq<End>, order: seq<nat>)
      returns (outputs: seq<string>, failed: bool, control: Option<Action>)
    requires |ends| == |plan| && (forall k :: 0 <= k < |order| ==> order[k] < |plan|) && forall r :: 0 <= r < |plan| ==>
      r in order
    ensures failed <==> exists r: nat :: r < |plan| && ends[r].ReviewerFailed? && plan[r].required
    ensures control.None? <==> forall r: nat :: r < |plan| ==> !ends[r].ControlRaised?
    ensures control.Some? ==> ControlRaised(control.value) in ends
    ensures (forall r: nat :: r < |plan| ==> ends[r].Output?) ==>
      |outputs| == |order| && forall k :: 0 <= k < |order| ==> ends[order[k]] == Output(outputs[k])
  {
    outputs, failed, control := [], false, None;
    for k := 0 to |order|
      invariant failed <==> exists j :: 0 <= j < k && ends[order[j]].ReviewerFailed? && plan[order[j]].required
      invariant control.None? <==> forall j :: 0 <= j < k ==> !ends[order[j]].ControlRaised?
      invariant control.Some? ==> ControlRaised(control.value) in ends
      invariant (forall r: nat :: r < |plan| ==> ends[r].Output?) ==>
        |outputs| == k && forall j :: 0 <= j < k ==> ends[order[j]] == Output(outputs[j])
    {
      var r := order[k];
      match ends[r]
      case ControlRaised(action) => control := Some(action);
      case ReviewerFailed => failed := failed || plan[r].required;
      case NoOutput =>
      case Output(text) => outputs := outputs + [text];
    }
    forall r: nat | r < |plan| && ends[r].ReviewerFailed? && plan[r].required ensures failed {
      assert r in order;
    }
    forall r: nat | r < |plan| && ends[r].ControlRaised? ensures control.Some? {
      assert r in order;
    }
  }

  lemma EndMeans(index: nat, required: bool, s: Session, log: Log, end: End)
    requires Explained(index, required, s, log, end)
    ensures end.ControlRaised? <==> !SeesNothing(s)
  {
    if end.ControlRaised? {
      assert log[|log| - 1] in log && SeesRequest(log[|log| - 1]);
    }
  }

  lemma MergedIsOfFanout(plan: seq<PlanItem>, env: Env, logs: seq<Log>, ends: seq<End>, log: Log, owner: seq<nat>)
    requires AllExplained(plan, env, logs, ends) && Interleaving(log, owner, logs)
    ensures forall e :: e in log ==> OfFanout(plan, env, e)
  {
    forall e | e in log ensures OfFanout(plan, env, e) {
      MergedMembers(log, owner, logs, e);
      var r :| 0 <= r < |logs| && e in logs[r];
      assert Explained(r, plan[r].required, env.sessions(r), logs[r], ends[r]);
    }
  }

  lemma MergedControl(plan: seq<PlanItem>, env: Env, logs: seq<Log>, ends: seq<End>, log: Log, owner: seq<nat>,
      control: Option<Action>)
    requires AllExplained(plan, env, logs, ends) && Interleaving(log, owner, logs)
    requires control.None? <==> forall r: nat :: r < |plan| ==> !ends[r].ControlRaised?
    requires control.Some? ==> ControlRaised(control.value) in ends
    ensures (control.None? <==> Quiet(log)) && (control.Some? ==> Check(control) in log)
    ensures control.None? <==> AllSeeNothing(env, |plan|)
  {
    forall r: nat | r < |plan| ensures ends[r].ControlRaised? <==> !SeesNothing(env.sessions(r)) {
      EndMeans(r, plan[r].required, env.sessions(r), logs[r], ends[r]);
    }
    if control.None? {
      forall e | e in log ensures !SeesRequest(e) {
        MergedMembers(log, owner, logs, e);
        var r :| 0 <= r < |logs| && e in logs[r];
        assert Explained(r, plan[r].required, env.sessions(r), logs[r], ends[r]);
      }
    } else {
      var r: nat :| r < |ends| && ends[r] == ControlRaised(control.value);
      assert Explained(r, plan[r].required, env.sessions(r), logs[r], ends[r]);
      assert Check(control) in logs[r];
      MergedMembers(log, owner, logs, Check(control));
      assert SeesRequest(Check(control));
    }
  }

  lemma MergedFailure(plan: seq<PlanItem>, env: Env, logs: seq<Log>, ends: seq<End>, log: Log, owner: seq<nat>, r: nat)
    requires AllExplained(plan, env, logs, ends) && Interleaving(log, owner, logs)
    requires r < |plan| && ends[r].ReviewerFailed?
    ensures exists e :: e in log && WentWrong(e)
  {
    assert Explained(r, plan[r].required, env.sessions(r), logs[r], ends[r]);
    var e := if Broke(ReviewerStage(r)) in logs[r] then Broke(ReviewerStage(r)) else Reviewed(r, env.sessions(r).turn);
    MergedMembers(log, owner, logs, e);
    assert e in log && WentWrong(e);
  }

  lemma CollectedIsFannedOut(plan: seq<PlanItem>, env: Env, logs: seq<Log>, ends: seq<End>, log: Log, owner: seq<nat>,
      failed: bool, control: Option<Action>)
    requires AllExplained(plan, env, logs, ends) && Interleaving(log, owner, logs)
    requires failed <==> exists r: nat :: r < |plan| && ends[r].ReviewerFailed? && plan[r].required
    requires control.None? <==> forall r: nat :: r < |plan| ==> !ends[r].ControlRaised?
    requires control.Some? ==> ControlRaised(control.value) in ends
    ensures FannedOut(plan, env, log, failed, control)
    ensures (forall item :: item in plan ==> item.required) && !failed && control.None? ==>
      forall r: nat :: r < |plan| ==> ends[r].Output?
  {
    MergedIsOfFanout(plan, env, logs, ends, log, owner);
    MergedControl(plan, env, logs, ends, log, owner, control);
    if failed {
      var r: nat :| r < |plan| && ends[r].ReviewerFailed? && plan[r].required;
      MergedFailure(plan, env, logs, ends, log, owner, r);
    }
    if (forall item :: item in plan ==> item.required) && !failed && control.None? {
      forall r: nat | r < |plan|
        ensures ends[r].Output? && Reviewed(r, env.sessions(r).turn) in log && Good(env.sessions(r).turn)
      {
        assert Explained(r, plan[r].required, env.sessions(r), logs[r], ends[r]);
        assert plan[r] in plan;
        MergedMembers(log, owner, logs, Reviewed(r, env.sessions(r).turn));
      }
    }
  }

  /** Each planned reviewer's findings, once, in some order. */
  ghost predicate OneOutputEach(plan: seq<PlanItem>, env: Env, outputs: seq<string>, order: seq<nat>) {
    && Distinct(order) && (forall r :: r in order <==> 0 <= r < |plan|) && |outputs| == |order|
    && forall k :: 0 <= k < |order| ==> env.sessions(order[k]).turn.payload == Some(outputs[k])
  }

  method RunReviewers(plan: seq<PlanItem>, env: Env)
      returns (log: Log, outputs: seq<string>, failed: bool, control: Option<Action>, order: seq<nat>)
    ensures FannedOut(plan, env, log, failed, control)
    ensures !failed && control.None? && (forall item :: item in plan ==> item.required) ==>
      OneOutputEach(plan, env, outputs, order)
  {
    var logs: seq<Log>, ends: seq<End> := [], [];
    for i := 0 to |plan|
      invariant |logs| == |ends| == i
      invariant forall k: nat :: k < i ==> Explained(k, plan[k].required, env.sessions(k), logs[k], ends[k])
    {
      var l, e := RunSingleReviewer(i, plan[i].required, env.sessions(i));
      logs, ends := logs + [l], ends + [e];
    }
    var owner;
    log, owner := Interleave(logs, env.schedule);
    order := CompletionOrder(env.completion, |plan|);
    assert forall k :: 0 <= k < |order| ==> order[k] in order;
    outputs, failed, control := Collect(plan, ends, order);
    CollectedIsFannedOut(plan, env, logs, ends, log, owner, failed, control);
    if !failed && control.None? && forall item :: item in plan ==> item.required {
      forall k | 0 <= k < |order| ensures env.sessions(order[k]).turn.payload == Some(outputs[k]) {
        assert order[k] in order;
        assert Explained(order[k], plan[order[k]].required, env.sessions(order[k]), logs[order[k]], ends[order[k]]);
      }
    }
  }

  // --------------------------------------------------------------- judge session

  /** What the normalizer makes of the judge's findings, however they are grouped. */
  ghost predicate JudgedAs(env: Env, verdict: Judge.Verdict) {
    && Good(env.judge)
    && exists outputs ::
          && Regroup.Regrouped(env.judge.payload.value, outputs)
          && Judge.Judged(Judge.Flatten(outputs), env.changed) == Ok(verdict)
  }

  datatype Exit<+T> = Done(value: T) | Interrupted(action: Action) | Error

  /** The normalizer raises on the judge's findings. */
  ghost predicate NormalizerRaises(env: Env) {
    Good(env.judge) && Judge.Judged(env.judge.payload.value, env.changed).Raised?
  }

  ghost predicate NormalizerRaised(env: Env, log: Log) { JudgeTurn(env.judge) in log && NormalizerRaises(env) }

  /** The judge session from the first to the last event. */
  ghost predicate JudgeSession(env: Env, k: nat, log: Log, exit: Exit<Judge.Verdict>) {
    && Halts(log) && Faithful(env, log)
    && (JudgeTurn(env.judge) !in log ==> Quiet(log))
    && (JudgeTurn(env.judge) in log ==> (Quiet(log) <==> env.control(k).None?))
    && (Broke(FinishJudge) in log || Broke(RecordJudge) in log ==> env.control(k).None?)
    && (forall e :: e in log ==>
          e.Check? || e in {Broke(StartJudge), Broke(FinishJudge), Broke(RecordJudge), JudgeTurn(env.judge)})
    && (match exit
        case Done(v) => Unobserved(log) && JudgeTurn(env.judge) in log && JudgedAs(env, v)
        case Interrupted(a) => Check(Some(a)) in log && env.control(k) == Some(a)
        case Error => Quiet(log) && (NormalizerRaised(env, log) || exists e :: e in log && WentWrong(e)))
  }

  method RunJudgeSession(env: Env, k: nat) returns (log: Log, exit: Exit<Judge.Verdict>, next: nat)
    requires env.Valid()
    ensures JudgeSession(env, k, log, exit) && (exit.Done? ==> next == k + 1)
  {
    log, next := [], k;
    if StartJudge in env.broken {
      log := [Broke(StartJudge)];
      assert Broke(StartJudge) in log;
      return log, Error, next;
    }
    log, next := [JudgeTurn(env.judge), Check(env.control(k))], k + 1;
    assert JudgeTurn(env.judge) in log && Check(env.control(k)) in log;
    if env.control(k).Some? {
      return log, Interrupted(env.control(k).value), next;
    }
    if env.judge.raised {
      return log, Error, next;
    }
    if FinishJudge in env.broken {
      log := log + [Broke(FinishJudge)];
      assert Broke(FinishJudge) in log;
      return log, Error, next;
    }
    if !(env.judge.completed && env.judge.hasSession) || env.judge.payload.None? {
      return log, Error, next;
    }
    var outputs := Regroup.JudgePayloadToReviewerOutputs(env.judge.payload.value);
    var normalized := Judge.Normalize(outputs, env.changed);
    if normalized.Raised? {
      Regroup.RegroupingKeepsTheGate(env.judge.payload.value, outputs, env.changed);
      return log, Error, next;
    }
    if RecordJudge in env.broken {
      log := log + [Broke(RecordJudge)];
      assert Broke(RecordJudge) in log;
      return log, Error, next;
    }
    return log, Done(normalized.value), next;
  }

  // -------------------------------------------------------- findings and outcome

  /** The findings stored so far, in order. */
  ghost function Findings(log: Log): seq<Judge.Entry> {
    if log == [] then []
    else
      var last := log[|log| - 1];
      Findings(log[..|log| - 1]) + (if last.Created? then [last.entry] else [])
  }

  lemma FindingsStep(log: Log, e: Event)
    ensures Findings(log + [e]) == Findings(log) + (if e.Created? then [e.entry] else [])
  {
    assert (log + [e])[..|log|] == log;
  }

  lemma {:induction false} FindingsAppend(a: Log, b: Log)
    ensures Findings(a + b) == Findings(a) + Findings(b)
  {
    if b == [] {
      assert a + b == a;
    } else {
      var n := |b| - 1;
      assert (a + b)[..|a + b| - 1] == a + b[..n];
      FindingsAppend(a, b[..n]);
    }
  }

  lemma {:induction false} NothingStored(log: Log)
    requires forall e :: e in log ==> !e.Created?
    ensures Findings(log) == []
  {
    if log != [] {
      NothingStored(log[..|log| - 1]);
      assert log[|log| - 1] in log;
    }
  }

  ghost predicate NothingWritten(log: Log) { forall e :: e in log ==> !e.Wrote? }

  function GateFor(verdict: Judge.Verdict): Gate { if verdict.accepted != [] then GateFailed else GatePassed }

  /** The first `m` checks of the main path are answered with none. */
  ghost predicate ClearedUpTo(env: Env, m: nat) { forall j: nat :: j < m ==> env.control(j).None? }

  /**
     How many checks of the main path must be answered with none for an event of a run that stores
     `stored` findings: there is one before the repository, the diff and the plan each, one before and
     one after the fan-out, one after the judge's turn, one before each finding, one before the outcome.
   */
  function Needed(stored: nat, e: Event): nat {
    match e
    case Check(_) => 0
    case Reviewed(_, _) => 4
    case JudgeTurn(_) => 5
    case Created(_) => 6 + stored
    case Broke(stage) => NeededBy(stored, stage)
    case Wrote(Finish(Success, GateSkipped)) => 3
    case Wrote(Finish(Failed, GateContextTooLarge)) => 3
    case Wrote(Finish(Success, _)) => 7 + stored
    case Wrote(_) => 0
  }

  function NeededBy(stored: nat, stage: Stage): nat {
    match stage
    case PrepareRepo => 1
    case PrepareContext => 2
    case CreatePlan => 3
    case SkipReport => 3
    case EarlyOutcome => 3
    case StartFanout => 4
    case ReviewerStage(_) => 4
    case FinishFanout => 5
    case StartJudge => 5
    case FinishJudge => 6
    case RecordJudge => 6
    case WriteRejections => 6
    case CreateFinding(position) => 7 + position
    case WriteReport => 7 + stored
    case WriteOutcome => 7 + stored
  }

  /** Whatever a run does, it does only if the checks before it are answered with none. */
  ghost predicate Cleared(env: Env, log: Log) {
    forall e :: e in log ==> ClearedUpTo(env, Needed(|Findings(log)|, e))
  }

  /** The first request that the main path is told of is that of one of the checks up to `m`. */
  ghost predicate FirstAsked(env: Env, m: nat, action: Action) {
    exists k: nat :: k <= m && ClearedUpTo(env, k) && env.control(k) == Some(action)
  }

  /** The request of some session's check. */
  ghost predicate AskedInSession(env: Env, n: nat, action: Action) {
    !AllSeeNothing(env, n) && exists i: nat :: i < n && AsksIn(env.sessions(i), Some(action))
  }

  /** Only these changes come to a review. */
  predicate Reviewable(env: Env) { Production(env.files) != [] && !env.truncated }

  ghost predicate TurnsGood(env: Env, n: nat) { forall i: nat :: i < n ==> Good(env.sessions(i).turn) }

  /** The last check of the main path that a run with `n` reviewers comes to if no operation fails. */
  ghost function LastCheck(env: Env, n: nat, stored: nat): nat {
    if !Reviewable(env) then 2
    else if !TurnsGood(env, n) then 4
    else if !Good(env.judge) || NormalizerRaises(env) then 5
    else 6 + stored
  }

  /** The request that ends a run with `stored` findings. */
  ghost predicate AskedFor(env: Env, n: nat, stored: nat, action: Action) {
    FirstAsked(env, LastCheck(env, n, stored), action) || (Reviewable(env) && AskedInSession(env, n, action))
  }

  /** The answers a run with `n` sessions got to its checks, told by the events and the end of it. */
  ghost predicate ChecksMade(env: Env, n: nat, log: Log, failed: bool, request: Option<Action>) {
    && Cleared(env, log)
    && (SomeJudged(log) ==> AllSeeNothing(env, n) && (failed ==> env.control(5).None?))
    && (request.Some? ==> AskedFor(env, n, |Findings(log)|, request.value))
  }

  function RequestOf<T>(exit: Exit<T>): Option<Action> {
    if exit.Interrupted? then Some(exit.action) else None
  }

  /** Events that come before findings and outcomes. */
  ghost predicate Early(log: Log) {
    forall e :: e in log ==> !e.Created? && !e.Wrote? && e != Broke(WriteReport) && e != Broke(WriteOutcome)
  }

  lemma EarlyStep(log: Log, e: Event)
    requires Early(log) && Early([e])
    ensures Early(log + [e])
  {
    assert e in [e];
  }

  lemma ClearedAppend(env: Env, a: Log, b: Log)
    requires Early(a) && Cleared(env, a) && Cleared(env, b)
    ensures Cleared(env, a + b) && Findings(a + b) == Findings(b)
  {
    NothingStored(a);
    FindingsAppend(a, b);
    forall e | e in a + b ensures ClearedUpTo(env, Needed(|Findings(b)|, e)) {
      if e in a {
        EarlyNeedsTheSame(e, |Findings(b)|);
        assert ClearedUpTo(env, Needed(|Findings(a)|, e));
      } else {
        assert e in b;
      }
    }
  }

  lemma EarlyNeedsTheSame(e: Event, stored: nat)
    requires !e.Created? && !e.Wrote? && e != Broke(WriteReport) && e != Broke(WriteOutcome)
    ensures Needed(stored, e) == Needed(0, e)
  {
  }

  /** The end of a review, after the judge: nothing, or a request or a failure, comes before its last event. */
  ghost predicate Recorded(env: Env, verdict: Judge.Verdict, log: Log, exit: Exit<()>) {
    && (forall e :: e in log ==> e.Check? || e.Broke? || e.Created? || e.Wrote?)
    && Findings(log) <= verdict.accepted && Faithful(env, log) && Cleared(env, log)
    && (exit.Interrupted? ==> FirstAsked(env, 6 + |Findings(log)|, exit.action))
    && (match exit
        case Done(_) => Quiet(log) && Findings(log) == verdict.accepted && log != [] && NothingWritten(log[..|log| - 1])
                        && log[|log| - 1] == Wrote(Finish(Success, GateFor(verdict)))
        case Interrupted(a) => log != [] && log[|log| - 1] == Check(Some(a)) && Quiet(log[..|log| - 1])
          && NothingWritten(log)
        case Error => Quiet(log) && NothingWritten(log) && exists e :: e in log && WentWrong(e))
  }

  /** The loop's log: checks that saw nothing, and the first `i` findings. */
  ghost predicate Storing(env: Env, verdict: Judge.Verdict, log: Log, i: nat)
    requires i <= |verdict.accepted|
  {
    && Quiet(log) && NothingWritten(log) && Faithful(env, log) && Findings(log) == verdict.accepted[..i]
    && ClearedUpTo(env, 6 + i)
    && forall e :: e in log ==> e.Check? || e.Created?
  }

  lemma StoreOne(env: Env, verdict: Judge.Verdict, log: Log, i: nat)
    requires i < |verdict.accepted| && Storing(env, verdict, log, i) && env.control(6 + i).None?
    ensures Storing(env, verdict, log + [Created(verdict.accepted[i])], i + 1)
  {
    FindingsStep(log, Created(verdict.accepted[i]));
  }

  lemma StoppedStoring(env: Env, verdict: Judge.Verdict, log: Log, i: nat, e: Event)
    requires i <= |verdict.accepted| && Storing(env, verdict, log, i) && Met(env, e)
    requires SeesRequest(e) || e.Broke?
    requires if e.Check? then e.seen == env.control(6 + i) else Needed(i, e) <= 6 + i || AfterCheck(env, i, e)
    ensures Recorded(env, verdict, log + [e], if e.Check? then Interrupted(e.seen.value) else Error)
  {
    FindingsStep(log, e);
    assert (log + [e])[..|log|] == log;
    assert e in log + [e];
  }

  predicate AfterCheck(env: Env, i: nat, e: Event) { Needed(i, e) == 7 + i && env.control(6 + i).None? }

  lemma CheckWhileStoring(env: Env, verdict: Judge.Verdict, log: Log, i: nat)
    requires i <= |verdict.accepted| && Storing(env, verdict, log, i)
    ensures Storing(env, verdict, log + [Check(None)], i)
  {
    FindingsStep(log, Check(None));
  }

  lemma Finished(env: Env, verdict: Judge.Verdict, log: Log)
    requires Storing(env, verdict, log, |verdict.accepted|) && env.control(6 + |verdict.accepted|).None?
    ensures Recorded(env, verdict, log + [Wrote(Finish(Success, GateFor(verdict)))], Done(()))
  {
    var e := Wrote(Finish(Success, GateFor(verdict)));
    FindingsStep(log, e);
    assert (log + [e])[..|log|] == log;
  }

  method RecordVerdict(env: Env, verdict: Judge.Verdict, k: nat) returns (log: Log, exit: Exit<()>)
    requires k == 6 && ClearedUpTo(env, k)
    ensures Recorded(env, verdict, log, exit)
  {
    var next := k;
    log := [];
    assert Storing(env, verdict, log, 0);
    if WriteRejections in env.broken {
      StoppedStoring(env, verdict, log, 0, Broke(WriteRejections));
      return log + [Broke(WriteRejections)], Error;
    }
    for i := 0 to |verdict.accepted|
      invariant next == 6 + i && Storing(env, verdict, log, i)
    {
      if env.control(next).Some? {
        StoppedStoring(env, verdict, log, i, Check(env.control(next)));
        return log + [Check(env.control(next))], Interrupted(env.control(next).value);
      }
      CheckWhileStoring(env, verdict, log, i);
      log := log + [Check(None)];
      if CreateFinding(i) in env.broken {
        StoppedStoring(env, verdict, log, i, Broke(CreateFinding(i)));
        return log + [Broke(CreateFinding(i))], Error;
      }
      StoreOne(env, verdict, log, i);
      log, next := log + [Created(verdict.accepted[i])], next + 1;
    }
    var all := |verdict.accepted|;
    var gate := if verdict.accepted != [] then GateFailed else GatePassed;
    if env.control(next).Some? {
      StoppedStoring(env, verdict, log, all, Check(env.control(next)));
      return log + [Check(env.control(next))], Interrupted(env.control(next).value);
    }
    CheckWhileStoring(env, verdict, log, all);
    log := log + [Check(None)];
    if WriteReport in env.broken {
      StoppedStoring(env, verdict, log, all, Broke(WriteReport));
      return log + [Broke(WriteReport)], Error;
    }
    if WriteOutcome in env.broken {
      StoppedStoring(env, verdict, log, all, Broke(WriteOutcome));
      return log + [Broke(WriteOutcome)], Error;
    }
    Finished(env, verdict, log);
    return log + [Wrote(Finish(Success, gate))], Done(());
  }

  // ---------------------------------------------------------------------- the run

  /** The plan of some risk result for the change. */
  ghost predicate Planned(env: Env, plan: seq<PlanItem>) {
    exists risk :: TierMeans(risk, env.files, env.triggers, env.diffBytes, env.truncated) && plan == PlanReviewers(risk)
  }

  /** All required reviewers and the judge came to good ends, and the judge's findings to this verdict. */
  ghost predicate FullyReviewed(env: Env, log: Log, verdict: Judge.Verdict) {
    && Production(env.files) != [] && !env.truncated
    && (exists plan ::
          && Planned(env, plan)
          && plan != []
          && (forall item :: item in plan ==> item.required)
          && AllReviewed(plan, env, log))
    && JudgeTurn(env.judge) in log && JudgedAs(env, verdict) && Findings(log) == verdict.accepted
  }

  ghost predicate NoTurns(log: Log) { forall e :: e in log ==> !e.Reviewed? && !e.JudgeTurn? }

  /** What must be the case for a run to end with this write. */
  ghost predicate Justified(env: Env, log: Log, w: Write) {
    match w
    case Cancel => Check(Some(CancelTask)) in log
    case Stop => Check(Some(StopTask)) in log
    case Finish(status, gate) =>
      Quiet(log)
      && match (status, gate)
         case (Success, GateSkipped) => Production(env.files) == [] && NoTurns(log)
         case (Failed, GateContextTooLarge) => Production(env.files) != [] && env.truncated && NoTurns(log)
         case (Success, GatePassed) => exists v :: FullyReviewed(env, log, v) && v.accepted == []
         case (Success, GateFailed) => exists v :: FullyReviewed(env, log, v) && v.accepted != []
         case (Failed, GateIncomplete) => NormalizerRaised(env, log) || exists e :: e in log && WentWrong(e)
         case _ => false
  }

  /**
     Models are asked only about production files that fit, and the reviewers are those of the plan:
     five for a heavy change, else one.
   */
  ghost predicate WithinPlan(env: Env, log: Log) {
    && (forall e :: e in log && e.Reviewed? ==> e.index < Reviewers(env))
    && (NoTurns(log) || (Production(env.files) != [] && !env.truncated))
  }

  ghost function Reviewers(env: Env): nat
  {
    if Heavy(env.files, env.triggers, env.diffBytes, env.truncated) then 5 else 1
  }

  /**
     A finished run: it ends with its only write, for the reason the write stands for, halts once a
     request was seen, and does nothing before the checks that come first are answered with none.
   */
  ghost predicate Complete(env: Env, log: Log) {
    Concluded(env, log) && AnswersAllow(env, log)
  }

  ghost predicate AnswersAllow(env: Env, log: Log)
    requires log != [] && log[|log| - 1].Wrote?
  {
    var w := log[|log| - 1].write;
    ChecksMade(env, Reviewers(env), log, w == Finish(Failed, GateIncomplete), RequestBehind(w))
  }

  function RequestBehind(w: Write): Option<Action> {
    match w
    case Cancel => Some(CancelTask)
    case Stop => Some(StopTask)
    case Finish(_, _) => None
  }

  ghost predicate Concluded(env: Env, log: Log) {
    && log != [] && log[|log| - 1].Wrote? && NothingWritten(log[..|log| - 1])
    && Justified(env, log, log[|log| - 1].write)
    && Halts(log) && Faithful(env, log) && WithinPlan(env, log) && Answered(env, Reviewers(env), 3, log)
  }

  ghost predicate SomeReviewed(log: Log) { exists e :: e in log && e.Reviewed? }

  ghost predicate SomeJudged(log: Log) { exists e :: e in log && e.JudgeTurn? }

  /**
     Whether the run saw a request, told by what its checks were answered: up to the judge by those of
     the `n` sessions and the one after them, and after a judge turn that was itself told of a request by
     the next one. The fan-out starts with check `k`, and the judge is asked only after good sessions.
   */
  ghost predicate Answered(env: Env, n: nat, k: nat, log: Log) {
    && (SomeReviewed(log) && !SomeJudged(log) ==> (Quiet(log) <==> AllSeeNothing(env, n) && env.control(k + 1).None?))
    && (SomeJudged(log) && env.judge.observed ==> (Quiet(log) <==> env.control(k + 2).None?))
    && (SomeJudged(log) ==> forall e :: e in log && e.Reviewed? ==> Good(e.turn))
  }

  predicate Concludes(w: Write) { w.Finish? && w.gate != GateIncomplete }

  /** The part of a run that is not finished yet, or just wrote its outcome. */
  ghost predicate Progress(env: Env, log: Log, exit: Exit<()>) {
    && Halts(log) && Faithful(env, log) && WithinPlan(env, log) && Answered(env, Reviewers(env), 3, log)
    && match exit
       case Done(_) => Concluded(env, log) && Concludes(log[|log| - 1].write)
       case Interrupted(a) => NothingWritten(log) && Check(Some(a)) in log
       case Error =>
           NothingWritten(log) && Quiet(log) && (NormalizerRaised(env, log) || exists e :: e in log && WentWrong(e))
  }

  /** The review itself, from the fan-out on, up to the outcome. */
  ghost predicate ReviewEnds(plan: seq<PlanItem>, env: Env, k: nat, log: Log, exit: Exit<()>) {
    && Halts(log) && InPlan(plan, env, log) && Answered(env, |plan|, k, log)
    && match exit
       case Done(_) =>
         && log != [] && NothingWritten(log[..|log| - 1]) && Quiet(log)
         && (exists v :: AllReviewed(plan, env, log) && JudgeTurn(env.judge) in log && JudgedAs(env, v)
               && Findings(log) == v.accepted && log[|log| - 1] == Wrote(Finish(Success, GateFor(v))))
       case Interrupted(a) => NothingWritten(log) && Check(Some(a)) in log
       case Error =>
           NothingWritten(log) && Quiet(log) && (NormalizerRaised(env, log) || exists e :: e in log && WentWrong(e))
  }

  ghost predicate InPlan(plan: seq<PlanItem>, env: Env, log: Log) {
    Faithful(env, log) && forall e :: e in log && e.Reviewed? ==> e.index < |plan|
  }

  lemma FanoutIsHarmless(plan: seq<PlanItem>, env: Env, log: Log, failed: bool, control: Option<Action>)
    requires FannedOut(plan, env, log, failed, control)
    ensures Harmless(log) && NothingWritten(log) && Findings(log) == [] && InPlan(plan, env, log)
  {
    forall e | e in log
      ensures !Commits(e) && !e.Wrote? && !e.Created? && Met(env, e) && (e.Reviewed? ==> e.index < |plan|)
    {
      assert OfFanout(plan, env, e);
    }
    NothingStored(log);
  }

  lemma GoodFanoutIsUnobserved(plan: seq<PlanItem>, env: Env, log: Log)
    requires env.Valid() && FannedOut(plan, env, log, false, None) && AllReviewed(plan, env, log)
    ensures Unobserved(log)
  {
    forall e | e in log ensures !Observes(e) {
      assert OfFanout(plan, env, e) && !SeesRequest(e);
      var i: nat :| i < |plan| && OfReviewer(i, env.sessions(i), e);
      GoodReviewIsUnobserved(i, env.sessions(i), e);
    }
  }

  lemma GoodReviewIsUnobserved(index: nat, s: Session, e: Event)
    requires OfReviewer(index, s, e) && !SeesRequest(e) && Proper(s.turn) && Good(s.turn)
    ensures !Observes(e)
  {
  }

  /** Something harmless after what may have seen a request. */
  lemma HaltsBefore(a: Log, b: Log)
    requires Halts(a) && Harmless(b)
    ensures Halts(a + b)
  {
    HarmlessHalts(b);
    HaltsAppend(a, b);
  }

  lemma SessionIsHarmlessAfterIt(env: Env, k: nat, fan: Log, log: Log, exit: Exit<Judge.Verdict>)
    requires Unobserved(fan) && Harmless(fan) && NothingWritten(fan) && Findings(fan) == []
    requires JudgeSession(env, k, log, exit)
    ensures Halts(fan + log) && NothingWritten(fan + log) && Findings(fan + log) == []
  {
    HarmlessHalts(fan);
    HaltsAppend(fan, log);
    assert forall e :: e in log ==> !e.Created? && !e.Wrote?;
    NothingStored(log);
    FindingsAppend(fan, log);
  }

  lemma RecordedHalts(env: Env, verdict: Judge.Verdict, log: Log, exit: Exit<()>)
    requires Recorded(env, verdict, log, exit)
    ensures Halts(log)
  {
    forall i | 0 <= i < |log| - 1 ensures !Observes(log[i]) {
      assert log[i] in log[..|log| - 1];
      assert log[i] in log;
    }
  }

  lemma ReviewRecorded(plan: seq<PlanItem>, env: Env, k: nat, before: Log, log: Log, verdict: Judge.Verdict,
      exit: Exit<()>)
    requires Unobserved(before) && NothingWritten(before) && Findings(before) == [] && Halts(before)
    requires InPlan(plan, env, before)
    requires AllReviewed(plan, env, before) && JudgeTurn(env.judge) in before && JudgedAs(env, verdict)
    requires Recorded(env, verdict, log, exit)
    ensures ReviewEnds(plan, env, k, before + log, exit)
  {
    RecordedHalts(env, verdict, log, exit);
    HaltsAppend(before, log);
    FindingsAppend(before, log);
    var all := before + log;
    assert Quiet(before);
    ReviewedTurnsAreGood(plan, env, before);
    if exit.Done? {
      assert all[..|all| - 1] == before + log[..|log| - 1];
      assert all[|all| - 1] == log[|log| - 1];
    } else if exit.Interrupted? {
      assert log[|log| - 1] in log;
    }
  }

  /** Nothing was seen, stored or written yet. */
  ghost predicate OnTrack(log: Log) {
    Unobserved(log) && Harmless(log) && NothingWritten(log) && Findings(log) == []
  }

  lemma OnTrackAppend(a: Log, b: Log)
    requires OnTrack(a) && OnTrack(b)
    ensures OnTrack(a + b)
  {
    FindingsAppend(a, b);
  }

  lemma QuietCheckIsOnTrack()
    ensures OnTrack([Check(None)])
  {
    NothingStored([Check(None)]);
  }

  /** The answers up to the end of the fan-out. */
  ghost predicate FanoutChecked<T>(env: Env, n: nat, log: Log, exit: Exit<T>) {
    && Early(log) && ChecksMade(env, n, log, exit.Error?, RequestOf(exit))
    && (exit.Done? ==> ClearedUpTo(env, 5) && AllSeeNothing(env, n))
  }

  /** The events of reviewers. */
  predicate Reviewing(e: Event) { e.Check? || (e.Broke? && e.stage.ReviewerStage?) || e.Reviewed? }

  lemma FanoutIsReviewing(plan: seq<PlanItem>, env: Env, log: Log, failed: bool, control: Option<Action>)
    requires FannedOut(plan, env, log, failed, control)
    ensures forall e :: e in log ==> Reviewing(e)
    ensures control.Some? ==> AskedInSession(env, |plan|, control.value)
  {
    forall e | e in log ensures Reviewing(e) {
      assert OfFanout(plan, env, e);
    }
    if control.Some? {
      assert OfFanout(plan, env, Check(control));
    }
  }

  lemma ReviewingIsEarly(env: Env, log: Log)
    requires ClearedUpTo(env, 4) && forall e :: e in log ==> Reviewing(e)
    ensures Early(log) && Cleared(env, log) && !SomeJudged(log)
  {
  }

  lemma FanoutIsEarly(plan: seq<PlanItem>, env: Env, log: Log, failed: bool, control: Option<Action>)
    requires FannedOut(plan, env, log, failed, control) && ClearedUpTo(env, 4)
    ensures var all := [Check(None)] + log;
      Early(all) && Cleared(env, all) && !SomeJudged(all)
    ensures control.Some? ==> AskedInSession(env, |plan|, control.value)
  {
    FanoutIsReviewing(plan, env, log, failed, control);
    ReviewingIsEarly(env, [Check(None)] + log);
  }

  /** Events one by one at the end of a fan-out. */
  lemma EarlyAndClearedStep(env: Env, log: Log, e: Event)
    requires Early(log) && Cleared(env, log) && !SomeJudged(log)
    requires e.Check? || (e == Broke(StartFanout) && ClearedUpTo(env, 4))
      || (e == Broke(FinishFanout) && ClearedUpTo(env, 5))
    ensures Early(log + [e]) && Cleared(env, log + [e]) && !SomeJudged(log + [e]) && Findings(log + [e]) == []
  {
    NothingStored(log);
    FindingsStep(log, e);
  }

  /** The fan-out and the checks around it. */
  ghost predicate FanoutEnds(plan: seq<PlanItem>, env: Env, k: nat, log: Log, exit: Exit<seq<string>>) {
    FanoutGot(plan, env, k, log, exit) && FanoutChecked(env, |plan|, log, exit)
  }

  ghost predicate FanoutGot(plan: seq<PlanItem>, env: Env, k: nat, log: Log, exit: Exit<seq<string>>) {
    && InPlan(plan, env, log) && Answered(env, |plan|, k, log) && !SomeJudged(log)
    && match exit
       case Done(_) => OnTrack(log) && AllReviewed(plan, env, log)
       case Interrupted(a) => Harmless(log) && NothingWritten(log) && Check(Some(a)) in log
       case Error => Harmless(log) && NothingWritten(log) && Quiet(log) && exists e :: e in log && WentWrong(e)
  }

  lemma FanoutGoesOn(plan: seq<PlanItem>, env: Env, k: nat, log: Log)
    requires env.Valid() && env.control(k + 1).None? && FannedOut(plan, env, log, false, None)
    requires k == 3 && ClearedUpTo(env, 4)
    requires forall item :: item in plan ==>
      item.required
    ensures FanoutEnds(plan, env, k, [Check(None)] + log + [Check(None)], Done([]))
  {
    FanoutIsHarmless(plan, env, log, false, None);
    GoodFanoutIsUnobserved(plan, env, log);
    FanoutIsEarly(plan, env, log, false, None);
    EarlyAndClearedStep(env, [Check(None)] + log, Check(None));
    QuietCheckIsOnTrack();
    OnTrackAppend([Check(None)], log);
    OnTrackAppend([Check(None)] + log, [Check(None)]);
  }

  lemma FanoutStops(plan: seq<PlanItem>, env: Env, k: nat, log: Log, failed: bool, control: Option<Action>, e: Event)
    requires FannedOut(plan, env, log, failed, control) && (e.Check? || e.Broke?) && Met(env, e)
    requires if e.Check? then e.seen == env.control(k + 1) else env.control(k + 1).None?
    ensures control.Some? ==> FanoutGot(plan, env, k, [Check(None)] + log, Interrupted(control.value))
    ensures control.None? && SeesRequest(e) ==>
      FanoutGot(plan, env, k, [Check(None)] + log + [e], Interrupted(e.seen.value))
    ensures control.None? && failed && e == Check(None) ==> FanoutGot(plan, env, k, [Check(None)] + log + [e], Error)
    ensures control.None? && e.Broke? ==> FanoutGot(plan, env, k, [Check(None)] + log + [Check(None), e], Error)
  {
    FanoutIsHarmless(plan, env, log, failed, control);
    assert e in [Check(None)] + log + [e];
    assert e in [Check(None)] + log + [Check(None), e];
    assert !SomeJudged(log);
    assert Quiet([Check(None)] + log) <==> Quiet(log);
    assert Quiet([Check(None)] + log + [e]) <==> Quiet(log) && !SeesRequest(e);
    assert e.Broke? ==> (Quiet([Check(None)] + log + [Check(None), e]) <==> Quiet(log));
  }

  lemma FanoutStopsChecked(plan: seq<PlanItem>, env: Env, log: Log, failed: bool, control: Option<Action>)
    requires FannedOut(plan, env, log, failed, control) && ClearedUpTo(env, 4) && Reviewable(env)
    ensures var n, start, seen := |plan|, [Check(None)] + log, env.control(4);
      && (control.Some? ==> FanoutChecked<seq<string>>(env, n, start, Interrupted(control.value)))
      && (control.None? && seen.Some? ==>
            FanoutChecked<seq<string>>(env, n, start + [Check(seen)], Interrupted(seen.value)))
      && (control.None? && seen.None? ==>
            && FanoutChecked<seq<string>>(env, n, start + [Check(None)], Error)
            && FanoutChecked<seq<string>>(env, n, start + [Check(None), Broke(FinishFanout)], Error))
  {
    FanoutIsEarly(plan, env, log, failed, control);
    var start := [Check(None)] + log;
    EarlyAndClearedStep(env, start, Check(env.control(4)));
    if env.control(4).None? {
      EarlyAndClearedStep(env, start + [Check(None)], Broke(FinishFanout));
      assert start + [Check(None)] + [Broke(FinishFanout)] == start + [Check(None), Broke(FinishFanout)];
    }
  }

  lemma FanoutNotStarted(plan: seq<PlanItem>, env: Env, k: nat)
    requires k == 3 && ClearedUpTo(env, k) && Reviewable(env)
    requires env.control(k).Some? || StartFanout in env.broken
    ensures var log := [Check(env.control(k))];
      if env.control(k).Some? then FanoutEnds(plan, env, k, log, Interrupted(env.control(k).value))
      else FanoutEnds(plan, env, k, log + [Broke(StartFanout)], Error)
  {
    var log := [Check(env.control(k))];
    assert Check(env.control(k)) in log;
    NothingStored(log);
    assert Early(log) && Cleared(env, log);
    if env.control(k).None? {
      EarlyAndClearedStep(env, log, Broke(StartFanout));
      assert Broke(StartFanout) in log + [Broke(StartFanout)];
    }
  }

  method RunFanout(env: Env, plan: seq<PlanItem>, k: nat) returns (log: Log, exit: Exit<seq<string>>, order: seq<nat>)
    requires env.Valid() && plan != [] && forall item :: item in plan ==> item.required
    requires k == 3 && ClearedUpTo(env, k) && Reviewable(env)
    ensures FanoutEnds(plan, env, k, log, exit)
    ensures exit.Done? ==> OneOutputEach(plan, env, exit.value, order)
  {
    order := [];
    log := [Check(env.control(k))];
    if env.control(k).Some? {
      FanoutNotStarted(plan, env, k);
      return log, Interrupted(env.control(k).value), order;
    }
    if !exists item :: item in plan && item.required {
      HeadIsIn(plan);
      assert false;
    }
    if StartFanout in env.broken {
      FanoutNotStarted(plan, env, k);
      return log + [Broke(StartFanout)], Error, order;
    }
    var fan, outputs, failed, control;
    fan, outputs, failed, control, order := RunReviewers(plan, env);
    log := log + fan;
    var seen := Check(env.control(k + 1));
    FanoutStops(plan, env, k, fan, failed, control, seen);
    FanoutStopsChecked(plan, env, fan, failed, control);
    if control.Some? {
      return log, Interrupted(control.value), order;
    }
    if SeesRequest(seen) {
      return log + [seen], Interrupted(seen.seen.value), order;
    }
    if failed {
      return log + [seen], Error, order;
    }
    if FinishFanout in env.broken {
      FanoutStops(plan, env, k, fan, failed, control, Broke(FinishFanout));
      return log + [seen, Broke(FinishFanout)], Error, order;
    }
    FanoutGoesOn(plan, env, k, fan);
    return log + [seen], Done(outputs), order;
  }

  lemma FanoutIsTheEnd(plan: seq<PlanItem>, env: Env, k: nat, log: Log, exit: Exit<seq<string>>)
    requires FanoutEnds(plan, env, k, log, exit) && !exit.Done?
    ensures ReviewEnds(plan, env, k, log, if exit.Error? then Error else Interrupted(exit.action))
  {
    HarmlessHalts(log);
  }

  lemma JudgeIsTheEnd(plan: seq<PlanItem>, env: Env, k: nat, fan: Log, outputs: seq<string>, log: Log,
      exit: Exit<Judge.Verdict>)
    requires FanoutEnds(plan, env, k, fan, Done(outputs)) && JudgeSession(env, k + 2, log, exit) && !exit.Done?
    ensures ReviewEnds(plan, env, k, fan + log, if exit.Error? then Error else Interrupted(exit.action))
  {
    SessionIsHarmlessAfterIt(env, k + 2, fan, log, exit);
    var all := fan + log;
    assert forall e :: e in fan ==> !SeesRequest(e);
    assert forall e :: e in log ==> e in all;
    assert Quiet(all) <==> Quiet(log);
    JudgeAnswers(plan, env, k, fan, outputs, log, exit);
  }

  lemma ReviewedTurnsAreGood(plan: seq<PlanItem>, env: Env, log: Log)
    requires InPlan(plan, env, log) && AllReviewed(plan, env, log)
    ensures forall e :: e in log && e.Reviewed? ==> Good(e.turn)
  {
    forall e | e in log && e.Reviewed? ensures Good(e.turn) {
      assert Met(env, e);
    }
  }

  lemma JudgeAnswers(plan: seq<PlanItem>, env: Env, k: nat, fan: Log, outputs: seq<string>, log: Log,
      exit: Exit<Judge.Verdict>)
    requires FanoutEnds(plan, env, k, fan, Done(outputs)) && JudgeSession(env, k + 2, log, exit)
    ensures Answered(env, |plan|, k, fan + log)
  {
    var all := fan + log;
    if exit.Done? || JudgeTurn(env.judge) in log {
      ReviewedTurnsAreGood(plan, env, fan);
    }
    assert Quiet(fan);
    assert Quiet(all) <==> Quiet(log);
    assert forall e :: e in fan ==> !e.JudgeTurn?;
    if SomeJudged(all) {
      assert JudgeTurn(env.judge) in log;
    } else if SomeReviewed(all) {
      assert SomeReviewed(fan);
      assert forall e :: e in log ==> e in all;
    }
  }

  lemma JudgeGoesOn(plan: seq<PlanItem>, env: Env, k: nat, fan: Log, outputs: seq<string>, log: Log,
      exit: Exit<Judge.Verdict>, rest: Log, end: Exit<()>)
    requires FanoutEnds(plan, env, k, fan, Done(outputs)) && JudgeSession(env, k + 2, log, exit) && exit.Done?
    requires Recorded(env, exit.value, rest, end)
    ensures ReviewEnds(plan, env, k, fan + log + rest, end)
  {
    SessionIsHarmlessAfterIt(env, k + 2, fan, log, exit);
    ReviewRecorded(plan, env, k, fan + log, rest, exit.value, end);
  }

  lemma SessionIsEarly(env: Env, log: Log, exit: Exit<Judge.Verdict>)
    requires JudgeSession(env, 5, log, exit) && ClearedUpTo(env, 5)
    ensures Early(log) && Cleared(env, log)
  {
    forall e | e in log ensures ClearedUpTo(env, Needed(|Findings(log)|, e)) && Early([e]) {
      assert Needed(|Findings(log)|, e) <= if env.control(5).None? then 6 else 5;
    }
  }

  /** The judge's session adds to the answers of the fan-out the one of its own check. */
  lemma SessionChecked(env: Env, n: nat, fan: Log, log: Log, exit: Exit<Judge.Verdict>)
    requires Early(fan) && Cleared(env, fan) && ClearedUpTo(env, 5) && AllSeeNothing(env, n) && !SomeJudged(fan)
    requires JudgeSession(env, 5, log, exit) && Reviewable(env) && TurnsGood(env, n)
    ensures Early(fan + log) && ChecksMade(env, n, fan + log, exit.Error?, RequestOf(exit))
    ensures exit.Done? ==> ClearedUpTo(env, 6)
  {
    SessionIsEarly(env, log, exit);
    ClearedAppend(env, fan, log);
    if SomeJudged(fan + log) {
      assert JudgeTurn(env.judge) in log;
    }
  }

  lemma RecordedChecked(env: Env, n: nat, before: Log, verdict: Judge.Verdict, log: Log, exit: Exit<()>)
    requires Early(before) && Cleared(env, before) && ClearedUpTo(env, 6) && AllSeeNothing(env, n)
    requires Recorded(env, verdict, log, exit) && Reviewable(env) && TurnsGood(env, n) && JudgedAs(env, verdict)
    ensures ChecksMade(env, n, before + log, exit.Error?, RequestOf(exit))
  {
    ClearedAppend(env, before, log);
    VerdictMeansNotRaised(env, verdict);
  }

  lemma VerdictMeansNotRaised(env: Env, verdict: Judge.Verdict)
    requires JudgedAs(env, verdict)
    ensures !NormalizerRaises(env)
  {
    var items := env.judge.payload.value;
    var outputs :| Regroup.Regrouped(items, outputs)
      && Judge.Judged(Judge.Flatten(outputs), env.changed) == Ok(verdict);
    Regroup.RegroupingKeepsTheGate(items, outputs, env.changed);
  }

  method RunReviewersAndJudge(env: Env, plan: seq<PlanItem>, k: nat) returns (log: Log, exit: Exit<()>)
    requires env.Valid() && plan != [] && forall item :: item in plan ==> item.required
    requires k == 3 && ClearedUpTo(env, k) && Reviewable(env)
    ensures ReviewEnds(plan, env, k, log, exit) && ChecksMade(env, |plan|, log, exit.Error?, RequestOf(exit))
  {
    var fan, outputs, order := RunFanout(env, plan, k);
    if !outputs.Done? {
      FanoutIsTheEnd(plan, env, k, fan, outputs);
      return fan, if outputs.Error? then Error else Interrupted(outputs.action);
    }
    var session, verdict, next := RunJudgeSession(env, k + 2);
    SessionChecked(env, |plan|, fan, session, verdict);
    if !verdict.Done? {
      JudgeIsTheEnd(plan, env, k, fan, outputs.value, session, verdict);
      return fan + session, if verdict.Error? then Error else Interrupted(verdict.action);
    }
    var rest;
    rest, exit := RecordVerdict(env, verdict.value, next);
    JudgeGoesOn(plan, env, k, fan, outputs.value, session, verdict, rest, exit);
    RecordedChecked(env, |plan|, fan + session, verdict.value, rest, exit);
    log := fan + session + rest;
  }

  /** Checks that saw nothing, and nothing else. */
  ghost predicate Prelude(log: Log) { forall e :: e in log ==> e == Check(None) }

  lemma PreludeIsOnTrack(log: Log)
    requires Prelude(log)
    ensures OnTrack(log) && NoTurns(log) && Quiet(log)
  {
    NothingStored(log);
  }

  lemma PreludeThenLast(env: Env, before: Log, e: Event)
    requires Prelude(before) && Met(env, e)
    ensures SeesRequest(e) ==> Progress(env, before + [e], Interrupted(e.seen.value))
    ensures e.Broke? ==> Progress(env, before + [e], Error)
  {
    PreludeIsOnTrack(before);
    HarmlessHalts(before);
    assert e in before + [e];
    if !e.Wrote? {
      HaltsAppend(before, [e]);
    }
  }

  lemma PreludeThenWrite(env: Env, before: Log, w: Write)
    requires Prelude(before)
    requires w == if Production(env.files) == [] then Finish(Success, GateSkipped)
      else Finish(Failed, GateContextTooLarge)
    requires Production(env.files) == [] || env.truncated
    ensures Progress(env, before + [Wrote(w)], Done(()))
  {
    PreludeIsOnTrack(before);
    HarmlessHalts(before);
    HaltsAppend(before, [Wrote(w)]);
    var log := before + [Wrote(w)];
    assert log[..|log| - 1] == before && log[|log| - 1] == Wrote(w);
  }

  lemma PreludeThenReview(env: Env, before: Log, plan: seq<PlanItem>, log: Log, exit: Exit<()>)
    requires Prelude(before) && ReviewEnds(plan, env, 3, log, exit)
    requires |plan| == Reviewers(env)
    requires Production(env.files) != [] && !env.truncated && Planned(env, plan) && plan != []
    requires forall item :: item in plan ==>
      item.required
    ensures Progress(env, before + log, exit)
  {
    PreludeKeepsAnswers(env, before, plan, log, exit);
    if exit.Done? {
      PreludeThenOutcome(env, before, plan, log);
    } else {
      PreludeThenEnd(env, before, plan, log, exit);
    }
  }

  /** Checks that saw nothing, put before a review, change nothing about what holds of its events. */
  lemma PreludeKeepsAnswers(env: Env, before: Log, plan: seq<PlanItem>, log: Log, exit: Exit<()>)
    requires Prelude(before) && ReviewEnds(plan, env, 3, log, exit) && |plan| == Reviewers(env)
    requires Production(env.files) != [] && !env.truncated
    ensures var all := before + log;
      Halts(all) && Faithful(env, all) && WithinPlan(env, all) && Answered(env, Reviewers(env), 3, all)
  {
    PreludeIsOnTrack(before);
    HarmlessHalts(before);
    HaltsAppend(before, log);
    var all := before + log;
    assert Quiet(all) <==> Quiet(log);
    assert SomeReviewed(all) <==> SomeReviewed(log);
    assert SomeJudged(all) <==> SomeJudged(log);
  }

  lemma PreludeThenEnd(env: Env, before: Log, plan: seq<PlanItem>, log: Log, exit: Exit<()>)
    requires Prelude(before) && ReviewEnds(plan, env, 3, log, exit) && !exit.Done?
    ensures var all := before + log;
      && NothingWritten(all)
      && (exit.Interrupted? ==> Check(Some(exit.action)) in all)
      && (exit.Error? ==> Quiet(all) && (NormalizerRaised(env, all) || exists e :: e in all && WentWrong(e)))
  {
    assert forall e :: e in log ==> e in before + log;
  }

  lemma PreludeThenOutcome(env: Env, before: Log, plan: seq<PlanItem>, log: Log)
    requires Prelude(before) && ReviewEnds(plan, env, 3, log, Done(()))
    requires Production(env.files) != [] && !env.truncated && Planned(env, plan) && plan != []
    requires forall item :: item in plan ==>
      item.required
    ensures var all := before + log;
      && all != [] && all[|all| - 1].Wrote? && NothingWritten(all[..|all| - 1])
      && Justified(env, all, all[|all| - 1].write) && Concludes(all[|all| - 1].write)
  {
    PreludeIsOnTrack(before);
    FindingsAppend(before, log);
    var all := before + log;
    assert all[|all| - 1] == log[|log| - 1];
    var v :| AllReviewed(plan, env, log) && JudgeTurn(env.judge) in log && JudgedAs(env, v)
      && Findings(log) == v.accepted && log[|log| - 1] == Wrote(Finish(Success, GateFor(v)));
    ReviewStaysFull(env, before, plan, log, v);
    assert Quiet(all);
    OutcomeIsJustified(env, all, v);
    NothingWrittenBefore(before, log);
  }

  lemma NothingWrittenBefore(before: Log, log: Log)
    requires Prelude(before) && log != [] && NothingWritten(log[..|log| - 1])
    ensures var all := before + log; NothingWritten(all[..|all| - 1])
  {
    var all := before + log;
    assert all[..|all| - 1] == before + log[..|log| - 1];
  }

  lemma OutcomeIsJustified(env: Env, log: Log, v: Judge.Verdict)
    requires Quiet(log) && FullyReviewed(env, log, v)
    ensures var w := Finish(Success, GateFor(v)); Justified(env, log, w) && Concludes(w)
  {
  }

  lemma ReviewStaysFull(env: Env, before: Log, plan: seq<PlanItem>, log: Log, v: Judge.Verdict)
    requires Production(env.files) != [] && !env.truncated && Planned(env, plan) && plan != []
    requires forall item :: item in plan ==>
      item.required
    requires AllReviewed(plan, env, log) && JudgeTurn(env.judge) in log && JudgedAs(env, v)
    requires Findings(before + log) == v.accepted
    ensures FullyReviewed(env, before + log, v)
  {
    assert AllReviewed(plan, env, before + log);
  }

  lemma PreludeThenChecked(env: Env, n: nat, before: Log, log: Log, failed: bool, request: Option<Action>)
    requires Prelude(before) && ChecksMade(env, n, log, failed, request)
    ensures ChecksMade(env, n, before + log, failed, request)
  {
    assert Early(before);
    ClearedAppend(env, before, log);
    assert SomeJudged(before + log) ==> SomeJudged(log);
  }

  lemma LastIsChecked(env: Env, before: Log, e: Event, failed: bool, request: Option<Action>)
    requires Prelude(before) && !e.JudgeTurn? && !e.Created? && ClearedUpTo(env, Needed(0, e))
    requires request.Some? ==> FirstAsked(env, 2, request.value)
    ensures ChecksMade(env, Reviewers(env), before + [e], failed, request)
  {
    NothingStored([e]);
    assert ChecksMade(env, Reviewers(env), [e], failed, request);
    PreludeThenChecked(env, Reviewers(env), before, [e], failed, request);
  }

  lemma LastWriteAllows(env: Env, log: Log, w: Write)
    requires ChecksMade(env, Reviewers(env), log, w.Finish?, RequestBehind(w))
    requires w in {Cancel, Stop, Finish(Failed, GateIncomplete)}
    ensures AnswersAllow(env, log + [Wrote(w)])
  {
    FindingsStep(log, Wrote(w));
    assert SomeJudged(log + [Wrote(w)]) ==> SomeJudged(log);
  }

  method RunBody(env: Env) returns (log: Log, exit: Exit<()>)
    requires env.Valid()
    ensures Progress(env, log, exit) && ChecksMade(env, Reviewers(env), log, exit.Error?, RequestOf(exit))
  {
    log := [];
    if env.control(0).Some? {
      log, exit := RequestInPrelude(env, log, 0);
      return;
    }
    log := log + [Check(None)];
    if PrepareRepo in env.broken {
      log, exit := BrokenInPrelude(env, log, PrepareRepo);
      return;
    }
    if env.control(1).Some? {
      log, exit := RequestInPrelude(env, log, 1);
      return;
    }
    log := log + [Check(None)];
    if PrepareContext in env.broken {
      log, exit := BrokenInPrelude(env, log, PrepareContext);
      return;
    }
    log, exit := RunAfterDiff(env, log);
  }

  /** The plan, the guard and the review. */
  method RunAfterDiff(env: Env, before: Log) returns (log: Log, exit: Exit<()>)
    requires env.Valid() && Prelude(before) && ClearedUpTo(env, 2)
    ensures Progress(env, log, exit) && ChecksMade(env, Reviewers(env), log, exit.Error?, RequestOf(exit))
  {
    var risk := ClassifyRisk(env.files, env.triggers, env.diffBytes, env.truncated);
    var plan, guard := PlanReviewers(risk), PrepareReviewGuard(risk);
    EveryPlannedReviewerIsRequired(risk, env.files, env.triggers, env.diffBytes, env.truncated);
    GuardMeans(risk, env.files, env.triggers, env.diffBytes, env.truncated);
    if env.control(2).Some? {
      log, exit := RequestInPrelude(env, before, 2);
      return;
    }
    log := before + [Check(None)];
    if CreatePlan in env.broken {
      log, exit := BrokenInPrelude(env, log, CreatePlan);
      return;
    }
    if guard == GuardReview {
      log, exit := ReviewChange(env, log, plan);
    } else {
      log, exit := EndWithoutReview(env, log, guard == GuardSkipped);
    }
  }

  method ReviewChange(env: Env, before: Log, plan: seq<PlanItem>) returns (log: Log, exit: Exit<()>)
    requires env.Valid() && Prelude(before) && ClearedUpTo(env, 3) && Reviewable(env)
    requires Planned(env, plan) && plan != [] && |plan| == Reviewers(env)
    requires forall item :: item in plan ==> item.required
    ensures Progress(env, log, exit) && ChecksMade(env, Reviewers(env), log, exit.Error?, RequestOf(exit))
  {
    var review;
    review, exit := RunReviewersAndJudge(env, plan, 3);
    PreludeThenReview(env, before, plan, review, exit);
    PreludeThenChecked(env, |plan|, before, review, exit.Error?, RequestOf(exit));
    log := before + review;
  }

  method EndWithoutReview(env: Env, before: Log, skipped: bool) returns (log: Log, exit: Exit<()>)
    requires Prelude(before) && ClearedUpTo(env, 3) && !Reviewable(env)
    requires skipped <==> Production(env.files) == []
    ensures Progress(env, log, exit) && ChecksMade(env, Reviewers(env), log, exit.Error?, RequestOf(exit))
  {
    log := before;
    if skipped && SkipReport in env.broken {
      log, exit := BrokenInPrelude(env, log, SkipReport);
      return;
    }
    if EarlyOutcome in env.broken {
      log, exit := BrokenInPrelude(env, log, EarlyOutcome);
      return;
    }
    var w := if skipped then Finish(Success, GateSkipped) else Finish(Failed, GateContextTooLarge);
    PreludeThenWrite(env, log, w);
    LastIsChecked(env, log, Wrote(w), false, None);
    return log + [Wrote(w)], Done(());
  }

  method RequestInPrelude(env: Env, before: Log, k: nat) returns (log: Log, exit: Exit<()>)
    requires Prelude(before) && k < 3 && ClearedUpTo(env, k) && env.control(k).Some?
    ensures exit == Interrupted(env.control(k).value) && log == before + [Check(env.control(k))]
    ensures Progress(env, log, exit) && ChecksMade(env, Reviewers(env), log, false, RequestOf(exit))
  {
    PreludeThenLast(env, before, Check(env.control(k)));
    LastIsChecked(env, before, Check(env.control(k)), false, env.control(k));
    return before + [Check(env.control(k))], Interrupted(env.control(k).value);
  }

  method BrokenInPrelude(env: Env, before: Log, stage: Stage) returns (log: Log, exit: Exit<()>)
    requires Prelude(before) && stage in env.broken && ClearedUpTo(env, NeededBy(0, stage))
    ensures exit == Error && log == before + [Broke(stage)]
    ensures Progress(env, log, exit) && ChecksMade(env, Reviewers(env), log, true, None)
  {
    PreludeThenLast(env, before, Broke(stage));
    LastIsChecked(env, before, Broke(stage), true, None);
    return before + [Broke(stage)], Error;
  }

  lemma LastWriteCompletes(env: Env, log: Log, exit: Exit<()>, w: Write)
    requires Progress(env, log, exit) && !exit.Done?
    requires w == if exit.Error? then Finish(Failed, GateIncomplete) else if exit.action == CancelTask then Cancel
      else Stop
    ensures Concluded(env, log + [Wrote(w)])
  {
    var all := log + [Wrote(w)];
    assert all[..|all| - 1] == log;
    HaltsBefore(log, [Wrote(w)]);
    assert forall e :: e in log ==> e in all;
  }

  /** A run of an existing task always ends with one write to it; a missing task raises before any step. */
  method Run(taskExists: bool, env: Env) returns (r: Result<Log>)
    requires env.Valid()
    ensures r.Ok? <==> taskExists
    ensures r.Ok? ==> Complete(env, r.value)
  {
    if !taskExists {
      return Raised;
    }
    var log, exit := RunBody(env);
    match exit
    case Done(_) => return Ok(log);
    case Interrupted(action) =>
      var w := if action == CancelTask then Cancel else Stop;
      LastWriteCompletes(env, log, exit, w);
      LastWriteAllows(env, log, w);
      return Ok(log + [Wrote(w)]);
    case Error =>
      LastWriteCompletes(env, log, exit, Finish(Failed, GateIncomplete));
      LastWriteAllows(env, log, Finish(Failed, GateIncomplete));
      return Ok(log + [Wrote(Finish(Failed, GateIncomplete))]);
  }
}
