/** The nested loops of `analyze`: retried analysis prompts, and repair prompts for outputs that do not parse. */
module AnalyzeRetry {
  import opened Basics

  /** What a prompt comes to: it raises (cancelled, timed out) or the process ends. */
  datatype Reply = Broke | Exited(returncode: int, stdout: string)

  datatype Analysis = Analysis(findings: nat, content: string)

  /** What parsing an output comes to. */
  datatype Parse = Parsed(result: Analysis) | Unparsable | Unrepairable

  /** The retry settings, the parser, and the marks of an output that only announces the work. */
  datatype Config = Config(retryTimes: int, formatRetryTimes: int, parse: string -> Parse, announces: string -> bool)

  predicate SuspiciousEmptyRepairResult(c: Config, rawOutput: string, repairsUsed: int, result: Analysis) {
    repairsUsed > 0 && result.findings == 0 && c.announces(rawOutput)
  }

  // ------------------------------------------------- the loops as a state machine

  /** What the next reply answers: an analysis prompt, or the `round`-th repair of the output in hand. */
  datatype Mode = Analysing | Repairing(raw: string, round: nat)

  datatype State =
    | Waiting(attempt: int, total: int, extraUsed: bool, mode: Mode)
    | Ended(result: Result<Analysis>)

  function Ask(attempt: int, total: int, extraUsed: bool): State {
    if attempt < total then Waiting(attempt, total, extraUsed, Analysing) else Ended(Raised)
  }

  /** A parsed result is returned, unless it is suspicious and the extra attempt is still there. */
  function Accept(c: Config, attempt: int, total: int, extraUsed: bool, raw: string, round: nat, result: Analysis)
      : State
  {
    if !extraUsed && SuspiciousEmptyRepairResult(c, raw, round, result) then Ask(attempt + 1, total + 1, true)
      else Ended(Ok(result))
  }

  function Read(c: Config, attempt: int, total: int, extraUsed: bool, raw: string, candidate: string,
    round: nat): State {
    match c.parse(candidate)
    case Parsed(result) => Accept(c, attempt, total, extraUsed, raw, round, result)
    case Unrepairable => Ended(Raised)
    case Unparsable => if round >= c.formatRetryTimes then Ended(Raised)
      else Waiting(attempt, total, extraUsed, Repairing(raw, round + 1))
  }

  function FirstRead(c: Config, attempt: int, total: int, extraUsed: bool, raw: string): State {
    if c.formatRetryTimes < 0 then Ended(Raised) else Read(c, attempt, total, extraUsed, raw, raw, 0)
  }

  function Step(c: Config, s: State, r: Reply): State
    requires s.Waiting?
  {
    match s.mode
    case Analysing =>
      if r.Broke? then Ended(Raised)
      else if r.returncode == 0 then FirstRead(c, s.attempt, s.total, s.extraUsed, r.stdout)
      else Ask(s.attempt + 1, s.total, s.extraUsed)
    case Repairing(raw, round) =>
      if r.Broke? || r.returncode != 0 then Ended(Raised)
      else Read(c, s.attempt, s.total, s.extraUsed, raw, r.stdout, round)
  }

  function Start(c: Config): State { Ask(0, c.retryTimes + 1, false) }

  /** The states passed through: from the start, one step for each reply. */
  ghost predicate Run(c: Config, states: seq<State>, replies: seq<Reply>) {
    && |states| == |replies| + 1 && states[0] == Start(c)
    && (forall i :: 0 <= i < |replies| ==> states[i].Waiting? && states[i + 1] == Step(c, states[i], replies[i]))
  }

  ghost function Analyses(states: seq<State>): nat {
    if states == [] then 0
    else
      var last := states[|states| - 1];
      Analyses(states[..|states| - 1]) + (if last.Waiting? && last.mode.Analysing? then 1 else 0)
  }

  ghost function Repairs(states: seq<State>): nat {
    if states == [] then 0
    else
      var last := states[|states| - 1];
      Repairs(states[..|states| - 1]) + (if last.Waiting? && last.mode.Repairing? then 1 else 0)
  }

  // ----------------------------------------------------------------------- bounds

  /** The prompts a state has behind it, its own included. */
  ghost predicate Within(c: Config, s: State, analyses: nat, repairs: nat) {
    match s
    case Ended(_) => analyses <= Max(0, c.retryTimes + 2) && repairs <= 2 * Max(0, c.formatRetryTimes)
    case Waiting(attempt, total, extraUsed, mode) =>
      && 0 <= attempt < total && total == c.retryTimes + (if extraUsed then 2 else 1) && analyses == attempt + 1
      && match mode
         case Analysing => repairs <= (if extraUsed then Max(0, c.formatRetryTimes) else 0)
         case Repairing(_, round) =>
             1 <= round <= c.formatRetryTimes && repairs <= (if extraUsed then c.formatRetryTimes else 0) + round
  }

  lemma StepStaysWithin(c: Config, s: State, r: Reply, analyses: nat, repairs: nat)
    requires s.Waiting? && Within(c, s, analyses, repairs)
    ensures var s' := Step(c, s, r);
      Within(c, s', analyses + (if s'.Waiting? && s'.mode.Analysing? then 1 else 0),
             repairs + (if s'.Waiting? && s'.mode.Repairing? then 1 else 0))
  {
  }

  /**
     At most `retryTimes` + 2 analysis prompts and 2 * `formatRetryTimes` repair prompts, whatever the
     model answers.
   */
  lemma {:induction false} PromptsAreBounded(c: Config, states: seq<State>, replies: seq<Reply>)
    requires Run(c, states, replies)
    ensures Within(c, states[|states| - 1], Analyses(states), Repairs(states))
    ensures Analyses(states) <= Max(0, c.retryTimes + 2) && Repairs(states) <= 2 * Max(0, c.formatRetryTimes)
    decreases |replies|
  {
    var n := |replies|;
    if n == 0 {
      assert states[..0] == [];
    } else {
      assert Run(c, states[..n], replies[..n - 1]);
      PromptsAreBounded(c, states[..n], replies[..n - 1]);
      StepStaysWithin(c, states[n - 1], replies[n - 1], Analyses(states[..n]), Repairs(states[..n]));
    }
  }

  lemma {:induction false} EveryReplyAnswersAPrompt(c: Config, states: seq<State>, replies: seq<Reply>)
    requires Run(c, states, replies)
    ensures Analyses(states) + Repairs(states) == |replies| + (if states[|replies|].Waiting? then 1 else 0)
    decreases |replies|
  {
    var n := |replies|;
    if n == 0 {
      assert states[..0] == [];
    } else {
      assert Run(c, states[..n], replies[..n - 1]);
      EveryReplyAnswersAPrompt(c, states[..n], replies[..n - 1]);
    }
  }

  /** The extra attempt is granted at most once: once used it stays used, and the total never grows again. */
  lemma {:induction false} ExtraAttemptOnce(c: Config, states: seq<State>, replies: seq<Reply>, i: nat, j: nat)
    requires Run(c, states, replies) && i <= j < |states| && states[i].Waiting? && states[i].extraUsed
    requires states[j].Waiting?
    ensures states[j].extraUsed && states[j].total == states[i].total
    decreases j
  {
    if i < j {
      ExtraAttemptOnce(c, states, replies, i, j - 1);
    }
  }

  /** A result is what the last output parses to, and never follows an error of that prompt. */
  lemma ResultIsTheLastOutput(c: Config, states: seq<State>, replies: seq<Reply>)
    requires Run(c, states, replies) && states[|replies|].Ended? && states[|replies|].result.Ok?
    ensures |replies| > 0 && replies[|replies| - 1].Exited? && replies[|replies| - 1].returncode == 0
    ensures c.parse(replies[|replies| - 1].stdout) == Parsed(states[|replies|].result.value)
  {
  }

  /** An analysis prompt is sent again only after a failed process, or once after a suspicious empty result. */
  lemma AskedAgainOnlyIf(c: Config, states: seq<State>, replies: seq<Reply>, i: nat)
    requires Run(c, states, replies) && i < |replies| && states[i + 1].Waiting? && states[i + 1].mode.Analysing?
    ensures replies[i].Exited?
    ensures replies[i].returncode != 0 ==> states[i].mode.Analysing? && states[i + 1].extraUsed == states[i].extraUsed
    ensures replies[i].returncode == 0 ==>
      && !states[i].extraUsed && states[i + 1].extraUsed
      && states[i].mode.Repairing? && c.announces(states[i].mode.raw)
      && c.parse(replies[i].stdout).Parsed? && c.parse(replies[i].stdout).result.findings == 0
  {
  }

  // ---------------------------------------------------------- what a reply leads to

  /** The reply is an output that parses to this. */
  predicate Gives(c: Config, r: Reply, result: Analysis) {
    r.Exited? && r.returncode == 0 && c.parse(r.stdout) == Parsed(result)
  }

  predicate GivesNothing(c: Config, r: Reply, parse: Parse) {
    r.Exited? && r.returncode == 0 && c.parse(r.stdout) == parse
  }

  predicate Fails(r: Reply) { r.Exited? && r.returncode != 0 }

  /** Reply `k` repairs an output that only announced the work, and reports no finding. */
  ghost predicate Suspicious(c: Config, states: seq<State>, replies: seq<Reply>, k: nat)
    requires k < |replies| && k < |states|
  {
    && states[k].Waiting? && states[k].mode.Repairing? && c.announces(states[k].mode.raw)
    && exists result :: Gives(c, replies[k], result) && result.findings == 0
  }

  /** A suspicious reply came before prompt `i`. */
  ghost predicate SuspiciousBefore(c: Config, states: seq<State>, replies: seq<Reply>, i: nat)
    requires i <= |replies| < |states|
  {
    exists k: nat :: k < i && Suspicious(c, states, replies, k)
  }

  /** How many repairs of the output in hand were asked for so far. */
  function Rounds(s: State): nat
    requires s.Waiting?
  {
    match s.mode case Analysing => 0 case Repairing(_, round) => round
  }

  /** A repair prompt is for the output of the last analysis, as many prompts ago as the number of its round. */
  lemma {:induction false} RepairsFollowTheirAnalysis(c: Config, states: seq<State>, replies: seq<Reply>, i: nat)
    requires Run(c, states, replies) && i < |states| && states[i].Waiting? && states[i].mode.Repairing?
    ensures var raw, round := states[i].mode.raw, states[i].mode.round;
      && 1 <= round <= i && states[i - round].mode.Analysing? && replies[i - round] == Exited(0, raw)
      && forall k :: i - round < k <= i ==> states[k].Waiting? && states[k].mode == Repairing(raw, k - (i - round))
  {
    assert i > 0;
    var s, r := states[i - 1], replies[i - 1];
    assert states[i] == Step(c, s, r);
    RepairStep(c, s, r);
    if s.mode.Repairing? {
      RepairsFollowTheirAnalysis(c, states, replies, i - 1);
    }
  }

  lemma RepairStep(c: Config, s: State, r: Reply)
    requires s.Waiting? && Step(c, s, r).Waiting? && Step(c, s, r).mode.Repairing?
    ensures s.mode.Analysing? ==> r.Exited? && Step(c, s, r).mode == Repairing(r.stdout, 1) && r.returncode == 0
    ensures s.mode.Repairing? ==> Step(c, s, r).mode == Repairing(s.mode.raw, s.mode.round + 1)
  {
  }

  /** The extra attempt is used up exactly after the first suspicious reply. */
  lemma {:induction false} ExtraUsedIffSuspicious(c: Config, states: seq<State>, replies: seq<Reply>, i: nat)
    requires Run(c, states, replies) && i < |states| && states[i].Waiting?
    ensures states[i].extraUsed <==> SuspiciousBefore(c, states, replies, i)
  {
    if i > 0 {
      ExtraUsedIffSuspicious(c, states, replies, i - 1);
      assert states[i] == Step(c, states[i - 1], replies[i - 1]);
      assert states[i].extraUsed <==> states[i - 1].extraUsed || Suspicious(c, states, replies, i - 1);
    }
  }

  /** How many analysis prompts there were up to the one in hand, and how many there may be. */
  lemma AttemptsAreCounted(c: Config, states: seq<State>, replies: seq<Reply>, i: nat)
    requires Run(c, states, replies) && i < |states| && states[i].Waiting?
    ensures states[i].attempt + 1 == Analyses(states[..i + 1])
    ensures states[i].total == c.retryTimes + (if SuspiciousBefore(c, states, replies, i) then 2 else 1)
    ensures 1 <= Analyses(states[..i + 1]) <= states[i].total
  {
    assert Run(c, states[..i + 1], replies[..i]);
    PromptsAreBounded(c, states[..i + 1], replies[..i]);
    ExtraUsedIffSuspicious(c, states, replies, i);
  }

  /** Without retries left from the start nothing is asked; otherwise an analysis is. */
  lemma StartsWithAnAnalysis(c: Config, states: seq<State>, replies: seq<Reply>)
    requires Run(c, states, replies)
    ensures states[0] == Ended(Raised) <==> c.retryTimes < 0
    ensures states[0].Waiting? <==> c.retryTimes >= 0
    ensures states[0].Waiting? ==> states[0].mode.Analysing?
  {
  }

  /**
     What follows reply `i`, in each case exactly when. A result is returned if the reply parses to it,
     unless it is the first suspicious one. Another analysis follows a first suspicious reply, and a
     failed analysis while attempts are left. A repair follows an output that does not parse while
     rounds are left. The run fails on all else.
   */
  lemma EveryReplyDecides(c: Config, states: seq<State>, replies: seq<Reply>, i: nat)
    requires Run(c, states, replies) && i < |replies|
    ensures var reply, next, analysing := replies[i], states[i + 1], states[i].mode.Analysing?;
      var suspicious := Suspicious(c, states, replies, i) && !SuspiciousBefore(c, states, replies, i);
      var attemptsLeft := Analyses(states[..i + 1]) <
        c.retryTimes + (if SuspiciousBefore(c, states, replies, i) then 2 else 1);
      && (forall result :: next == Ended(Ok(result)) <==>
            Gives(c, reply, result) && !suspicious && (analysing ==> c.formatRetryTimes >= 0))
      && (next.Waiting? && next.mode.Analysing? <==> suspicious || (analysing && Fails(reply) && attemptsLeft))
      && (next.Waiting? && next.mode.Repairing? <==>
            GivesNothing(c, reply, Unparsable) && Rounds(states[i]) < c.formatRetryTimes)
      && (next == Ended(Raised) <==>
            || reply.Broke?
            || (Fails(reply) && (analysing ==> !attemptsLeft))
            || GivesNothing(c, reply, Unrepairable)
            || (GivesNothing(c, reply, Unparsable) && Rounds(states[i]) >= c.formatRetryTimes)
            || (!Fails(reply) && analysing && c.formatRetryTimes < 0))
  {
    AttemptsAreCounted(c, states, replies, i);
    ExtraUsedIffSuspicious(c, states, replies, i);
  }

  /** A run so far, with the number of prompts of each kind. */
  ghost predicate Counted(c: Config, states: seq<State>, replies: seq<Reply>, s: State, analyses: int, repairs: int) {
    Run(c, states, replies) && states[|replies|] == s && Analyses(states) == analyses && Repairs(states) == repairs
  }

  lemma OneMoreReply(c: Config, states: seq<State>, replies: seq<Reply>, s: State, analyses: int, repairs: int,
    r: Reply)
    requires Counted(c, states, replies, s, analyses, repairs) && s.Waiting?
    ensures var s' := Step(c, s, r);
      Counted(c, states + [s'], replies + [r], s', analyses + (if s'.Waiting? && s'.mode.Analysing? then 1 else 0),
              repairs + (if s'.Waiting? && s'.mode.Repairing? then 1 else 0))
  {
    var states' := states + [Step(c, s, r)];
    assert states'[..|states|] == states;
  }

  /** An output that needs all repairs brings the machine to the last of them. */
  lemma RepairsAreUsedUp(c: Config, states: seq<State>, replies: seq<Reply>, s: State, analyses: int, repairs: int,
      bad: string)
    returns (states': seq<State>, replies': seq<Reply>)
    requires Counted(c, states, replies, s, analyses, repairs) && s.Waiting? && s.mode.Analysing?
    requires c.formatRetryTimes >= 1 && c.parse(bad) == Unparsable
    ensures Counted(c, states', replies', s.(mode := Repairing(bad, c.formatRetryTimes)),
                    analyses, repairs + c.formatRetryTimes)
  {
    OneMoreReply(c, states, replies, s, analyses, repairs, Exited(0, bad));
    states', replies' := states + [s.(mode := Repairing(bad, 1))], replies + [Exited(0, bad)];
    var round := 1;
    while round < c.formatRetryTimes
      invariant 1 <= round <= c.formatRetryTimes
      invariant Counted(c, states', replies', s.(mode := Repairing(bad, round)), analyses, repairs + round)
    {
      OneMoreReply(c, states', replies', s.(mode := Repairing(bad, round)), analyses, repairs + round, Exited(0, bad));
      states', replies' := states' + [s.(mode := Repairing(bad, round + 1))], replies' + [Exited(0, bad)];
      round := round + 1;
    }
  }

  /**
     Both bounds are reached in one run: failures, a suspicious empty result after all repairs, and a
     second output beyond repair.
   */
  lemma BoundsAreReached(c: Config, bad: string, empty: string) returns (states: seq<State>, replies: seq<Reply>)
    requires c.retryTimes >= 0 && c.formatRetryTimes >= 1
    requires c.parse(bad) == Unparsable && c.announces(bad) && c.parse(empty).Parsed?
    requires c.parse(empty).result.findings == 0
    ensures Counted(c, states, replies, Ended(Raised), c.retryTimes + 2, 2 * c.formatRetryTimes)
  {
    var total := c.retryTimes + 1;
    states, replies := [Start(c)], [];
    assert states[..0] == [];
    var k := 0;
    while k < c.retryTimes
      invariant 0 <= k <= c.retryTimes
      invariant Counted(c, states, replies, Waiting(k, total, false, Analysing), k + 1, 0)
    {
      OneMoreReply(c, states, replies, Waiting(k, total, false, Analysing), k + 1, 0, Exited(1, ""));
      states, replies := states + [Waiting(k + 1, total, false, Analysing)], replies + [Exited(1, "")];
      k := k + 1;
    }
    states, replies := RepairsAreUsedUp(c, states, replies, Waiting(k, total, false, Analysing), k + 1, 0, bad);
    OneMoreReply(c, states, replies, Waiting(k, total, false, Repairing(bad, c.formatRetryTimes)), k + 1,
      c.formatRetryTimes, Exited(0, empty));
    var again := Waiting(k + 1, total + 1, true, Analysing);
    states, replies := states + [again], replies + [Exited(0, empty)];
    states, replies := RepairsAreUsedUp(c, states, replies, again, k + 2, c.formatRetryTimes, bad);
    OneMoreReply(c, states, replies, again.(mode := Repairing(bad, c.formatRetryTimes)), k + 2, 2 * c.formatRetryTimes,
      Exited(0, bad));
    states, replies := states + [Ended(Raised)], replies + [Exited(0, bad)];
  }

  // ------------------------------------------------------------------- the method

  /** The run so far: the first `n` replies led to state `s`. */
  ghost predicate Reached(c: Config, reply: nat -> Reply, n: nat, states: seq<State>, s: State) {
    |states| == n + 1 && Run(c, states, seq(n, i requires 0 <= i < n => reply(i))) && states[n] == s
  }

  lemma ReachNext(c: Config, reply: nat -> Reply, n: nat, states: seq<State>, s: State)
    requires Reached(c, reply, n, states, s) && s.Waiting?
    ensures Reached(c, reply, n + 1, states + [Step(c, s, reply(n))], Step(c, s, reply(n)))
  {
    var replies := seq(n, i requires 0 <= i < n => reply(i));
    var more := seq(n + 1, i requires 0 <= i < n + 1 => reply(i));
    var states' := states + [Step(c, s, reply(n))];
    forall i | 0 <= i < n + 1 ensures states'[i].Waiting? && states'[i + 1] == Step(c, states'[i], more[i]) {
      if i < n {
        assert replies[i] == more[i];
      }
    }
  }

  /** `reply(k)` is what prompt number `k` would come to. */
  method ParseWithRepairLoop(c: Config, reply: nat -> Reply, first: nat, raw: string,
      ghost attempt: int, ghost total: int, ghost extraUsed: bool, ghost before: seq<State>)
    returns (r: Result<(Analysis, nat)>, next: nat, ghost states: seq<State>)
    requires Reached(c, reply, first, before, FirstRead(c, attempt, total, extraUsed, raw))
    ensures next >= first
    ensures Reached(c, reply, next, states,
      match r
      case Raised => Ended(Raised)
      case Ok((result, round)) => Accept(c, attempt, total, extraUsed, raw, round, result))
  {
    var candidate := raw;
    next, states := first, before;
    var round := 0;
    while round < c.formatRetryTimes + 1
      invariant 0 <= round && (c.formatRetryTimes >= 0 ==> round <= c.formatRetryTimes) && next >= first
      invariant Reached(c, reply, next, states,
        if c.formatRetryTimes < 0 then Ended(Raised) else Read(c, attempt, total, extraUsed, raw, candidate, round))
      decreases c.formatRetryTimes + 1 - round
    {
      var parsed := c.parse(candidate);
      match parsed
      case Parsed(result) =>
        return Ok((result, round)), next, states;
      case Unrepairable =>
        return Raised, next, states;
      case Unparsable =>
        if round >= c.formatRetryTimes {
          break;
        }
        ghost var s := Waiting(attempt, total, extraUsed, Repairing(raw, round + 1));
        var completed := reply(next);
        ReachNext(c, reply, next, states, s);
        states := states + [Step(c, s, completed)];
        next := next + 1;
        if completed.Broke? || completed.returncode != 0 {
          return Raised, next, states;
        }
        candidate := completed.stdout;
        round := round + 1;
    }
    r := Raised;
  }

  /** The loops follow the machine to its end; so they end, within the bounds. */
  method Analyze(c: Config, reply: nat -> Reply) returns (r: Result<Analysis>, prompts: nat)
    ensures prompts <= Max(0, c.retryTimes + 2) + 2 * Max(0, c.formatRetryTimes)
    ensures exists states :: Reached(c, reply, prompts, states, Ended(r))
    ensures r.Ok? ==> prompts > 0 && reply(prompts - 1).Exited? && c.parse(reply(prompts - 1).stdout) == Parsed(r.value)
    ensures c.retryTimes < 0 ==> r == Raised && prompts == 0
    ensures c.retryTimes >= 0 && c.formatRetryTimes >= 0 ==>
      forall result :: Gives(c, reply(0), result) ==> r == Ok(result) && prompts == 1
  {
    var extraUsed, total, attempt := false, c.retryTimes + 1, 0;
    prompts := 0;
    ghost var states := [Start(c)];
    var done := false;
    r := Raised;
    while attempt < total
      invariant done ==> Reached(c, reply, prompts, states, Ended(r))
      invariant !done ==> r == Raised && Reached(c, reply, prompts, states, Ask(attempt, total, extraUsed))
      decreases !done, !extraUsed, total - attempt
    {
      var completed := reply(prompts);
      ghost var s := Waiting(attempt, total, extraUsed, Analysing);
      ReachNext(c, reply, prompts, states, s);
      states := states + [Step(c, s, completed)];
      prompts := prompts + 1;
      if completed.Broke? {
        done := true;
        break;
      }
      if completed.returncode == 0 {
        var parsed;
        parsed, prompts, states :=
          ParseWithRepairLoop(c, reply, prompts, completed.stdout, attempt, total, extraUsed, states);
        if parsed.Raised? {
          done := true;
          break;
        }
        var (result, repairsUsed) := parsed.value;
        if !extraUsed && SuspiciousEmptyRepairResult(c, completed.stdout, repairsUsed, result) {
          extraUsed, total, attempt := true, total + 1, attempt + 1;
          continue;
        }
        r, done := Ok(result), true;
        break;
      }
      attempt := attempt + 1;
    }
    ghost var replies := seq(prompts, i requires 0 <= i < prompts => reply(i));
    PromptsAreBounded(c, states, replies);
    EveryReplyAnswersAPrompt(c, states, replies);
    if r.Ok? {
      ResultIsTheLastOutput(c, states, replies);
    }
    FirstAnswerCounts(c, reply, prompts, states, r);
  }

  /** A first output that parses is the result. */
  lemma FirstAnswerCounts(c: Config, reply: nat -> Reply, n: nat, states: seq<State>, r: Result<Analysis>)
    requires Reached(c, reply, n, states, Ended(r))
    ensures c.retryTimes < 0 ==> r == Raised && n == 0
    ensures c.retryTimes >= 0 && c.formatRetryTimes >= 0 ==>
      forall result :: Gives(c, reply(0), result) ==> r == Ok(result) && n == 1
  {
    var replies := seq(n, i requires 0 <= i < n => reply(i));
    StartsWithAnAnalysis(c, states, replies);
    if c.retryTimes >= 0 {
      assert n > 0 && replies[0] == reply(0) && states[1] == Step(c, states[0], replies[0]);
    }
  }
}
