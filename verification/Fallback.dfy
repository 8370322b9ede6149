/** One turn over a list of candidate models, with fallback from a model that cannot be used to the next. */
module Fallback {
  import opened Basics
  import opened Routing

  /** `refused` stands for a connection-refused marker anywhere in the error object. */
  datatype TurnResult = TurnResult(cancelled: bool, fallbackEligible: bool, fallbackReason: Option<Reason>,
    refused: bool, text: string)

  predicate ShouldSkipProviderAfterFailure(provider: string, result: TurnResult): (skip: bool)
    ensures skip ==> provider != ""
  {
    provider == "llm-proxy" && result.fallbackReason == Some(ProviderError) && result.refused
  }

  /**
     `providers[i]` is the provider named in model id `i`, `results[i]` what model `i` gives if it is
     tried, `times[i]` when it is marked, if it is.
   */
  datatype Turn = Turn(models: seq<string>, providers: seq<string>, results: seq<TurnResult>, times: seq<int>) {
    ghost predicate Valid() {
      && |models| == |providers| == |results| == |times|
      && forall i, j :: 0 <= i < j < |times| ==> times[i] <= times[j]
    }
  }

  function TurnOver(models: seq<string>, results: seq<TurnResult>, times: seq<int>): (t: Turn)
    ensures t.models == models && t.results == results && t.times == times && |t.providers| == |models|
    ensures forall i :: 0 <= i < |models| ==> t.providers[i] == ModelProvider(models[i])
  {
    Turn(models, seq(|models|, i requires 0 <= i < |models| => ModelProvider(models[i])), results, times)
  }

  /** The reason why model `i` is marked, if it is. */
  function MarkReason(t: Turn, i: nat, tried: bool): Reason
    requires t.Valid() && i < |t.models|
  {
    if tried then FallbackReason(t.results[i]) else ProviderError
  }

  /** Trying model `k` drops the provider that model `i` also belongs to. */
  ghost predicate Drops(t: Turn, k: nat, i: nat)
    requires t.Valid() && k < |t.models| && i < |t.models|
  {
    t.providers[k] == t.providers[i]
    && ShouldSkipProviderAfterFailure(t.providers[k], t.results[k])
  }

  /** The turn goes on after model `i` was tried. */
  ghost predicate FallsBack(t: Turn, i: nat)
    requires t.Valid() && i < |t.models|
  {
    !t.results[i].cancelled && t.results[i].fallbackEligible && i + 1 < |t.models|
  }

  ghost predicate Rising(s: seq<nat>) { forall i, j :: 0 <= i < j < |s| ==> s[i] < s[j] }

  /**
     What the first `n` models come to: which were tried, in order; none of a dropped provider, and
     all others; and each but the last, or each, left the turn going on.
   */
  ghost predicate Tried(t: Turn, n: nat, tried: seq<nat>)
    requires t.Valid() && n <= |t.models|
  {
    && Rising(tried)
    && (forall i :: 0 <= i < |tried| ==> tried[i] < n)
    && (forall i: nat :: i < n ==> (i in tried <==> !(exists k :: k in tried && k < i && Drops(t, k, i))))
  }

  /**
     The models tried in a whole turn that leaves the first `n` models marked: it ends with the
     first one tried from which it does not fall back, or with all models marked.
   */
  ghost predicate Legal(t: Turn, n: nat, tried: seq<nat>)
    requires t.Valid()
  {
    && n <= |t.models| && tried != [] && Tried(t, Min(n + 1, |t.models|), tried)
    && (forall k :: 0 <= k < |tried| - 1 ==> FallsBack(t, tried[k]))
    && (var last := tried[|tried| - 1]; n == if FallsBack(t, last) then |t.models| else last)
  }

  /** Such a turn returns what the last model tried gave. */
  ghost predicate Returns(t: Turn, n: nat, tried: seq<nat>, result: TurnResult)
    requires t.Valid()
  {
    Legal(t, n, tried) && result == t.results[tried[|tried| - 1]]
  }

  /** The marks of the first `n` models. */
  ghost function Marks(t: Turn, tried: seq<nat>, n: nat): seq<Mark>
    requires t.Valid() && n <= |t.models|
  {
    seq(n, i requires 0 <= i < n => NewMark(t.models[i], MarkReason(t, i, i in tried), None, t.times[i]))
  }

  /** A model that was tried has dropped the provider. */
  ghost predicate Dropped(t: Turn, tried: seq<nat>, provider: string)
    requires t.Valid() && forall k :: 0 <= k < |tried| ==> tried[k] < |t.models|
  {
    exists k :: 0 <= k < |tried| && t.providers[tried[k]] == provider
      && ShouldSkipProviderAfterFailure(provider, t.results[tried[k]])
  }

  /** The state of the loop after `n` models. */
  ghost predicate Loop(t: Turn, n: nat, tried: seq<nat>, failedProviders: set<string>)
    requires t.Valid() && n <= |t.models|
  {
    && Tried(t, n, tried) && (n > 0 ==> tried != []) && (forall k :: 0 <= k < |tried| ==> FallsBack(t, tried[k]))
    && "" !in failedProviders && (forall p :: p in failedProviders <==> Dropped(t, tried, p))
  }

  lemma MarksStep(t: Turn, tried: seq<nat>, n: nat)
    requires t.Valid() && n < |t.models|
    ensures Marks(t, tried, n + 1) == Marks(t, tried, n)
      + [NewMark(t.models[n], MarkReason(t, n, n in tried), None, t.times[n])]
  {
  }

  lemma PassOver(t: Turn, n: nat, tried: seq<nat>, failedProviders: set<string>)
    requires t.Valid() && n < |t.models| && Loop(t, n, tried, failedProviders)
    requires t.providers[n] in failedProviders
    ensures Loop(t, n + 1, tried, failedProviders)
    ensures Marks(t, tried, n + 1) == Marks(t, tried, n) + [NewMark(t.models[n], ProviderError, None, t.times[n])]
  {
    var k :| 0 <= k < |tried| && t.providers[tried[k]] == t.providers[n]
      && ShouldSkipProviderAfterFailure(t.providers[n], t.results[tried[k]]);
    assert tried[k] in tried && Drops(t, tried[k], n);
    assert n !in tried;
    MarksStep(t, tried, n);
  }

  lemma TryNext(t: Turn, n: nat, tried: seq<nat>, failedProviders: set<string>)
    requires t.Valid() && n < |t.models| && Loop(t, n, tried, failedProviders)
    requires t.providers[n] !in failedProviders
    ensures Tried(t, n + 1, tried + [n])
  {
    forall k | k in tried && Drops(t, k, n) ensures false {
      var i :| 0 <= i < |tried| && tried[i] == k;
      assert Dropped(t, tried, t.providers[n]);
    }
    TriedStep(t, n, tried);
  }

  lemma TryAndStop(t: Turn, n: nat, tried: seq<nat>, failedProviders: set<string>)
    requires t.Valid() && n < |t.models| && Loop(t, n, tried, failedProviders) && !FallsBack(t, n)
    requires t.providers[n] !in failedProviders
    ensures Legal(t, n, tried + [n]) && Marks(t, tried + [n], n) == Marks(t, tried, n)
  {
    TryNext(t, n, tried, failedProviders);
    MarksExtend(t, tried, n);
  }

  lemma TryAndGoOn(t: Turn, n: nat, tried: seq<nat>, failedProviders: set<string>, failedProviders': set<string>)
    requires t.Valid() && n < |t.models| && Loop(t, n, tried, failedProviders) && FallsBack(t, n)
    requires t.providers[n] !in failedProviders
    requires var p := t.providers[n];
      failedProviders' == failedProviders + (if ShouldSkipProviderAfterFailure(p, t.results[n]) then {p} else {})
    ensures Loop(t, n + 1, tried + [n], failedProviders')
    ensures Marks(t, tried + [n], n + 1) == Marks(t, tried, n)
      + [NewMark(t.models[n], MarkReason(t, n, true), None, t.times[n])]
  {
    var tried' := tried + [n];
    TryNext(t, n, tried, failedProviders);
    MarksExtend(t, tried, n);
    assert n in tried';
    MarksStep(t, tried', n);
    forall p ensures p in failedProviders' <==> Dropped(t, tried', p) {
      if Dropped(t, tried, p) {
        var k :| 0 <= k < |tried| && t.providers[tried[k]] == p
          && ShouldSkipProviderAfterFailure(p, t.results[tried[k]]);
        assert tried'[k] == tried[k];
      }
      assert tried'[|tried|] == n;
    }
  }

  /** The variables of the loop. */
  datatype Progress = Progress(tried: seq<nat>, failedProviders: set<string>, marks: seq<Mark>, ongoing: bool)

  function FallbackReason(r: TurnResult): Reason {
    if r.fallbackReason.Some? && r.fallbackReason.value != Blank then r.fallbackReason.value else ProviderError
  }

  /** Passing over model `n`, or falling back from it. */
  ghost function Advance(t: Turn, n: nat, p: Progress): Progress
    requires t.Valid() && n < |t.models|
  {
    var provider := t.providers[n];
    if provider in p.failedProviders then
      p.(marks := p.marks + [NewMark(t.models[n], ProviderError, None, t.times[n])])
    else
      Progress(p.tried + [n],
               if ShouldSkipProviderAfterFailure(provider, t.results[n]) then p.failedProviders + {provider}
                 else p.failedProviders,
               p.marks + [NewMark(t.models[n], FallbackReason(t.results[n]), None, t.times[n])],
               p.ongoing && FallsBack(t, n))
  }

  ghost function After(t: Turn, n: nat): Progress
    requires t.Valid() && n <= |t.models|
  {
    if n == 0 then Progress([], {}, [], true) else Advance(t, n - 1, After(t, n - 1))
  }

  ghost predicate InLoop(t: Turn, n: nat, p: Progress)
    requires t.Valid() && n <= |t.models|
  {
    p.ongoing && Loop(t, n, p.tried, p.failedProviders) && p.marks == Marks(t, p.tried, n)
  }

  lemma ProgressStep(t: Turn, n: nat, p: Progress)
    requires t.Valid() && n < |t.models|
    requires InLoop(t, n, p) && Advance(t, n, p).ongoing
    ensures InLoop(t, n + 1, Advance(t, n, p))
  {
    if t.providers[n] in p.failedProviders {
      PassOver(t, n, p.tried, p.failedProviders);
    } else {
      TryAndGoOn(t, n, p.tried, p.failedProviders, Advance(t, n, p).failedProviders);
    }
  }

  lemma {:induction false} ProgressIs(t: Turn, n: nat)
    requires t.Valid() && n <= |t.models| && After(t, n).ongoing
    ensures InLoop(t, n, After(t, n))
  {
    if n == 0 {
      StartsInLoop(t);
    } else {
      AfterStep(t, n - 1);
      ProgressIs(t, n - 1);
      ProgressGoesOn(t, n - 1);
    }
  }

  lemma ProgressGoesOn(t: Turn, n: nat)
    requires t.Valid() && n < |t.models| && InLoop(t, n, After(t, n)) && After(t, n + 1).ongoing
    ensures InLoop(t, n + 1, After(t, n + 1))
  {
    AfterStep(t, n);
    ProgressStep(t, n, After(t, n));
  }

  lemma StartsInLoop(t: Turn)
    requires t.Valid()
    ensures InLoop(t, 0, After(t, 0))
  {
    assert Loop(t, 0, [], {});
  }

  lemma StopsHere(t: Turn, n: nat)
    requires t.Valid() && n < |t.models| && After(t, n).ongoing && t.providers[n] !in After(t, n).failedProviders
    requires !FallsBack(t, n)
    ensures var tried := After(t, n).tried + [n];
      Returns(t, n, tried, t.results[n]) && After(t, n).marks == Marks(t, tried, n)
  {
    ProgressIs(t, n);
    TryAndStop(t, n, After(t, n).tried, After(t, n).failedProviders);
  }

  function LastResult(t: Turn, tried: seq<nat>): Option<TurnResult> {
    if tried == [] || tried[|tried| - 1] >= |t.results| then None else Some(t.results[tried[|tried| - 1]])
  }

  lemma AllConsidered(t: Turn, p: Progress)
    requires t.Valid() && t.models != [] && After(t, |t.models|) == p && p.ongoing
    ensures LastResult(t, p.tried).Some?
    ensures Returns(t, |t.models|, p.tried, LastResult(t, p.tried).value) && p.marks == Marks(t, p.tried, |t.models|)
  {
    ProgressIs(t, |t.models|);
  }

  lemma AfterStep(t: Turn, n: nat)
    requires t.Valid() && n < |t.models|
    ensures After(t, n + 1) == Advance(t, n, After(t, n)) && (After(t, n + 1).ongoing ==> After(t, n).ongoing)
  {
  }

  lemma PassingOver(t: Turn, n: nat, p: Progress)
    requires t.Valid() && n < |t.models| && p == After(t, n) && t.providers[n] in p.failedProviders
    ensures After(t, n + 1) == p.(marks := p.marks + [NewMark(t.models[n], ProviderError, None, t.times[n])])
  {
  }

  lemma FallingBack(t: Turn, n: nat, p: Progress)
    requires t.Valid() && n < |t.models| && p == After(t, n) && t.providers[n] !in p.failedProviders && FallsBack(t, n)
    ensures After(t, n + 1) ==
      Progress(p.tried + [n],
               if ShouldSkipProviderAfterFailure(t.providers[n], t.results[n])
                 then p.failedProviders + {t.providers[n]} else p.failedProviders,
               p.marks + [NewMark(t.models[n], FallbackReason(t.results[n]), None, t.times[n])], p.ongoing)
  {
  }

  /** `n` is the number of models the turn leaves marked. */
  method TryModels(tracker: ModelHealthTracker, t: Turn) returns (result: TurnResult, tried: seq<nat>, n: nat)
    requires tracker.Valid() && t.Valid() && t.models != []
    requires forall i :: 0 <= i < |t.times| ==> tracker.clock <= t.times[i]
    modifies tracker
    ensures Returns(t, n, tried, result)
    ensures tracker.Valid() && tracker.log == old(tracker.log) + Marks(t, tried, n)
  {
    var failedProviders: set<string> := {};
    tried, n := [], 0;
    var last: Option<TurnResult> := None;
    ghost var marks: seq<Mark> := [];
    for index := 0 to |t.models|
      invariant n == index && After(t, index) == Progress(tried, failedProviders, marks, true)
      invariant "" !in failedProviders
      invariant last == LastResult(t, tried)
      invariant tracker.Valid() && tracker.log == old(tracker.log) + marks
      invariant index < |t.times| ==> tracker.clock <= t.times[index]
    {
      var model := t.models[index];
      var provider := t.providers[index];
      ghost var p := After(t, index);
      if provider != "" && provider in failedProviders {
        tracker.MarkUnhealthy(model, ProviderError, None, t.times[index]);
        marks := marks + [NewMark(model, ProviderError, None, t.times[index])];
        PassingOver(t, index, p);
        n := index + 1;
        continue;
      }
      var r := t.results[index];
      last := Some(r);
      if r.cancelled || !r.fallbackEligible || !(index + 1 < |t.models|) {
        StopsHere(t, index);
        tried := tried + [index];
        return r, tried, index;
      }
      var reason := if r.fallbackReason.Some? && r.fallbackReason.value != Blank then r.fallbackReason.value
        else ProviderError;
      tracker.MarkUnhealthy(model, reason, None, t.times[index]);
      marks := marks + [NewMark(model, reason, None, t.times[index])];
      if provider != "" && ShouldSkipProviderAfterFailure(provider, r) {
        failedProviders := failedProviders + {provider};
      }
      FallingBack(t, index, p);
      tried, n := tried + [index], index + 1;
    }
    AllConsidered(t, Progress(tried, failedProviders, marks, true));
    result := last.value;
  }

  /** The turn over these models, whose providers are those their ids name. */
  method RunTurn(tracker: ModelHealthTracker, models: seq<string>, results: seq<TurnResult>, times: seq<int>)
    returns (result: TurnResult, tried: seq<nat>, n: nat)
    requires tracker.Valid() && models != [] && |models| == |results| == |times|
    requires forall i, j :: 0 <= i < j < |times| ==> times[i] <= times[j]
    requires forall i :: 0 <= i < |times| ==> tracker.clock <= times[i]
    modifies tracker
    ensures Returns(TurnOver(models, results, times), n, tried, result)
    ensures tracker.Valid() && tracker.log == old(tracker.log) + Marks(TurnOver(models, results, times), tried, n)
    ensures !results[0].fallbackEligible || results[0].cancelled ==>
      result == results[0] && tried == [0] && tracker.log == old(tracker.log)
  {
    result, tried, n := TryModels(tracker, TurnOver(models, results, times));
    TurnFollowsItsResults(TurnOver(models, results, times), n, tried, result);
  }

  lemma TriedStep(t: Turn, n: nat, tried: seq<nat>)
    requires t.Valid() && n < |t.models| && Tried(t, n, tried)
    requires !(exists k :: k in tried && Drops(t, k, n))
    ensures Tried(t, n + 1, tried + [n])
  {
    var tried' := tried + [n];
    forall i: nat | i < n + 1 ensures i in tried' <==> !(exists k :: k in tried' && k < i && Drops(t, k, i)) {
      assert forall k :: k < n ==> (k in tried' <==> k in tried);
    }
  }

  lemma MarksExtend(t: Turn, tried: seq<nat>, n: nat)
    requires t.Valid() && n < |t.models|
    ensures Marks(t, tried + [n], n) == Marks(t, tried, n)
  {
    forall i: nat | i < n ensures i in tried + [n] <==> i in tried {
    }
  }

  /** Model `k` was refused the connection by the provider it shares with model `i`. */
  ghost predicate RefusedBefore(t: Turn, k: nat, i: nat)
    requires t.Valid() && k < |t.models| && i < |t.models|
  {
    t.providers[k] == t.providers[i] == "llm-proxy" && t.results[k].refused
      && t.results[k].fallbackReason == Some(ProviderError)
  }

  /**
     The first model is always tried; a model is passed over only behind a refused connection of its
     own provider, and then it is marked.
   */
  lemma PassedOverAreMarked(t: Turn, n: nat, tried: seq<nat>, result: TurnResult)
    requires t.Valid() && Returns(t, n, tried, result)
    ensures t.models != [] ==> tried[0] == 0
    ensures forall i: nat :: i < n && i !in tried ==>
      && Marks(t, tried, n)[i] == Mark(t.models[i], t.times[i], 900, ProviderError)
      && exists k :: k in tried && k < i && RefusedBefore(t, k, i)
  {
    if t.models != [] {
      assert 0 in tried;
    }
    forall i: nat | i < n && i !in tried
      ensures exists k :: k in tried && k < i && RefusedBefore(t, k, i)
    {
      var k :| k in tried && k < i && Drops(t, k, i);
    }
  }

  /**
     How a turn goes, told by what its models gave. All models tried but the last could not be used and
     none of these was cancelled. The turn ends with the last one tried, without marking it, if that one
     worked, was cancelled or stands at the end of the list; otherwise all models are marked.
   */
  lemma TurnFollowsItsResults(t: Turn, n: nat, tried: seq<nat>, result: TurnResult)
    requires t.Valid() && t.models != [] && Returns(t, n, tried, result)
    ensures var last := tried[|tried| - 1];
      && last < |t.models| && result == t.results[last]
      && (n == |t.models| <==> t.results[last].fallbackEligible && !t.results[last].cancelled && last + 1 < n)
      && (n == last || n == |t.models|)
    ensures Rising(tried) && tried[0] == 0
    ensures forall k :: 0 <= k < |tried| - 1 ==>
      t.results[tried[k]].fallbackEligible && !t.results[tried[k]].cancelled
    ensures forall i: nat :: i < |t.models| && i <= n ==>
      (i in tried <==> !(exists k :: k in tried && k < i && RefusedBefore(t, k, i)))
    ensures !t.results[0].fallbackEligible || t.results[0].cancelled ==>
      tried == [0] && n == 0 && Marks(t, tried, n) == []
  {
    assert 0 in tried;
    forall i: nat, k: nat | i < |t.models| && k < |t.models| ensures Drops(t, k, i) <==> RefusedBefore(t, k, i) {
    }
    assert forall k :: 0 <= k < |tried| - 1 ==> FallsBack(t, tried[k]);
  }

  /** The marks of a turn: the reason is the model's own if it was tried and gave one. */
  lemma MarksFollowResults(t: Turn, n: nat, tried: seq<nat>, i: nat)
    requires t.Valid() && i < n <= |t.models|
    ensures var m := Marks(t, tried, n)[i];
      && m.model == t.models[i] && m.at == t.times[i]
      && (i in tried && t.results[i].fallbackReason.Some? && t.results[i].fallbackReason.value != Blank ==>
            m.reason == t.results[i].fallbackReason.value)
      && (i !in tried || t.results[i].fallbackReason.None? || t.results[i].fallbackReason.value == Blank ==>
            m.reason == ProviderError)
      && m.cooldown == (if m.reason.RateLimit? then 120 else if m.reason.NoOutput? then 600 else 900)
  {
  }

  /** A turn that still ends in an availability error has no model left that it could have tried. */
  lemma FailureMeansExhausted(t: Turn, n: nat, tried: seq<nat>, result: TurnResult, i: nat)
    requires t.Valid() && Returns(t, n, tried, result) && result.fallbackEligible && !result.cancelled
    requires i < |t.models| && i !in tried
    ensures exists k :: k in tried && k < i && Drops(t, k, i)
  {
    var last := tried[|tried| - 1];
    assert last in tried;
  }

  /** The rules leave no choice: the models and their results fix which are tried. */
  lemma LegalTurnIsUnique(t: Turn, n: nat, a: seq<nat>, m: nat, b: seq<nat>)
    requires t.Valid() && n <= m <= |t.models| && Legal(t, n, a) && Legal(t, m, b)
    ensures n == m && a == b
  {
    var x, y := Min(n + 1, |t.models|), Min(m + 1, |t.models|);
    forall i: nat | i < x ensures i in a <==> i in b {
      SameUpTo(t, x, a, y, b, i);
    }
    var e, f := a[|a| - 1], b[|b| - 1];
    assert e in a && f in b;
    LastIsGreatest(b, e);
    if e < f {
      EarlierFallsBack(t, b, e);
    }
    SameElements(a, b);
  }

  lemma EarlierFallsBack(t: Turn, tried: seq<nat>, k: nat)
    requires t.Valid() && forall i :: 0 <= i < |tried| ==> tried[i] < |t.models|
    requires k in tried && k < tried[|tried| - 1] && forall i :: 0 <= i < |tried| - 1 ==> FallsBack(t, tried[i])
    ensures FallsBack(t, k)
  {
  }

  lemma LastIsGreatest(s: seq<nat>, k: nat)
    requires Rising(s) && k in s
    ensures k <= s[|s| - 1]
  {
  }

  lemma {:induction false} SameUpTo(t: Turn, n: nat, a: seq<nat>, m: nat, b: seq<nat>, i: nat)
    requires t.Valid() && i < n <= m <= |t.models| && Tried(t, n, a) && Tried(t, m, b)
    ensures i in a <==> i in b
  {
    forall k: nat | k < i ensures k in a <==> k in b {
      SameUpTo(t, n, a, m, b, k);
    }
  }

  lemma {:induction false} SameElements(a: seq<nat>, b: seq<nat>)
    requires Rising(a) && Rising(b) && forall k :: k in a <==> k in b
    ensures a == b
    decreases |a|
  {
    if a != [] && b != [] {
      var n, m := |a| - 1, |b| - 1;
      assert a[n] in a && b[m] in b;
      assert a[n] == b[m];
      forall k ensures k in a[..n] <==> k in b[..m] {
        assert k in a <==> k in a[..n] || k == a[n];
        assert k in b <==> k in b[..m] || k == b[m];
      }
      SameElements(a[..n], b[..m]);
    } else {
      HeadIsIn(a);
      HeadIsIn(b);
    }
  }
}
