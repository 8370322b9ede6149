/** Model health with cooldowns, and the selection of models from the provider chain. */
module Routing {
  import opened Basics

  // ----------------------------------------------------------------------- health

  /** The reasons the program gives for a mark; `Blank` is the empty one. */
  datatype Reason = Blank | ProviderAuthFailed | ModelNotFound | RateLimit | ModelDisabled | ModelUnavailable
    | ProviderError | NoOutput

  datatype Mark = Mark(model: string, at: int, cooldown: int, reason: Reason) {
    function Until(): int { at + cooldown }
  }

  function CooldownSeconds(reason: Reason, retryAfterSeconds: Option<int>): (r: int)
    ensures r > 0
    ensures retryAfterSeconds.Some? && retryAfterSeconds.value > 0 ==> r == retryAfterSeconds.value
    ensures retryAfterSeconds.None? || retryAfterSeconds.value <= 0 ==>
      r == match reason case Blank => 120 case RateLimit => 120 case NoOutput => 600 case _ => 900
  {
    if retryAfterSeconds.Some? && retryAfterSeconds.value > 0 then retryAfterSeconds.value
    else if reason.NoOutput? then 600
    else if reason != Blank && reason != RateLimit then 900
    else 120
  }

  /** The last mark of a model in the full history of marks. */
  function LastMark(log: seq<Mark>, model: string): Option<Mark> {
    if log == [] then None
    else if log[|log| - 1].model == model then Some(log[|log| - 1])
    else LastMark(log[..|log| - 1], model)
  }

  /** The answer that the history itself gives. */
  predicate HealthyIn(log: seq<Mark>, model: string, now: int) {
    match LastMark(log, model)
    case None => true
    case Some(m) => now >= m.Until()
  }

  /** Mark `i` is the last one of the model, and its cooldown is not over. */
  ghost predicate Cooling(log: seq<Mark>, model: string, now: int, i: nat)
    requires i < |log|
  {
    log[i].model == model && now < log[i].at + log[i].cooldown && forall j :: i < j < |log| ==> log[j].model != model
  }

  /**
     Only a mark that no later one of the same model replaces keeps it unhealthy, and only before its
     cooldown is over.
   */
  lemma {:induction false} UnhealthyIffLastMarkCools(log: seq<Mark>, model: string, now: int)
    ensures !HealthyIn(log, model, now) <==> exists i: nat :: i < |log| && Cooling(log, model, now, i)
  {
    if log != [] {
      var n := |log| - 1;
      var head := log[..n];
      UnhealthyIffLastMarkCools(head, model, now);
      if log[n].model == model {
        assert Cooling(log, model, now, n) <==> now < log[n].Until();
        forall i: nat | i < n ensures !Cooling(log, model, now, i) {
          assert log[n].model == model;
        }
      } else {
        forall i: nat | i < n ensures Cooling(log, model, now, i) <==> Cooling(head, model, now, i) {
          if Cooling(head, model, now, i) {
            forall j | i < j < |log| ensures log[j].model != model {
              assert j < n ==> head[j].model != model;
            }
          }
          if Cooling(log, model, now, i) {
            assert forall j :: i < j < n ==> head[j] == log[j];
          }
        }
      }
    }
  }

  class ModelHealthTracker {
    var unhealthyUntil: map<string, int>
    var reasons: map<string, Reason>
    ghost var log: seq<Mark>
    ghost var clock: int

    /** What was evicted had cooled down by the latest time seen; everything else is the last mark. */
    ghost predicate Valid()
      reads this
    {
      && unhealthyUntil.Keys == reasons.Keys
      && (forall m :: m in unhealthyUntil ==> LastMark(log, m).Some?)
      && (forall m :: m in unhealthyUntil ==>
            unhealthyUntil[m] == LastMark(log, m).value.Until() && reasons[m] == LastMark(log, m).value.reason)
      && (forall m :: m !in unhealthyUntil ==> HealthyIn(log, m, clock))
    }

    constructor ()
      ensures Valid() && log == []
    {
      unhealthyUntil, reasons, log, clock := map[], map[], [], 0;
    }

    method MarkUnhealthy(model: string, reason: Reason, retryAfterSeconds: Option<int>, now: int)
      requires Valid() && now >= clock
      modifies this
      ensures Valid() && clock == now
      ensures log == old(log) + [NewMark(model, reason, retryAfterSeconds, now)]
    {
      var cooldown := CooldownSeconds(reason, retryAfterSeconds);
      unhealthyUntil := unhealthyUntil[model := now + cooldown];
      reasons := reasons[model := if reason != Blank then reason else ModelUnavailable];
      log, clock := log + [NewMark(model, reason, retryAfterSeconds, now)], now;
      assert log[..|log| - 1] == old(log);
    }

    method IsHealthy(model: string, now: int) returns (healthy: bool)
      requires Valid() && now >= clock
      modifies this
      ensures Valid() && clock == now && log == old(log)
      ensures healthy == HealthyIn(log, model, now)
      ensures model in unhealthyUntil <==> !healthy
    {
      clock := now;
      if model !in unhealthyUntil {
        return true;
      }
      if now >= unhealthyUntil[model] {
        unhealthyUntil, reasons := unhealthyUntil - {model}, reasons - {model};
        return true;
      }
      return false;
    }

    method Status(model: string, now: int) returns (r: Option<(Reason, int)>)
      requires Valid() && now >= clock
      modifies this
      ensures Valid() && clock == now && log == old(log)
      ensures r == if HealthyIn(log, model, now) then None
                   else Some((GivenReason(LastMark(log, model).value), LastMark(log, model).value.Until()))
    {
      var healthy := IsHealthy(model, now);
      if healthy {
        return None;
      }
      return Some((if reasons[model] != Blank then reasons[model] else ModelUnavailable, unhealthyUntil[model]));
    }

    method Reset()
      requires Valid()
      modifies this
      ensures Valid() && clock == old(clock) && log == []
    {
      unhealthyUntil, reasons, log := map[], map[], [];
    }
  }

  function NewMark(model: string, reason: Reason, retryAfterSeconds: Option<int>, now: int): Mark {
    Mark(model, now, CooldownSeconds(reason, retryAfterSeconds), if reason != Blank then reason else ModelUnavailable)
  }

  function GivenReason(m: Mark): Reason { if m.reason != Blank then m.reason else ModelUnavailable }

  // -------------------------------------------------------------------- selection

  datatype Candidate = Candidate(provider: string, model: string)

  function OpencodeModelId(c: Candidate): (r: string)
    ensures c.model != "" ==> r != ""
  {
    if c.provider == "" || '/' in c.model then c.model else c.provider + "/" + c.model
  }

  function ProviderLocalModelId(provider: string, model: string): string {
    if provider + "/" <= model then AfterSlash(model) else model
  }

  /** Where the first slash is, or the length when there is none. */
  function SlashAt(s: string, from: nat): (r: nat)
    requires from <= |s|
    ensures from <= r <= |s| && (r < |s| ==> s[r] == '/') && forall i :: from <= i < r ==> s[i] != '/'
    decreases |s| - from
  {
    if from == |s| || s[from] == '/' then from else SlashAt(s, from + 1)
  }

  /** The text after the first slash. */
  function AfterSlash(s: string): string {
    var at := SlashAt(s, 0); if at == |s| then "" else s[at + 1..]
  }

  /** The text before the first slash, or nothing when there is none. */
  function ModelProvider(model: string): string {
    var at := SlashAt(model, 0); if at == |model| then "" else model[..at]
  }

  lemma SlashAfter(provider: string, rest: string)
    requires '/' !in provider
    ensures SlashAt(provider + "/" + rest, 0) == |provider|
  {
    var s := provider + "/" + rest;
    assert s[|provider|] == '/';
    assert forall i :: 0 <= i < |provider| ==> s[i] == provider[i];
  }

  /** A model id names its provider before the first slash, or no provider without one. */
  lemma ProviderIsBeforeTheSlash(provider: string, rest: string, plain: string)
    requires '/' !in provider && '/' !in plain
    ensures ModelProvider(provider + "/" + rest) == provider && AfterSlash(provider + "/" + rest) == rest
    ensures ModelProvider(plain) == ""
  {
    SlashAfter(provider, rest);
  }

  function CandidateModelIds(c: Candidate): set<string> {
    var local := ProviderLocalModelId(c.provider, c.model);
    {c.model, OpencodeModelId(c)} + (if local != "" then {local} else {})
  }

  /** No list of models for the provider, or the list has the model under one of its names. */
  predicate Offered(c: Candidate, available: Option<set<string>>) {
    available.None? || CandidateModelIds(c) * available.value != {}
  }

  /**
     A candidate is offered under its model's name with and without the provider, whichever way the
     chain writes it, and under nothing else; a name under another provider's is taken as it is.
   */
  lemma OfferedUnderEitherName(provider: string, model: string, other: string, available: set<string>)
    requires provider != "" && '/' !in provider && model != "" && '/' !in model
    requires '/' in other && !(provider + "/" <= other)
    ensures Offered(Candidate(provider, model), Some(available)) <==>
      model in available || provider + "/" + model in available
    ensures Offered(Candidate(provider, provider + "/" + model), Some(available)) <==>
      model in available || provider + "/" + model in available
    ensures Offered(Candidate(provider, other), Some(available)) <==> other in available
  {
    var full := provider + "/" + model;
    ProviderIsBeforeTheSlash(provider, model, model);
    assert full[|provider|] == '/';
    assert CandidateModelIds(Candidate(provider, model)) == {model, full};
    assert CandidateModelIds(Candidate(provider, full)) == {model, full};
    assert CandidateModelIds(Candidate(provider, other)) == {other};
    MeetsIff({model, full}, available);
    MeetsIff({other}, available);
  }

  lemma MeetsIff(ids: set<string>, available: set<string>)
    ensures ids * available != {} <==> exists id :: id in ids && id in available
  {
    if id :| id in ids && id in available {
      assert id in ids * available;
    }
  }

  /**
     One selection: the chain, which candidates were healthy when asked, and what the provider of
     candidate `i` answers if it is asked for its models at that candidate.
   */
  datatype Chain = Chain(candidates: seq<Candidate>, healthy: seq<bool>, answers: seq<Option<set<string>>>) {
    ghost predicate Valid() { |candidates| == |healthy| == |answers| }
  }

  /** The first healthy candidate of a provider is the one at which it is asked. */
  ghost predicate AskedAt(c: Chain, i: nat, at: nat)
    requires c.Valid() && i < |c.candidates|
  {
    && at <= i && c.healthy[at] && c.candidates[at].provider == c.candidates[i].provider
    && forall j :: 0 <= j < at && c.healthy[j] ==> c.candidates[j].provider != c.candidates[i].provider
  }

  ghost predicate Keeps(c: Chain, i: nat)
    requires c.Valid() && i < |c.candidates|
  {
    c.healthy[i] && exists at: nat :: AskedAt(c, i, at) && Offered(c.candidates[i], c.answers[at])
  }

  ghost function IfKept(c: Chain, i: nat): seq<Candidate>
    requires c.Valid() && i < |c.candidates|
  {
    if Keeps(c, i) then [c.candidates[i]] else []
  }

  /** The plain filter, in chain order, of the first `n` candidates. */
  ghost function Kept(c: Chain, n: nat): seq<Candidate>
    requires c.Valid() && n <= |c.candidates|
  {
    if n == 0 then [] else Kept(c, n - 1) + IfKept(c, n - 1)
  }

  /** What the cache holds after `n` candidates: the answer to the first question for each provider, and no others. */
  ghost predicate Cached(c: Chain, n: nat, cache: map<string, Option<set<string>>>)
    requires c.Valid() && n <= |c.candidates|
  {
    && (forall i :: 0 <= i < n && c.healthy[i] ==> c.candidates[i].provider in cache)
    && (forall p :: p in cache ==> exists at: nat ::
        at < n && AskedAt(c, at, at) && c.candidates[at].provider == p && cache[p] == c.answers[at])
  }

  lemma SkipStep(c: Chain, n: nat, cache: map<string, Option<set<string>>>)
    requires c.Valid() && n < |c.candidates| && !c.healthy[n] && Cached(c, n, cache)
    ensures Cached(c, n + 1, cache)
  {
  }

  lemma CacheStep(c: Chain, n: nat, cache: map<string, Option<set<string>>>, cache': map<string, Option<set<string>>>)
    requires c.Valid() && n < |c.candidates| && c.healthy[n] && Cached(c, n, cache)
    requires var p := c.candidates[n].provider; cache' == if p in cache then cache else cache[p := c.answers[n]]
    ensures Cached(c, n + 1, cache')
    ensures Keeps(c, n) <==> Offered(c.candidates[n], cache'[c.candidates[n].provider])
  {
    var p := c.candidates[n].provider;
    if p !in cache {
      assert AskedAt(c, n, n);
    }
    var at: nat :| at <= n && AskedAt(c, at, at) && c.candidates[at].provider == p && cache'[p] == c.answers[at];
    assert AskedAt(c, at, at) && c.healthy[at];
    assert AskedAt(c, n, at);
    forall other: nat | AskedAt(c, n, other) ensures other == at {
    }
  }

  /** The provider of some healthy candidate. */
  ghost predicate Needed(c: Chain, provider: string)
    requires c.Valid()
  {
    exists i :: 0 <= i < |c.candidates| && c.healthy[i] && c.candidates[i].provider == provider
  }

  lemma CacheIsComplete(c: Chain, cache: map<string, Option<set<string>>>)
    requires c.Valid() && Cached(c, |c.candidates|, cache)
    ensures forall p :: p in cache <==> Needed(c, p)
  {
    forall p | p in cache ensures Needed(c, p) {
      var at: nat :| at < |c.candidates| && AskedAt(c, at, at) && c.candidates[at].provider == p
        && cache[p] == c.answers[at];
      assert AskedAt(c, at, at) && c.healthy[at];
    }
  }

  /** What has been selected and asked for after some candidates, and the answers kept. */
  datatype Selection = Selection(selected: seq<Candidate>, asked: seq<string>, cache: map<string, Option<set<string>>>)

  function SelectNext(s: Selection, candidate: Candidate, healthy: bool, answer: Option<set<string>>): Selection {
    if !healthy then s
    else
      var s' := if candidate.provider in s.cache then s
                else Selection(s.selected, s.asked + [candidate.provider], s.cache[candidate.provider := answer]);
      if Offered(candidate, s'.cache[candidate.provider]) then s'.(selected := s'.selected + [candidate]) else s'
  }

  ghost function Selected(c: Chain, n: nat): Selection
    requires c.Valid() && n <= |c.candidates|
  {
    if n == 0 then Selection([], [], map[])
      else SelectNext(Selected(c, n - 1), c.candidates[n - 1], c.healthy[n - 1], c.answers[n - 1])
  }

  lemma {:induction false} EachProviderIsAskedOnce(c: Chain, n: nat)
    requires c.Valid() && n <= |c.candidates|
    ensures Distinct(Selected(c, n).asked) && forall p :: p in Selected(c, n).asked <==> p in Selected(c, n).cache
  {
    if n > 0 {
      EachProviderIsAskedOnce(c, n - 1);
    }
  }

  lemma SelectionStep(c: Chain, n: nat, s: Selection)
    requires c.Valid() && n < |c.candidates| && Cached(c, n, s.cache)
    ensures var s' := SelectNext(s, c.candidates[n], c.healthy[n], c.answers[n]);
      Cached(c, n + 1, s'.cache) && s'.selected == s.selected + IfKept(c, n)
  {
    var s' := SelectNext(s, c.candidates[n], c.healthy[n], c.answers[n]);
    if c.healthy[n] {
      CacheStep(c, n, s.cache, s'.cache);
    } else {
      SkipStep(c, n, s.cache);
      assert s.selected + [] == s.selected;
    }
  }

  lemma SelectedStep(c: Chain, n: nat)
    requires c.Valid() && n < |c.candidates|
    ensures Selected(c, n + 1) == SelectNext(Selected(c, n), c.candidates[n], c.healthy[n], c.answers[n])
    ensures Kept(c, n + 1) == Kept(c, n) + IfKept(c, n)
  {
  }

  lemma SelectedNext(c: Chain, n: nat, s: Selection, candidates: seq<Candidate>, times: seq<int>,
      answers: seq<Option<set<string>>>, log: seq<Mark>)
    requires n < |times| == |candidates| == |answers|
    requires c == ChainOf(candidates, times, answers, log) && Selected(c, n) == s
    ensures Selected(c, n + 1) ==
      SelectNext(s, candidates[n], HealthyIn(log, OpencodeModelId(candidates[n]), times[n]), answers[n])
  {
  }

  /** The cached selection is the plain filter. */
  lemma SelectionIsPlainFilter(c: Chain, n: nat)
    requires c.Valid() && n <= |c.candidates|
    ensures Selected(c, n).selected == Kept(c, n) && Cached(c, n, Selected(c, n).cache)
  {
    var k := 0;
    while k < n
      invariant k <= n && Selected(c, k).selected == Kept(c, k) && Cached(c, k, Selected(c, k).cache)
    {
      SelectionStep(c, k, Selected(c, k));
      SelectedStep(c, k);
      k := k + 1;
    }
  }

  lemma SelectionIsDone(c: Chain, s: Selection)
    requires c.Valid() && s == Selected(c, |c.candidates|)
    ensures s.selected == Kept(c, |c.candidates|) && Distinct(s.asked) && forall p :: p in s.asked <==> Needed(c, p)
  {
    SelectionIsPlainFilter(c, |c.candidates|);
    EachProviderIsAskedOnce(c, |c.candidates|);
    CacheIsComplete(c, Selected(c, |c.candidates|).cache);
  }

  ghost function ChainOf(candidates: seq<Candidate>, times: seq<int>, answers: seq<Option<set<string>>>, log: seq<Mark>)
      : (c: Chain)
    requires |times| == |candidates| == |answers|
    ensures c.Valid() && c.candidates == candidates && c.answers == answers
    ensures forall i ::
      0 <= i < |candidates| ==> c.healthy[i] == HealthyIn(log, OpencodeModelId(candidates[i]), times[i])
  {
    Chain(candidates, Healths(candidates, times, log), answers)
  }

  ghost function Healths(candidates: seq<Candidate>, times: seq<int>, log: seq<Mark>): seq<bool>
    requires |times| == |candidates|
  {
    seq(|candidates|, i requires 0 <= i < |candidates| => HealthyIn(log, OpencodeModelId(candidates[i]), times[i]))
  }

  /** The body of the loop. */
  method SelectOne(tracker: ModelHealthTracker, candidate: Candidate, time: int, answer: Option<set<string>>,
      selected: seq<Candidate>, asked: seq<string>, byProvider: map<string, Option<set<string>>>)
    returns (selected': seq<Candidate>, asked': seq<string>, byProvider': map<string, Option<set<string>>>)
    requires tracker.Valid() && tracker.clock <= time
    modifies tracker
    ensures tracker.Valid() && tracker.log == old(tracker.log) && tracker.clock == time
    ensures Selection(selected', asked', byProvider') ==
      SelectNext(Selection(selected, asked, byProvider), candidate,
                 HealthyIn(tracker.log, OpencodeModelId(candidate), time), answer)
  {
    selected', asked', byProvider' := selected, asked, byProvider;
    var healthy := tracker.IsHealthy(OpencodeModelId(candidate), time);
    if !healthy {
      return;
    }
    if candidate.provider !in byProvider {
      byProvider' := byProvider[candidate.provider := answer];
      asked' := asked + [candidate.provider];
    }
    var available := byProvider'[candidate.provider];
    if Offered(candidate, available) {
      selected' := selected + [candidate];
    }
  }

  /**
     `times` are the moments of the health checks, `answers` what the provider of each candidate
     answers if it is asked there. `asked` records the requests that are made.
   */
  method SelectCandidates(tracker: ModelHealthTracker, candidates: seq<Candidate>, times: seq<int>,
      answers: seq<Option<set<string>>>)
    returns (selected: seq<Candidate>, asked: seq<string>)
    requires tracker.Valid() && |times| == |candidates| == |answers|
    requires forall i :: 0 <= i < |times| ==> tracker.clock <= times[i]
    requires forall i, j :: 0 <= i < j < |times| ==> times[i] <= times[j]
    modifies tracker
    ensures tracker.Valid() && tracker.log == old(tracker.log)
    ensures selected == Kept(ChainOf(candidates, times, answers, tracker.log), |candidates|)
    ensures Distinct(asked) && forall p :: p in asked <==> Needed(ChainOf(candidates, times, answers, tracker.log), p)
  {
    ghost var c := ChainOf(candidates, times, answers, tracker.log);
    ghost var s;
    selected, asked, s := SelectAll(tracker, candidates, times, answers, c);
    SelectionIsDone(c, s);
  }

  method SelectAll(tracker: ModelHealthTracker, candidates: seq<Candidate>, times: seq<int>,
      answers: seq<Option<set<string>>>, ghost c: Chain)
    returns (selected: seq<Candidate>, asked: seq<string>, ghost s: Selection)
    requires tracker.Valid() && |times| == |candidates| == |answers|
    requires forall i :: 0 <= i < |times| ==> tracker.clock <= times[i]
    requires forall i, j :: 0 <= i < j < |times| ==> times[i] <= times[j]
    requires c == ChainOf(candidates, times, answers, tracker.log)
    modifies tracker
    ensures tracker.Valid() && tracker.log == old(tracker.log)
    ensures s == Selected(c, |candidates|) && s.selected == selected && s.asked == asked
  {
    var byProvider: map<string, Option<set<string>>> := map[];
    selected, asked := [], [];
    for n := 0 to |candidates|
      invariant tracker.Valid() && tracker.log == old(tracker.log)
      invariant n < |times| ==> tracker.clock <= times[n]
      invariant Selected(c, n) == Selection(selected, asked, byProvider)
    {
      SelectedNext(c, n, Selection(selected, asked, byProvider), candidates, times, answers, tracker.log);
      selected, asked, byProvider :=
        SelectOne(tracker, candidates[n], times[n], answers[n], selected, asked, byProvider);
    }
    s := Selection(selected, asked, byProvider);
  }

  /** Providers that answer the same whenever they are asked make the cache invisible. */
  lemma SteadyProvidersMakeAPlainFilter(c: Chain, i: nat)
    requires c.Valid() && i < |c.candidates|
    requires forall j, k ::
      0 <= j < k < |c.candidates| && c.candidates[j].provider == c.candidates[k].provider ==>
        c.answers[j] == c.answers[k]
    ensures Keeps(c, i) <==> c.healthy[i] && Offered(c.candidates[i], c.answers[i])
  {
    if c.healthy[i] {
      var at := FirstAsked(c, i, 0);
      assert AskedAt(c, i, at);
    }
  }

  lemma {:induction false} FirstAsked(c: Chain, i: nat, from: nat) returns (at: nat)
    requires c.Valid() && from <= i < |c.candidates| && c.healthy[i]
    requires forall j :: 0 <= j < from && c.healthy[j] ==> c.candidates[j].provider != c.candidates[i].provider
    ensures AskedAt(c, i, at)
    decreases i - from
  {
    if c.healthy[from] && c.candidates[from].provider == c.candidates[i].provider {
      at := from;
    } else {
      at := FirstAsked(c, i, from + 1);
    }
  }

  /** Nothing is kept twice or out of turn: the kept ones are the candidates at rising positions. */
  lemma {:induction false} KeptInChainOrder(c: Chain, n: nat) returns (at: seq<nat>)
    requires c.Valid() && n <= |c.candidates|
    ensures |at| == |Kept(c, n)|
    ensures forall k :: 0 <= k < |at| ==> at[k] < n && Keeps(c, at[k]) && Kept(c, n)[k] == c.candidates[at[k]]
    ensures forall k, l :: 0 <= k < l < |at| ==> at[k] < at[l]
    ensures forall i: nat :: i < n && Keeps(c, i) ==> i in at
  {
    at := [];
    if n > 0 {
      at := KeptInChainOrder(c, n - 1);
      if Keeps(c, n - 1) {
        at := at + [n - 1];
      }
    }
  }

  function Without(models: seq<string>, m: string): seq<string> {
    if models == [] then []
    else
      var n := |models| - 1;
      Without(models[..n], m) + (if models[n] != m then [models[n]] else [])
  }

  /** `others` are the models but `m`, each at its turn: `at` holds all their positions. */
  ghost predicate OthersAt(models: seq<string>, m: string, others: seq<string>, at: seq<nat>) {
    && |at| == |others|
    && (forall k :: 0 <= k < |at| ==> at[k] < |models| && models[at[k]] != m && others[k] == models[at[k]])
    && (forall k, l :: 0 <= k < l < |at| ==> at[k] < at[l])
    && (forall i: nat :: i < |models| && models[i] != m ==> i in at)
  }

  lemma OneModelMore(models: seq<string>, m: string, others: seq<string>, at: seq<nat>, next: string)
    requires OthersAt(models, m, others, at)
    ensures next == m ==> OthersAt(models + [next], m, others, at)
    ensures next != m ==> OthersAt(models + [next], m, others + [next], at + [|models|])
  {
    assert next != m ==> (at + [|models|])[|at|] == |models|;
  }

  lemma {:induction false} OthersKeepTheirOrder(models: seq<string>, m: string) returns (at: seq<nat>)
    ensures OthersAt(models, m, Without(models, m), at)
  {
    at := [];
    if models != [] {
      var n := |models| - 1;
      at := OthersKeepTheirOrder(models[..n], m);
      OneModelMore(models[..n], m, Without(models[..n], m), at, models[n]);
      assert models[..n] + [models[n]] == models;
      if models[n] != m {
        at := at + [n];
      } else {
        assert Without(models[..n], m) + [] == Without(models[..n], m);
      }
    }
  }

  /** The preferred model first, and then the selected ones in chain order. */
  method CandidateOpencodeModels(models: seq<string>, preferred: string) returns (r: seq<string>)
    ensures preferred != "" ==> r == [preferred] + Without(models, preferred)
    ensures preferred == "" ==> r == models
  {
    if preferred != "" {
      r := [preferred];
      for i := 0 to |models|
        invariant r == [preferred] + Without(models[..i], preferred)
      {
        assert models[..i + 1][..i] == models[..i];
        if models[i] != preferred {
          r := r + [models[i]];
        }
      }
      assert models[..|models|] == models;
    } else {
      r := models;
    }
  }
}
