/** Risk tiers and the reviewer plan. */
module Risk {
  import opened Basics

  datatype Specialist = Security | ApiContract | ConfigRelease | Performance

  datatype Reviewer = CorrectnessLight | Correctness | Special(specialist: Specialist)

  datatype FileSummary = FileSummary(path: string, changedLines: int, production: bool, ignored: bool, test: bool,
    bloat: bool)

  datatype Tier = SkippedTier | Light | Standard | Full

  datatype RiskReason =
    | NoChangedFiles | TestFilesOnly | BloatFilesOnly | IgnoredFilesOnly | NonProductionFilesOnly
    | ContextTruncated | ManyProductionFiles | LargeLineCount | LargeDiff | Trigger(specialist: Specialist)
    | SmallProductionDiff | StandardProductionDiff

  datatype RiskResult = RiskResult(tier: Tier, reasons: seq<RiskReason>, specialists: seq<Specialist>,
    contextTooLarge: bool)

  datatype PlanItem = PlanItem(reviewer: Reviewer, required: bool)

  const PRIORITY := [Security, ApiContract, ConfigRelease, Performance]

  function Production(files: seq<FileSummary>): (r: seq<FileSummary>)
    ensures |r| <= |files| && forall f :: f in r <==> f in files && f.production
  {
    if files == [] then [] else (if files[0].production then [files[0]] else []) + Production(files[1..])
  }

  function LineCount(files: seq<FileSummary>): int {
    if files == [] then 0 else files[0].changedLines + LineCount(files[1..])
  }

  /** Which specialists the text of a path triggers is left open. */
  ghost predicate Triggered(files: seq<FileSummary>, triggers: string -> set<Specialist>, s: Specialist) {
    exists f :: f in files && s in triggers(f.path)
  }

  ghost predicate AnyTriggered(files: seq<FileSummary>, triggers: string -> set<Specialist>) {
    exists s :: Triggered(files, triggers, s)
  }

  /** The triggered specialists, each once, in the fixed order of priority. */
  ghost predicate InPriorityOrder(r: seq<Specialist>, files: seq<FileSummary>, triggers: string -> set<Specialist>) {
    && (forall s :: s in r <==> Triggered(files, triggers, s))
    && (forall i, j :: 0 <= i < j < |r| ==> Rank(r[i]) < Rank(r[j]))
  }

  function Rank(s: Specialist): nat {
    match s case Security => 0 case ApiContract => 1 case ConfigRelease => 2 case Performance => 3
  }

  method SpecialistsForPaths(files: seq<FileSummary>, triggers: string -> set<Specialist>) returns (r: seq<Specialist>)
    ensures InPriorityOrder(r, files, triggers)
  {
    var ordered: seq<Specialist> := [];
    for i := 0 to |files|
      invariant forall s :: s in ordered <==> Triggered(files[..i], triggers, s)
    {
      ghost var before := ordered;
      for k := 0 to |PRIORITY|
        invariant forall s :: s in ordered <==> s in before || (s in triggers(files[i].path) && Rank(s) < k)
      {
        var name := PRIORITY[k];
        if name in triggers(files[i].path) && name !in ordered {
          ordered := ordered + [name];
        }
      }
      forall s ensures s in ordered <==> Triggered(files[..i + 1], triggers, s) {
        assert files[..i + 1] == files[..i] + [files[i]];
        assert files[i] in files[..i + 1];
      }
    }
    assert files[..|files|] == files;
    r := [];
    for k := 0 to |PRIORITY|
      invariant forall s :: s in r <==> s in ordered && Rank(s) < k
      invariant forall i, j :: 0 <= i < j < |r| ==> Rank(r[i]) < Rank(r[j])
    {
      if PRIORITY[k] in ordered {
        assert forall i :: 0 <= i < |r| ==> r[i] in r;
        r := r + [PRIORITY[k]];
      }
    }
  }

  function NonProductionSkipReason(files: seq<FileSummary>): RiskReason {
    if forall f :: f in files ==> f.test then TestFilesOnly
    else if forall f :: f in files ==> f.bloat then BloatFilesOnly
    else if forall f :: f in files ==> f.ignored && !f.test then IgnoredFilesOnly
    else NonProductionFilesOnly
  }

  /** A change that calls for all reviewers. */
  ghost predicate Heavy(files: seq<FileSummary>, triggers: string -> set<Specialist>, diffBytes: int, truncated: bool) {
    var production := Production(files);
    truncated || |production| > 30 || LineCount(production) > 800 || diffBytes > 500 * 1024
      || AnyTriggered(production, triggers)
  }

  ghost predicate Small(files: seq<FileSummary>, diffBytes: int) {
    var production := Production(files);
    |production| <= 5 && LineCount(production) <= 120 && diffBytes <= 80 * 1024
  }

  /** What the tier means. */
  ghost predicate TierMeans(r: RiskResult, files: seq<FileSummary>, triggers: string -> set<Specialist>, diffBytes: int,
      truncated: bool)
  {
    && (r.tier == SkippedTier <==> Production(files) == [])
    && (r.tier == Full <==> Production(files) != [] && Heavy(files, triggers, diffBytes, truncated))
    && (r.tier == Light <==>
        Production(files) != [] && !Heavy(files, triggers, diffBytes, truncated) && Small(files, diffBytes))
    && (r.contextTooLarge <==> Production(files) != [] && truncated)
    && (r.tier == Full ==> InPriorityOrder(r.specialists, Production(files), triggers))
    && (r.tier != Full ==> r.specialists == [])
    && r.reasons != []
  }

  method ClassifyRisk(files: seq<FileSummary>, triggers: string -> set<Specialist>, diffBytes: int, truncated: bool)
      returns (r: RiskResult)
    ensures TierMeans(r, files, triggers, diffBytes, truncated)
  {
    var production := Production(files);
    var count := LineCount(production);
    if files == [] {
      return RiskResult(SkippedTier, [NoChangedFiles], [], false);
    }
    if production == [] {
      return RiskResult(SkippedTier, [NonProductionSkipReason(files)], [], false);
    }
    var specialists := SpecialistsForPaths(production, triggers);
    HeadIsIn(specialists);
    var reasons: seq<RiskReason> := [];
    if truncated {
      reasons := reasons + [ContextTruncated];
    }
    if |production| > 30 {
      reasons := reasons + [ManyProductionFiles];
    }
    if count > 800 {
      reasons := reasons + [LargeLineCount];
    }
    if diffBytes > 500 * 1024 {
      reasons := reasons + [LargeDiff];
    }
    if specialists != [] {
      reasons := reasons + seq(|specialists|, i requires 0 <= i < |specialists| => Trigger(specialists[i]));
    }
    if truncated || reasons != [] {
      return RiskResult(Full, reasons, specialists, truncated);
    }
    if |production| <= 5 && count <= 120 && diffBytes <= 80 * 1024 {
      return RiskResult(Light, [SmallProductionDiff], [], false);
    }
    return RiskResult(Standard, [StandardProductionDiff], specialists, false);
  }

  function Items(specialists: seq<Specialist>, required: bool): seq<PlanItem> {
    seq(|specialists|, i requires 0 <= i < |specialists| => PlanItem(Special(specialists[i]), required))
  }

  function PlanReviewers(risk: RiskResult): seq<PlanItem> {
    match risk.tier
    case SkippedTier => []
    case Light => [PlanItem(CorrectnessLight, true)]
    case Full => [PlanItem(Correctness, true)] + Items(PRIORITY, true)
    case Standard =>
      var specialists := if |risk.specialists| > 2 then risk.specialists[..2] else risk.specialists;
      [PlanItem(Correctness, true)] + Items(specialists, false)
  }

  /**
     Whatever was changed, a review that is not skipped has a reviewer, every reviewer in it is
     required and none is asked twice: the optional reviewers of the standard tier never occur.
   */
  lemma EveryPlannedReviewerIsRequired(r: RiskResult, files: seq<FileSummary>, triggers: string -> set<Specialist>,
      diffBytes: int, truncated: bool)
    requires TierMeans(r, files, triggers, diffBytes, truncated)
    ensures PlanReviewers(r) == [] <==> Production(files) == []
    ensures forall item :: item in PlanReviewers(r) ==> item.required
    ensures Distinct(PlanReviewers(r))
    ensures Production(files) != [] ==>
      |PlanReviewers(r)| == if Heavy(files, triggers, diffBytes, truncated) then 5 else 1
  {
  }

  /** Who reviews: the light reviewer a small change, one reviewer a larger one, and all five a heavy one. */
  lemma ReviewersOfTheTier(r: RiskResult, files: seq<FileSummary>, triggers: string -> set<Specialist>,
      diffBytes: int, truncated: bool)
    requires TierMeans(r, files, triggers, diffBytes, truncated) && Production(files) != []
    ensures Heavy(files, triggers, diffBytes, truncated) ==>
      PlanReviewers(r) == [PlanItem(Correctness, true), PlanItem(Special(Security), true),
                           PlanItem(Special(ApiContract), true), PlanItem(Special(ConfigRelease), true),
                           PlanItem(Special(Performance), true)]
    ensures !Heavy(files, triggers, diffBytes, truncated) && Small(files, diffBytes) ==>
      PlanReviewers(r) == [PlanItem(CorrectnessLight, true)]
    ensures !Heavy(files, triggers, diffBytes, truncated) && !Small(files, diffBytes) ==>
      PlanReviewers(r) == [PlanItem(Correctness, true)]
  {
  }

  datatype Guard = GuardSkipped | GuardContextTooLarge | GuardReview

  function PrepareReviewGuard(risk: RiskResult): Guard {
    if risk.tier == SkippedTier then GuardSkipped else if risk.contextTooLarge then GuardContextTooLarge
      else GuardReview
  }

  /** A truncated context is never reviewed, and a change without production files is never failed for its size. */
  lemma GuardMeans(r: RiskResult, files: seq<FileSummary>, triggers: string -> set<Specialist>, diffBytes: int,
      truncated: bool)
    requires TierMeans(r, files, triggers, diffBytes, truncated)
    ensures PrepareReviewGuard(r) == GuardSkipped <==> Production(files) == []
    ensures PrepareReviewGuard(r) == GuardContextTooLarge <==> Production(files) != [] && truncated
    ensures PrepareReviewGuard(r) == GuardReview ==> PlanReviewers(r) != []
  {
  }
}
