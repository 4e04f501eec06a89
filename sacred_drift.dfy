/**
 * The drift classifier of `enhanced_drift_sacred.py`: recent git activity is
 * compared with the plan files stored for a project, approved or not, file paths are
 * counted against keyword rules taken from the plans, and the resulting
 * alignment score is turned into a drift status with recommendations.
 *
 * The git tracker's answer and the plan directory are inputs: the activity
 * is its commit count and its changed paths (in the set's iteration order),
 * and the directory is the list of its entries, each with the parsed JSON
 * document or none when it could not be read. Scores are exact reals.
 */
module SacredDrift {
  import opened Wrappers
  import opened Strings
  import Json

  // ---------------------------------------------------------------------
  // Status ladder
  // ---------------------------------------------------------------------

  datatype DriftStatus = Aligned | MinorDrift | ModerateDrift | CriticalViolation

  /** The enum's string value. */
  function StatusValue(s: DriftStatus): string {
    match s
    case Aligned => "aligned"
    case MinorDrift => "minor_drift"
    case ModerateDrift => "moderate_drift"
    case CriticalViolation => "critical_violation"
  }

  /** The detector's `alignment_thresholds` dictionary. */
  datatype Thresholds = Thresholds(critical: real, moderate: real, minor: real, aligned: real)

  const DefaultThresholds := Thresholds(0.3, 0.6, 0.8, 0.8)

  /**
   * `determine_status`: aligned from the 'aligned' threshold up, minor drift
   * from the 'minor' one, moderate drift from the 'moderate' one, critical
   * below that.
   */
  function DetermineStatus(t: Thresholds, score: real): (s: DriftStatus)
    ensures s == Aligned <==> score >= t.aligned
    ensures s == MinorDrift <==> t.minor <= score < t.aligned
    ensures s == ModerateDrift <==> t.moderate <= score < t.aligned && score < t.minor
    ensures s == CriticalViolation <==> score < t.aligned && score < t.minor && score < t.moderate
  {
    if score >= t.aligned then Aligned
    else if score >= t.minor then MinorDrift
    else if score >= t.moderate then ModerateDrift
    else CriticalViolation
  }

  /** With the detector's thresholds: aligned from 0.8, moderate drift in [0.6, 0.8), critical below 0.6. */
  lemma DefaultLadder(score: real)
    ensures DetermineStatus(DefaultThresholds, score) == Aligned <==> score >= 0.8
    ensures DetermineStatus(DefaultThresholds, score) == ModerateDrift <==> 0.6 <= score < 0.8
    ensures DetermineStatus(DefaultThresholds, score) == CriticalViolation <==> score < 0.6
  {
  }

  /** The 'minor' and 'aligned' thresholds coincide, so no score is classified as minor drift. */
  lemma MinorDriftUnreachable(score: real)
    ensures DetermineStatus(DefaultThresholds, score) != MinorDrift
  {
  }

  /** The 'critical' threshold is never consulted: any value of it gives the same status. */
  lemma CriticalThresholdIgnored(t: Thresholds, critical: real, score: real)
    ensures DetermineStatus(t.(critical := critical), score) == DetermineStatus(t, score)
  {
  }

  /**
   * The ladder the thresholds' own descriptions call for: critical below
   * 'critical', moderate drift below 'moderate', minor drift below 'minor',
   * aligned otherwise.
   */
  function IntendedStatus(t: Thresholds, score: real): (s: DriftStatus)
    ensures s == CriticalViolation <==> score < t.critical
    ensures s == ModerateDrift <==> t.critical <= score < t.moderate
    ensures s == MinorDrift <==> t.critical <= score && t.moderate <= score < t.minor
    ensures s == Aligned <==> t.critical <= score && t.moderate <= score && t.minor <= score
  {
    if score < t.critical then CriticalViolation
    else if score < t.moderate then ModerateDrift
    else if score < t.minor then MinorDrift
    else Aligned
  }

  /** Under the intended ladder every status is reached with the detector's thresholds, each on its own band. */
  lemma IntendedLadder(score: real)
    ensures IntendedStatus(DefaultThresholds, score) == CriticalViolation <==> score < 0.3
    ensures IntendedStatus(DefaultThresholds, score) == ModerateDrift <==> 0.3 <= score < 0.6
    ensures IntendedStatus(DefaultThresholds, score) == MinorDrift <==> 0.6 <= score < 0.8
    ensures IntendedStatus(DefaultThresholds, score) == Aligned <==> score >= 0.8
  {
  }

  /**
   * The two ladders part exactly on [0.3, 0.8): at 0.7 the code says moderate
   * drift where the thresholds say minor, at 0.5 critical where they say moderate.
   */
  lemma LaddersDisagree(score: real)
    ensures DetermineStatus(DefaultThresholds, score) != IntendedStatus(DefaultThresholds, score) <==> 0.3 <= score < 0.8
    ensures DetermineStatus(DefaultThresholds, 0.7) == ModerateDrift && IntendedStatus(DefaultThresholds, 0.7) == MinorDrift
    ensures DetermineStatus(DefaultThresholds, 0.5) == CriticalViolation && IntendedStatus(DefaultThresholds, 0.5) == ModerateDrift
  {
  }

  // ---------------------------------------------------------------------
  // Inputs and results
  // ---------------------------------------------------------------------

  /** The part of `GitActivity` the analysis reads. */
  datatype GitActivity = GitActivity(commitsCount: nat, filesChanged: seq<string>)

  /** An entry of the sacred plans directory; `data` is none when it could not be read or parsed. */
  datatype PlanFile = PlanFile(name: string, data: Option<Json.Value>)

  datatype Violation =
    | SeparationViolation(file: string)
    | NoSacredGuidance(files: seq<string>)
    | AnalysisError

  /** `DriftAnalysis` without the analysis time. */
  datatype DriftAnalysis = DriftAnalysis(
    projectId: string,
    status: DriftStatus,
    alignmentScore: real,
    violations: seq<Violation>,
    recommendations: seq<string>,
    sacredPlansChecked: seq<Json.Value>)

  /** The violation's "type" entry. */
  function ViolationType(v: Violation): string {
    match v
    case SeparationViolation(_) => "sacred_separation_violation"
    case NoSacredGuidance(_) => "no_sacred_guidance"
    case AnalysisError => "analysis_error"
  }

  /** The violation's "message" entry; the exception text of an analysis error is not modelled. */
  function ViolationMessage(v: Violation): string {
    match v
    case SeparationViolation(f) => "Sacred functionality detected in non-sacred file: " + f
    case NoSacredGuidance(fs) => "Changes detected in " + NatToString(|fs|) + " files but no sacred plans exist for guidance"
    case AnalysisError => ""
  }

  /** `str(v)` of a violation record, with every string in single quotes and unescaped. */
  function ViolationText(v: Violation): string {
    match v
    case SeparationViolation(f) =>
      "{'type': '" + ViolationType(v) + "', 'file': '" + f + "', 'message': '" + ViolationMessage(v) + "'}"
    case NoSacredGuidance(fs) =>
      "{'type': '" + ViolationType(v) + "', 'files': [" + Join(Quoted(fs), ", ") + "], 'message': '" + ViolationMessage(v) + "'}"
    case AnalysisError =>
      "{'type': '" + ViolationType(v) + "', 'message': '" + ViolationMessage(v) + "'}"
  }

  function Quoted(fs: seq<string>): (r: seq<string>)
    ensures |r| == |fs|
  {
    seq(|fs|, i requires 0 <= i < |fs| => "'" + fs[i] + "'")
  }

  /** The result of the `except` branch. */
  function ErrorAnalysis(projectId: string): (a: DriftAnalysis)
    ensures a.status == Aligned && a.alignmentScore == 0.0 && a.violations == [AnalysisError]
    ensures a.recommendations == ["Unable to perform drift analysis"] && a.sacredPlansChecked == []
  {
    DriftAnalysis(projectId, Aligned, 0.0, [AnalysisError], ["Unable to perform drift analysis"], [])
  }

  // ---------------------------------------------------------------------
  // Loading the project's plans
  // ---------------------------------------------------------------------

  predicate IsPlanFileName(name: string) {
    EndsWith(name, ".json") && StartsWith(name, "plan_")
  }

  /** A directory entry that is loaded as one of the project's plans. */
  predicate BelongsTo(f: PlanFile, projectId: string) {
    IsPlanFileName(f.name) && f.data.Some? && f.data.value.Object?
    && Json.Get(f.data.value.fields, "project_id") == Some(Json.Str(projectId))
  }

  /** `plan_data.get('plan_id', filename)`. */
  function CheckedId(fields: map<string, Json.Value>, name: string): Json.Value {
    Json.Get(fields, "plan_id").GetOr(Json.Str(name))
  }

  /** The plans loaded for the project, in directory order. */
  function ProjectPlans(files: seq<PlanFile>, projectId: string): (r: seq<map<string, Json.Value>>)
    ensures |r| <= |files|
    ensures forall k :: 0 <= k < |r| ==> Json.Get(r[k], "project_id") == Some(Json.Str(projectId))
    decreases |files|
  {
    if |files| == 0 then []
    else
      var f := files[|files| - 1];
      ProjectPlans(files[..|files| - 1], projectId)
      + (if BelongsTo(f, projectId) then [f.data.value.fields] else [])
  }

  /** The ids recorded in `sacred_plans_checked`, one per loaded plan. */
  function PlansChecked(files: seq<PlanFile>, projectId: string): (r: seq<Json.Value>)
    decreases |files|
  {
    if |files| == 0 then []
    else
      var f := files[|files| - 1];
      PlansChecked(files[..|files| - 1], projectId)
      + (if BelongsTo(f, projectId) then [CheckedId(f.data.value.fields, f.name)] else [])
  }

  /** Every plan loaded is one the directory holds for this project; one id is recorded per plan. */
  lemma {:induction false} ProjectPlansSpec(files: seq<PlanFile>, projectId: string)
    ensures |PlansChecked(files, projectId)| == |ProjectPlans(files, projectId)|
    ensures forall p :: p in ProjectPlans(files, projectId) <==>
      exists i :: 0 <= i < |files| && BelongsTo(files[i], projectId) && files[i].data.value.fields == p
    decreases |files|
  {
    if |files| > 0 {
      var front := files[..|files| - 1];
      var f := files[|files| - 1];
      ProjectPlansSpec(front, projectId);
      forall p
        ensures p in ProjectPlans(files, projectId) <==>
          exists i :: 0 <= i < |files| && BelongsTo(files[i], projectId) && files[i].data.value.fields == p
      {
        if p in ProjectPlans(files, projectId) && p in ProjectPlans(front, projectId) {
          var i :| 0 <= i < |front| && BelongsTo(front[i], projectId) && front[i].data.value.fields == p;
          assert files[i] == front[i];
        }
        if exists i :: 0 <= i < |files| && BelongsTo(files[i], projectId) && files[i].data.value.fields == p {
          var i :| 0 <= i < |files| && BelongsTo(files[i], projectId) && files[i].data.value.fields == p;
          if i < |front| {
            assert front[i] == files[i];
          }
        }
      }
    }
  }

  // ---------------------------------------------------------------------
  // Constraints taken from the plans
  // ---------------------------------------------------------------------

  /** `plan.get('content', '')` as lower-cased text; none when the value is not a string, where `.lower()` raises. */
  function PlanContent(plan: map<string, Json.Value>): (r: Option<string>)
    ensures r.Some? <==> "content" !in plan || plan["content"].Str?
  {
    match Json.Get(plan, "content")
    case None => Some("")
    case Some(v) => if v.Str? then Some(v.s) else None
  }

  /** The contents of all plans, or none when one of them is not text. */
  function Contents(plans: seq<map<string, Json.Value>>): (r: Option<seq<string>>)
    ensures r.Some? <==> forall i :: 0 <= i < |plans| ==> PlanContent(plans[i]).Some?
    ensures r.Some? ==> |r.value| == |plans| && forall i :: 0 <= i < |plans| ==> r.value[i] == PlanContent(plans[i]).value
  {
    if forall i :: 0 <= i < |plans| ==> PlanContent(plans[i]).Some?
    then Some(seq(|plans|, i requires 0 <= i < |plans| => PlanContent(plans[i]).value))
    else None
  }

  const SeparationTag := "sacred_separation"
  const CompatibilityTag := "backward_compatibility"
  const ChromaTag := "chromadb_storage"
  const ModularTag := "modular_architecture"

  /** The tags one plan contributes, in the order they are tested. */
  function TagsOf(content: string): seq<string> {
    var c := Lower(content);
    (if Contains(c, "sacred plans stored separately") then [SeparationTag] else [])
    + (if Contains(c, "backward compatibility") then [CompatibilityTag] else [])
    + (if Contains(c, "chromadb") then [ChromaTag] else [])
    + (if Contains(c, "modular components") then [ModularTag] else [])
  }

  /** The `sacred_constraints` list built over the plans. */
  function Constraints(contents: seq<string>): seq<string>
    decreases |contents|
  {
    if |contents| == 0 then []
    else Constraints(contents[..|contents| - 1]) + TagsOf(contents[|contents| - 1])
  }

  /** The keyword a tag stands for. */
  function Keyword(tag: string): string {
    if tag == SeparationTag then "sacred plans stored separately"
    else if tag == CompatibilityTag then "backward compatibility"
    else if tag == ChromaTag then "chromadb"
    else "modular components"
  }

  predicate IsTag(tag: string) {
    tag == SeparationTag || tag == CompatibilityTag || tag == ChromaTag || tag == ModularTag
  }

  lemma ConstraintsSnoc(contents: seq<string>, c: string)
    ensures Constraints(contents + [c]) == Constraints(contents) + TagsOf(c)
  {
    assert (contents + [c])[..|contents|] == contents;
  }

  /** The lower-cased content contains the tag's keyword. */
  predicate Mentions(content: string, tag: string) {
    Contains(Lower(content), Keyword(tag))
  }

  /** Some plan's content mentions the tag's keyword. */
  predicate SomeMentions(contents: seq<string>, tag: string) {
    exists i :: 0 <= i < |contents| && Mentions(contents[i], tag)
  }

  /** A tag is among the constraints exactly when some plan's lower-cased content contains its keyword. */
  lemma {:induction false} ConstraintsExact(contents: seq<string>, tag: string)
    requires IsTag(tag)
    ensures tag in Constraints(contents) <==> SomeMentions(contents, tag)
    decreases |contents|
  {
    if |contents| > 0 {
      var front := contents[..|contents| - 1];
      var last := contents[|contents| - 1];
      ConstraintsExact(front, tag);
      TagsOfExact(last, tag);
      ConstraintsStep(contents, tag);
      SomeMentionsStep(contents, tag);
    }
  }

  lemma ConstraintsStep(contents: seq<string>, tag: string)
    requires |contents| > 0
    ensures tag in Constraints(contents) <==>
      tag in Constraints(contents[..|contents| - 1]) || tag in TagsOf(contents[|contents| - 1])
  {
  }

  lemma SomeMentionsStep(contents: seq<string>, tag: string)
    requires |contents| > 0
    ensures SomeMentions(contents, tag) <==>
      SomeMentions(contents[..|contents| - 1], tag) || Mentions(contents[|contents| - 1], tag)
  {
    SomeLast(c => Mentions(c, tag), contents, contents[..|contents| - 1]);
  }

  /** Some element satisfies `P` exactly when some element of the front does or the last one does. */
  lemma SomeLast<T>(P: T -> bool, xs: seq<T>, front: seq<T>)
    requires |xs| > 0 && front == xs[..|xs| - 1]
    ensures (exists i :: 0 <= i < |xs| && P(xs[i])) <==>
      (exists i :: 0 <= i < |front| && P(front[i])) || P(xs[|xs| - 1])
  {
    if exists i :: 0 <= i < |xs| && P(xs[i]) {
      var i :| 0 <= i < |xs| && P(xs[i]);
      if i < |front| {
        assert front[i] == xs[i];
      }
    }
    if exists i :: 0 <= i < |front| && P(front[i]) {
      var i :| 0 <= i < |front| && P(front[i]);
      assert xs[i] == front[i];
    }
  }

  lemma TagsOfExact(content: string, tag: string)
    requires IsTag(tag)
    ensures tag in TagsOf(content) <==> Mentions(content, tag)
  {
  }

  /** Every constraint is one of the four tags. */
  lemma {:induction false} ConstraintsAreTags(contents: seq<string>)
    ensures forall k :: 0 <= k < |Constraints(contents)| ==> IsTag(Constraints(contents)[k])
    decreases |contents|
  {
    if |contents| > 0 {
      var front := contents[..|contents| - 1];
      ConstraintsAreTags(front);
      var a := Constraints(front);
      var b := TagsOf(contents[|contents| - 1]);
      assert forall k :: 0 <= k < |b| ==> IsTag(b[k]);
      assert Constraints(contents) == a + b;
    }
  }

  // ---------------------------------------------------------------------
  // Counting over changed paths
  // ---------------------------------------------------------------------

  /** A path showing sacred functionality outside `sacred_layer` and `sacred_plans`. */
  predicate IsSeparationViolation(file: string) {
    var f := Lower(file);
    Contains(f, "sacred") && !Contains(f, "sacred_layer") && !Contains(f, "sacred_plans")
  }

  /** The violations the separation rule reports, in path order. */
  function SeparationViolations(files: seq<string>): (r: seq<Violation>)
    ensures |r| <= |files|
    decreases |files|
  {
    if |files| == 0 then []
    else
      var f := files[|files| - 1];
      SeparationViolations(files[..|files| - 1]) + (if IsSeparationViolation(f) then [SeparationViolation(f)] else [])
  }

  /** Exactly the violating paths are reported, each as a separation violation. */
  lemma {:induction false} SeparationViolationsExact(files: seq<string>)
    ensures forall k :: 0 <= k < |SeparationViolations(files)| ==> SeparationViolations(files)[k].SeparationViolation?
    ensures forall f :: SeparationViolation(f) in SeparationViolations(files) <==> f in files && IsSeparationViolation(f)
    decreases |files|
  {
    if |files| > 0 {
      var front := files[..|files| - 1];
      var last := files[|files| - 1];
      SeparationViolationsExact(front);
      assert files == front + [last];
      var a := SeparationViolations(front);
      var b: seq<Violation> := if IsSeparationViolation(last) then [SeparationViolation(last)] else [];
      assert SeparationViolations(files) == a + b;
    }
  }

  /** A path in one of the sacred areas `sacred_layer`, `git_activity` or `drift`. */
  predicate InSacredArea(file: string) {
    var f := Lower(file);
    Contains(f, "sacred_layer") || Contains(f, "git_activity") || Contains(f, "drift")
  }

  /** `non_sacred_changes`: the paths outside the sacred areas, in order. */
  function NonSacred(files: seq<string>): (r: seq<string>)
    decreases |files|
  {
    if |files| == 0 then []
    else NonSacred(files[..|files| - 1]) + (if InSacredArea(files[|files| - 1]) then [] else [files[|files| - 1]])
  }

  /** The paths inside the sacred areas, in order. */
  function SacredFiles(files: seq<string>): (r: seq<string>)
    decreases |files|
  {
    if |files| == 0 then []
    else SacredFiles(files[..|files| - 1]) + (if InSacredArea(files[|files| - 1]) then [files[|files| - 1]] else [])
  }

  /** The sacred and non-sacred paths split the changed paths: membership is exact and the counts add up. */
  lemma {:induction false} SacredSplit(files: seq<string>)
    ensures |SacredFiles(files)| + |NonSacred(files)| == |files|
    ensures forall f :: f in NonSacred(files) <==> f in files && !InSacredArea(f)
    ensures forall f :: f in SacredFiles(files) <==> f in files && InSacredArea(f)
    decreases |files|
  {
    if |files| > 0 {
      var front := files[..|files| - 1];
      SacredSplit(front);
      assert files == front + [files[|files| - 1]];
    }
  }

  // ---------------------------------------------------------------------
  // The analysis
  // ---------------------------------------------------------------------

  /** The violations found over the changed paths and the score they give. */
  datatype Judgement = Judgement(violations: seq<Violation>, score: real)

  /** `max(0.0, 1.0 - violation_score / total_checks)` for a non-empty list of checks. */
  function SeparationScore(violations: nat, checks: nat): (r: real)
    requires 0 < checks
    ensures 0.0 <= r <= 1.0
    ensures violations <= checks ==> r == 1.0 - violations as real / checks as real
  {
    var q := violations as real / checks as real;
    Fraction(violations, checks);
    if 1.0 - q < 0.0 then 0.0 else 1.0 - q
  }

  /** A count over a positive count is not negative, and is at most one when the first does not exceed the second. */
  lemma Fraction(p: nat, q: nat)
    requires 0 < q
    ensures 0.0 <= p as real / q as real
    ensures p <= q ==> p as real / q as real <= 1.0
  {
    var d := p as real / q as real;
    assert d * q as real == p as real;
  }

  /** The judgement under the plans' constraints. */
  function Judge(files: seq<string>, constraints: seq<string>): (j: Judgement)
    requires |files| > 0
    ensures 0.0 <= j.score <= 1.0 && |j.violations| <= |files|
  {
    var vs := if SeparationTag in constraints then SeparationViolations(files) else [];
    Judgement(vs, SeparationScore(|vs|, |files|))
  }

  /** The judgement without plans: one `no_sacred_guidance` violation listing the paths outside the sacred areas. */
  function JudgeUnguided(files: seq<string>): (j: Judgement)
    requires |files| > 0
    ensures |j.violations| <= 1
    ensures j.violations == [] <==> NonSacred(files) == []
  {
    var others := NonSacred(files);
    Judgement(if |others| > 0 then [NoSacredGuidance(others)] else [],
              (|files| - |others|) as real / |files| as real)
  }

  predicate HasType(violations: seq<Violation>, ty: string) {
    exists k :: 0 <= k < |violations| && ViolationType(violations[k]) == ty
  }

  predicate MentionsDatabase(violations: seq<Violation>) {
    exists k :: 0 <= k < |violations| && Contains(Lower(ViolationText(violations[k])), "database")
  }

  /** The recommendations one plan contributes when there are violations. */
  function PlanAdvice(content: string, violations: seq<Violation>): seq<string> {
    var c := Lower(content);
    (if Contains(c, "immutability") && HasType(violations, "sacred_separation_violation")
     then ["Ensure sacred plan immutability by keeping sacred functionality in dedicated sacred_layer files"] else [])
    + (if Contains(c, "backward compatibility")
       then ["Maintain v2.0 functionality in existing files while adding v3.0 features in new sacred components"] else [])
    + (if Contains(c, "chromadb") && MentionsDatabase(violations)
       then ["Follow ChromaDB isolation principle from sacred architecture plan"] else [])
  }

  /** The loop over the plans that turns their principles into advice. */
  function Advice(contents: seq<string>, violations: seq<Violation>): seq<string>
    decreases |contents|
  {
    if |contents| == 0 then []
    else Advice(contents[..|contents| - 1], violations) + PlanAdvice(contents[|contents| - 1], violations)
  }

  /** The advice after the per-plan pass: the score rule and the violation-type rules. */
  function GeneralAdvice(planCount: nat, violations: seq<Violation>, score: real): seq<string> {
    (if score < 0.8 then
       if planCount > 0 then ["Review changes against " + NatToString(planCount) + " approved sacred plans to ensure architectural compliance"]
       else ["Consider creating sacred plans to provide architectural guidance for future development"]
     else [])
    + (if HasType(violations, "sacred_separation_violation") then ["Move sacred functionality to proper sacred_layer components"] else [])
    + (if HasType(violations, "no_sacred_guidance") then ["Create sacred architectural plans to guide development decisions"] else [])
  }

  /** The closing rule: when nothing was said, a word that development looks aligned. */
  function OrAligned(recs: seq<string>, planCount: nat): (r: seq<string>)
    ensures |r| > 0
    ensures |recs| > 0 ==> r == recs
  {
    if |recs| > 0 then recs
    else if planCount > 0 then ["Development appears aligned with " + NatToString(planCount) + " sacred architectural plans"]
    else ["No drift detected - consider establishing sacred plans for future architectural governance"]
  }

  /** All recommendations, in the order they are appended. */
  function Recommendations(contents: seq<string>, planCount: nat, violations: seq<Violation>, score: real): (r: seq<string>)
    ensures |r| > 0
  {
    var perPlan := if planCount > 0 && |violations| > 0 then Advice(contents, violations) else [];
    OrAligned(perPlan + GeneralAdvice(planCount, violations, score), planCount)
  }

  /** The analysis record for a judgement; its status is read off the ladder of `determine_status`. */
  function Report(projectId: string, j: Judgement, contents: seq<string>, planCount: nat, checked: seq<Json.Value>): (a: DriftAnalysis)
    ensures a.projectId == projectId && a.alignmentScore == j.score && a.violations == j.violations
    ensures a.status != MinorDrift && |a.recommendations| > 0
  {
    MinorDriftUnreachable(j.score);
    DriftAnalysis(projectId, DetermineStatus(DefaultThresholds, j.score), j.score, j.violations,
                  Recommendations(contents, planCount, j.violations, j.score), checked)
  }

  /** `analyze_sacred_drift`, as a function of the activity and the plan directory. */
  function Analysis(projectId: string, activity: GitActivity, planFiles: seq<PlanFile>): (a: DriftAnalysis)
    ensures a.projectId == projectId && |a.recommendations| > 0
  {
    if activity.commitsCount == 0 then
      DriftAnalysis(projectId, Aligned, 1.0, [], ["No recent Git activity to analyze"], [])
    else
      var plans := ProjectPlans(planFiles, projectId);
      var checked := PlansChecked(planFiles, projectId);
      var files := activity.filesChanged;
      if |files| > 0 && |plans| > 0 then
        match Contents(plans)
        case None => ErrorAnalysis(projectId)
        case Some(contents) => Report(projectId, Judge(files, Constraints(contents)), contents, |plans|, checked)
      else if |files| > 0 then
        Report(projectId, JudgeUnguided(files), [], 0, checked)
      else
        Report(projectId, Judgement([], 1.0), [], |plans|, checked)
  }

  // ---------------------------------------------------------------------
  // Properties of the analysis
  // ---------------------------------------------------------------------

  /** No commits: aligned, full score, no violations, no plans checked. */
  lemma NoCommitsAligned(projectId: string, activity: GitActivity, planFiles: seq<PlanFile>)
    requires activity.commitsCount == 0
    ensures var a := Analysis(projectId, activity, planFiles);
      a.status == Aligned && a.alignmentScore == 1.0 && a.violations == [] && a.sacredPlansChecked == []
  {
  }

  /** Every judgement scores within [0, 1]. */
  lemma JudgementBounds(files: seq<string>, constraints: seq<string>)
    requires |files| > 0
    ensures 0.0 <= Judge(files, constraints).score <= 1.0
    ensures 0.0 <= JudgeUnguided(files).score <= 1.0
  {
    SacredSplit(files);
    Fraction(|files| - |NonSacred(files)|, |files|);
  }

  /**
   * Every analysis scores within [0, 1], names the project and recommends
   * something; its status follows its score on the ladder of
   * `determine_status`, so it is never minor drift.
   */
  lemma AnalysisShape(projectId: string, activity: GitActivity, planFiles: seq<PlanFile>)
    ensures var a := Analysis(projectId, activity, planFiles);
      0.0 <= a.alignmentScore <= 1.0 && a.projectId == projectId && |a.recommendations| > 0
      && (a.violations != [AnalysisError] ==> a.status == DetermineStatus(DefaultThresholds, a.alignmentScore))
      && a.status != MinorDrift
  {
    MinorDriftUnreachable(Analysis(projectId, activity, planFiles).alignmentScore);
    var files := activity.filesChanged;
    if activity.commitsCount > 0 && |files| > 0 {
      JudgementBounds(files, Constraints(Contents(ProjectPlans(planFiles, projectId)).GetOr([])));
    }
  }

  /** The separation judgement: the violating paths, scored by one minus their share. */
  lemma JudgeSeparation(files: seq<string>, constraints: seq<string>)
    requires |files| > 0
    ensures var j := Judge(files, constraints);
      (SeparationTag in constraints ==>
        j.violations == SeparationViolations(files) && j.score == 1.0 - |j.violations| as real / |files| as real)
      && (SeparationTag !in constraints ==> j == Judgement([], 1.0))
  {
    Fraction(0, |files|);
  }

  /**
   * With plans demanding sacred separation, the violations are the paths
   * that break it and the score is one minus their share of the paths.
   */
  lemma SeparationAnalysis(projectId: string, activity: GitActivity, planFiles: seq<PlanFile>)
    requires activity.commitsCount > 0 && |activity.filesChanged| > 0
    requires |ProjectPlans(planFiles, projectId)| > 0
    requires Contents(ProjectPlans(planFiles, projectId)).Some?
    requires SeparationTag in Constraints(Contents(ProjectPlans(planFiles, projectId)).value)
    ensures var a := Analysis(projectId, activity, planFiles);
      var files := activity.filesChanged;
      a.violations == SeparationViolations(files)
      && (forall f :: SeparationViolation(f) in a.violations <==> f in files && IsSeparationViolation(f))
      && a.alignmentScore == 1.0 - |a.violations| as real / |files| as real
  {
    var files := activity.filesChanged;
    var plans := ProjectPlans(planFiles, projectId);
    var contents := Contents(plans).value;
    JudgeSeparation(files, Constraints(contents));
    SeparationViolationsExact(files);
    var j := Judge(files, Constraints(contents));
    assert Analysis(projectId, activity, planFiles) == Report(projectId, j, contents, |plans|, PlansChecked(planFiles, projectId));
  }

  /** With plans that do not demand sacred separation, no path is a violation and the score is 1. */
  lemma NoSeparationRule(projectId: string, activity: GitActivity, planFiles: seq<PlanFile>)
    requires activity.commitsCount > 0 && |activity.filesChanged| > 0
    requires |ProjectPlans(planFiles, projectId)| > 0
    requires Contents(ProjectPlans(planFiles, projectId)).Some?
    requires SeparationTag !in Constraints(Contents(ProjectPlans(planFiles, projectId)).value)
    ensures var a := Analysis(projectId, activity, planFiles);
      a.violations == [] && a.alignmentScore == 1.0 && a.status == Aligned
  {
    var files := activity.filesChanged;
    var plans := ProjectPlans(planFiles, projectId);
    var contents := Contents(plans).value;
    JudgeSeparation(files, Constraints(contents));
    var j := Judge(files, Constraints(contents));
    assert j == Judgement([], 1.0);
    assert Analysis(projectId, activity, planFiles) == Report(projectId, j, contents, |plans|, PlansChecked(planFiles, projectId));
  }

  /** A plan whose content is not text makes the analysis fail into the error result. */
  lemma BadContentFails(projectId: string, activity: GitActivity, planFiles: seq<PlanFile>)
    requires activity.commitsCount > 0 && |activity.filesChanged| > 0
    requires exists i :: 0 <= i < |ProjectPlans(planFiles, projectId)| && PlanContent(ProjectPlans(planFiles, projectId)[i]).None?
    ensures Analysis(projectId, activity, planFiles) == ErrorAnalysis(projectId)
  {
  }

  /** The judgement without plans: the share of sacred-area paths, and one violation listing the others when there are any. */
  lemma JudgeUnguidedSpec(files: seq<string>)
    requires |files| > 0
    ensures var j := JudgeUnguided(files);
      j.score == |SacredFiles(files)| as real / |files| as real
      && (j.violations == [] <==> forall k :: 0 <= k < |files| ==> InSacredArea(files[k]))
      && (j.violations != [] ==> j.violations == [NoSacredGuidance(NonSacred(files))])
  {
    SacredSplit(files);
    assert |files| - |NonSacred(files)| == |SacredFiles(files)|;
    if exists k :: 0 <= k < |files| && !InSacredArea(files[k]) {
      var k :| 0 <= k < |files| && !InSacredArea(files[k]);
      assert files[k] in NonSacred(files);
    }
  }

  /**
   * Without plans, the score is the share of changed paths inside the
   * sacred areas, and one `no_sacred_guidance` violation lists the others
   * exactly when there are any.
   */
  lemma UnguidedAnalysis(projectId: string, activity: GitActivity, planFiles: seq<PlanFile>)
    requires activity.commitsCount > 0 && |activity.filesChanged| > 0
    requires ProjectPlans(planFiles, projectId) == []
    ensures var a := Analysis(projectId, activity, planFiles);
      var files := activity.filesChanged;
      a.alignmentScore == |SacredFiles(files)| as real / |files| as real
      && (a.violations == [] <==> forall k :: 0 <= k < |files| ==> InSacredArea(files[k]))
      && (a.violations != [] ==> a.violations == [NoSacredGuidance(NonSacred(files))])
  {
    var files := activity.filesChanged;
    JudgeUnguidedSpec(files);
    assert Analysis(projectId, activity, planFiles) == Report(projectId, JudgeUnguided(files), [], 0, PlansChecked(planFiles, projectId));
  }

  // ---------------------------------------------------------------------
  // The detector
  // ---------------------------------------------------------------------

  /** `SacredDriftDetector`; the plan store and the git tracker are the arguments of the analysis. */
  class SacredDriftDetector {
    const alignmentThresholds: Thresholds

    constructor ()
      ensures alignmentThresholds == DefaultThresholds
    {
      alignmentThresholds := DefaultThresholds;
    }

    /** `analyze_sacred_drift` for one project. */
    method AnalyzeSacredDrift(projectId: string, activity: GitActivity, planFiles: seq<PlanFile>) returns (a: DriftAnalysis)
      requires alignmentThresholds == DefaultThresholds
      ensures a == Analysis(projectId, activity, planFiles)
    {
      if activity.commitsCount == 0 {
        return DriftAnalysis(projectId, Aligned, 1.0, [], ["No recent Git activity to analyze"], []);
      }
      var plans, checked := LoadPlans(planFiles, projectId);
      var files := activity.filesChanged;
      var violations: seq<Violation> := [];
      var contents: seq<string> := [];
      var score := 1.0;
      if |files| > 0 && |plans| > 0 {
        var found := ExtractConstraints(plans);
        if found.None? {
          return ErrorAnalysis(projectId);
        }
        contents := Contents(plans).value;
        var total;
        violations, total := CheckFiles(files, SeparationTag in found.value);
        if total > 0 {
          score := SeparationScore(|violations|, total);
        }
        assert Judgement(violations, score) == Judge(files, Constraints(contents));
      } else if |files| > 0 {
        var others := NonSacred(files);
        if |others| > 0 {
          violations := [NoSacredGuidance(others)];
        }
        score := (|files| - |others|) as real / |files| as real;
        assert Judgement(violations, score) == JudgeUnguided(files);
      }
      a := Assemble(projectId, violations, score, contents, |plans|, checked);
    }
  }

  /** The common tail of the analysis: the status from the score, the recommendations and the record. */
  method Assemble(projectId: string, violations: seq<Violation>, score: real, contents: seq<string>, planCount: nat,
                  checked: seq<Json.Value>) returns (a: DriftAnalysis)
    ensures a == Report(projectId, Judgement(violations, score), contents, planCount, checked)
  {
    var status := DetermineStatus(DefaultThresholds, score);
    var recommendations := BuildRecommendations(contents, planCount, violations, score);
    a := DriftAnalysis(projectId, status, score, violations, recommendations, checked);
  }

  /** The loop over the plan directory. */
  method LoadPlans(planFiles: seq<PlanFile>, projectId: string) returns (plans: seq<map<string, Json.Value>>, checked: seq<Json.Value>)
    ensures plans == ProjectPlans(planFiles, projectId) && checked == PlansChecked(planFiles, projectId)
  {
    plans, checked := [], [];
    for i := 0 to |planFiles|
      invariant plans == ProjectPlans(planFiles[..i], projectId)
      invariant checked == PlansChecked(planFiles[..i], projectId)
    {
      var f := planFiles[i];
      assert planFiles[..i + 1][..i] == planFiles[..i];
      if IsPlanFileName(f.name) && f.data.Some? && f.data.value.Object?
         && Json.Get(f.data.value.fields, "project_id") == Some(Json.Str(projectId))
      {
        plans := plans + [f.data.value.fields];
        checked := checked + [CheckedId(f.data.value.fields, f.name)];
      }
    }
    assert planFiles[..|planFiles|] == planFiles;
  }

  /** The constraint loop; none when a plan's content is not text. */
  method ExtractConstraints(plans: seq<map<string, Json.Value>>) returns (r: Option<seq<string>>)
    ensures r.None? <==> Contents(plans).None?
    ensures r.Some? ==> r.value == Constraints(Contents(plans).value)
  {
    var tags: seq<string> := [];
    ghost var texts: seq<string> := [];
    for i := 0 to |plans|
      invariant |texts| == i
      invariant forall k :: 0 <= k < i ==> PlanContent(plans[k]).Some? && texts[k] == PlanContent(plans[k]).value
      invariant tags == Constraints(texts)
    {
      var content := PlanContent(plans[i]);
      if content.None? {
        return None;
      }
      ConstraintsSnoc(texts, content.value);
      texts := texts + [content.value];
      tags := tags + TagsOf(content.value);
    }
    assert Contents(plans).value == texts;
    return Some(tags);
  }

  /** The loop over the changed paths: the violations found and the number of checks. */
  method CheckFiles(files: seq<string>, separation: bool) returns (violations: seq<Violation>, totalChecks: nat)
    ensures totalChecks == |files|
    ensures violations == if separation then SeparationViolations(files) else []
  {
    violations, totalChecks := [], 0;
    for i := 0 to |files|
      invariant totalChecks == i
      invariant violations == if separation then SeparationViolations(files[..i]) else []
    {
      var fileLower := Lower(files[i]);
      totalChecks := totalChecks + 1;
      assert files[..i + 1][..i] == files[..i];
      if separation {
        if Contains(fileLower, "sacred") && !Contains(fileLower, "sacred_layer") && !Contains(fileLower, "sacred_plans") {
          violations := violations + [SeparationViolation(files[i])];
        }
      }
    }
    assert files[..|files|] == files;
  }

  /** The recommendation passes, in order. */
  method BuildRecommendations(contents: seq<string>, planCount: nat, violations: seq<Violation>, score: real) returns (recs: seq<string>)
    ensures recs == Recommendations(contents, planCount, violations, score)
  {
    recs := [];
    if planCount > 0 && |violations| > 0 {
      for i := 0 to |contents|
        invariant recs == Advice(contents[..i], violations)
      {
        assert contents[..i + 1][..i] == contents[..i];
        recs := recs + PlanAdvice(contents[i], violations);
      }
      assert contents[..|contents|] == contents;
    }
    recs := recs + GeneralAdvice(planCount, violations, score);
    if |recs| == 0 {
      recs := OrAligned(recs, planCount);
    }
  }
}
