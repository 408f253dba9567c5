/**
 * The dashboard's client-side decisions: the skill tier shown for the
 * confidence score, the low-confidence alert, the `?? 0` fallbacks of the
 * stat cards and the redirect when no user is known.
 */
module Dashboard {
  import opened Wrappers

  /**
   * A numeric field of the dashboard payload as JavaScript sees it: a number,
   * JSON `null`, or absent (`undefined`).
   */
  datatype JsNumber = Num(value: real) | Null | Undefined

  /** JavaScript's ToNumber for a relational comparison: null is 0, undefined is NaN (None). */
  function ToNumber(v: JsNumber): Option<real>
  {
    match v
    case Num(x) => Some(x)
    case Null => Some(0.0)
    case Undefined => None
  }

  /** `v >= c`; every comparison with NaN is false. */
  predicate AtLeast(v: JsNumber, c: real)
  {
    ToNumber(v).Some? && ToNumber(v).value >= c
  }

  /** `v < c`; every comparison with NaN is false. */
  predicate Below(v: JsNumber, c: real)
  {
    ToNumber(v).Some? && ToNumber(v).value < c
  }

  datatype SkillLevel = HIGH | MEDIUM | LOW

  /** `skillLevel`: HIGH from 80, MEDIUM from 30, LOW otherwise. */
  function Level(score: JsNumber): (l: SkillLevel)
    ensures score == Null || score == Undefined ==> l == LOW
  {
    if AtLeast(score, 80.0) then HIGH else if AtLeast(score, 30.0) then MEDIUM else LOW
  }

  /** `skillColor`, by the same thresholds: always the colour of the level's tier. */
  function Color(score: JsNumber): (c: string)
    ensures c == TierColor(Level(score))
  {
    if AtLeast(score, 80.0) then "text-emerald-400"
    else if AtLeast(score, 30.0) then "text-yellow-400"
    else "text-red-400"
  }

  /** `skillGlow`, by the same thresholds: always the glow of the level's tier. */
  function Glow(score: JsNumber): (g: string)
    ensures g == TierGlow(Level(score))
  {
    if AtLeast(score, 80.0) then "bg-emerald-500/15"
    else if AtLeast(score, 30.0) then "bg-yellow-500/15"
    else "bg-red-500/15"
  }

  /** The colour and the glow of each tier. */
  function TierColor(l: SkillLevel): string
  {
    match l
    case HIGH => "text-emerald-400"
    case MEDIUM => "text-yellow-400"
    case LOW => "text-red-400"
  }

  function TierGlow(l: SkillLevel): string
  {
    match l
    case HIGH => "bg-emerald-500/15"
    case MEDIUM => "bg-yellow-500/15"
    case LOW => "bg-red-500/15"
  }

  /** The three tiers of a numeric score partition the number line at 30 and 80. */
  lemma LevelThresholds(x: real)
    ensures Level(Num(x)) == HIGH <==> x >= 80.0
    ensures Level(Num(x)) == MEDIUM <==> 30.0 <= x < 80.0
    ensures Level(Num(x)) == LOW <==> x < 30.0
  {
  }

  /** The low-confidence alert: `confidence_score < 40`. */
  function ShowAlert(score: JsNumber): (b: bool)
    ensures score.Num? ==> (b <==> score.value < 40.0)
    ensures score == Null ==> b
    ensures score == Undefined ==> !b
  {
    Below(score, 40.0)
  }

  /**
   * For a score that is a number or null, LOW always alerts and HIGH never
   * does; MEDIUM alerts below 40. An absent score is shown as LOW but raises
   * no alert, since both of its comparisons are false.
   */
  lemma AlertAgreesWithLevel(score: JsNumber)
    ensures score != Undefined && Level(score) == LOW ==> ShowAlert(score)
    ensures Level(score) == HIGH ==> !ShowAlert(score)
    ensures Level(score) == MEDIUM ==> (ShowAlert(score) <==> ToNumber(score).value < 40.0)
    ensures score == Undefined ==> Level(score) == LOW && !ShowAlert(score)
  {
  }

  /** The optional `roadmap_summary` and `progress` objects of the payload. */
  datatype RoadmapSummary = RoadmapSummary(completionPct: Option<real>)
  datatype ProgressInfo = ProgressInfo(weeksCompleted: Option<real>)

  /** `roadmap_summary?.completion_pct ?? 0`: shown as 0 whenever the object or the field is missing. */
  function CompletionShown(summary: Option<RoadmapSummary>): (r: real)
    ensures summary.Some? && summary.value.completionPct.Some? ==> r == summary.value.completionPct.value
    ensures summary.None? || summary.value.completionPct.None? ==> r == 0.0
  {
    match summary
    case None => 0.0
    case Some(s) => s.completionPct.GetOr(0.0)
  }

  /** `progress?.weeks_completed ?? 0` */
  function WeeksShown(progress: Option<ProgressInfo>): (r: real)
    ensures progress.Some? && progress.value.weeksCompleted.Some? ==> r == progress.value.weeksCompleted.value
    ensures progress.None? || progress.value.weeksCompleted.None? ==> r == 0.0
  {
    match progress
    case None => 0.0
    case Some(p) => p.weeksCompleted.GetOr(0.0)
  }

  /** `params.get("uid") || storeUid || ""`: the first non-empty of the two ids, else "". */
  function ResolveUserId(param: Option<string>, stored: Option<string>): (id: string)
    ensures param.Some? && param.value != "" ==> id == param.value
    ensures (param.None? || param.value == "") && stored.Some? && stored.value != "" ==> id == stored.value
    ensures id == "" <==> (param.None? || param.value == "") && (stored.None? || stored.value == "")
  {
    if param.Some? && param.value != "" then param.value
    else if stored.Some? && stored.value != "" then stored.value
    else ""
  }

  datatype LoadAction = RedirectTo(path: string) | FetchDashboard(userId: string)

  /** The load effect: without a user id it redirects to /auth and fetches nothing. */
  function OnLoad(userId: string): (a: LoadAction)
    ensures a.RedirectTo? <==> userId == ""
    ensures a.RedirectTo? ==> a.path == "/auth"
    ensures a.FetchDashboard? ==> a.userId == userId
  {
    if userId == "" then RedirectTo("/auth") else FetchDashboard(userId)
  }
}
