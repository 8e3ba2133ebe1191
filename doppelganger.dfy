/**
 * The "digital doppelganger": `createAnalysis` derives a baseline from the
 * request or from recent activity records, projects four fixed what-if
 * outcomes, picks recommendations by rule, attaches a constant technique
 * catalog and a seven-day comparison series; `simulateScenario` projects the
 * score for a requested number of study hours.
 */
module Doppelganger {
  import opened Js
  import opened Aggregate
  import opened Activities

  /** The body of an analysis request; every field may be absent. */
  datatype AnalysisRequest = AnalysisRequest(
    studyHours: Option<real>,
    breaks: Option<real>,
    sleepHours: Option<real>,
    pastPerformance: Option<real>)

  /** The four `avg*` values; a field stays absent when neither the request nor the history supplies it. */
  datatype Baseline = Baseline(
    studyHours: Option<real>,
    breaks: Option<real>,
    sleepHours: Option<real>,
    performance: Option<real>)

  /** What a simulated outcome changes, by how much, against the baseline. */
  datatype Adjustment = OneMoreStudyHour | TwoMoreStudyHours | OneMoreBreak | OneMoreSleepHour

  /**
   * A simulated outcome. The scenario text of the source is the adjusted
   * quantity's baseline value (`current`) and the adjustment.
   */
  datatype Outcome = Outcome(adjustment: Adjustment, current: Option<real>, predictedScore: real, improvement: int)

  datatype RecommendationType = ScheduleAdvice | FocusAdvice | TechniqueAdvice

  datatype Priority = Low | Medium | High

  datatype Recommendation = Recommendation(recType: RecommendationType, title: string, priority: Priority)

  /** The recommendation rules, in the order the handler tests them. */
  datatype Rule = IncreaseStudyHours | ImproveSleep | TakeRegularBreaks | TryPomodoro

  datatype Technique = Technique(name: string, description: string, effectiveness: int, category: string)

  /** One day of the comparison series: the user's hours and the twin's, both rounded to tenths. */
  datatype GraphPoint = GraphPoint(day: string, actual: real, twin: real)

  /** A stored analysis, with the schema's defaults for absent breaks (0) and sleep (8). */
  datatype Analysis = Analysis(
    studyHours: real,
    breaks: real,
    sleepHours: real,
    pastPerformance: real,
    outcomes: seq<Outcome>,
    recommendations: seq<Recommendation>,
    techniques: seq<Technique>,
    graph: seq<GraphPoint>)

  /**
   * The analysis cannot be stored: the baseline has no study hours (a required
   * field), or no performance, which makes every predicted score NaN.
   */
  datatype AnalysisError = AnalysisRejected

  // ---------------------------------------------------------------------------
  // Baseline

  const HistoryLimit: nat := 30

  /** `.sort({ date: -1 }).limit(30)` on a history already sorted most recent first. */
  function RecentActivities(history: seq<Activity>): (recent: seq<Activity>)
    ensures |recent| <= HistoryLimit
    ensures |recent| == if |history| < HistoryLimit then |history| else HistoryLimit
    ensures recent == history[..|recent|]
  {
    if |history| < HistoryLimit then history else history[..HistoryLimit]
  }

  function SuppliedBaseline(req: AnalysisRequest): Baseline {
    Baseline(req.studyHours, req.breaks, req.sleepHours, req.pastPerformance)
  }

  /**
   * The baseline the handler ends up with: the request's values when both
   * studyHours and pastPerformance are truthy or there is no history,
   * otherwise the four means over the most recent (at most 30) records.
   */
  function DeriveBaseline(req: AnalysisRequest, history: seq<Activity>): Baseline {
    var recent := RecentActivities(history);
    if (TruthyNumber(req.studyHours) && TruthyNumber(req.pastPerformance)) || recent == [] then
      SuppliedBaseline(req)
    else
      Baseline(
        Some(Mean(recent, StudyHoursOrZero)),
        Some(Mean(recent, BreaksOrZero)),
        Some(Mean(recent, SleepOrEight)),
        Some(Mean(recent, ScoreOrZero)))
  }

  /**
   * The request's values are kept when both studyHours and pastPerformance
   * are truthy, and also when the user has no activity at all.
   */
  lemma SuppliedBaselineKept(req: AnalysisRequest, history: seq<Activity>)
    requires (TruthyNumber(req.studyHours) && TruthyNumber(req.pastPerformance)) || history == []
    ensures DeriveBaseline(req, history) == Baseline(req.studyHours, req.breaks, req.sleepHours, req.pastPerformance)
  {
  }

  /**
   * Otherwise all four values are means over the recent records (a missing
   * or zero field counting as 0, or as 8 for sleep); when every stored score
   * lies within the schema's range, so does the averaged performance.
   */
  lemma AveragedBaselineInRange(req: AnalysisRequest, history: seq<Activity>)
    requires !(TruthyNumber(req.studyHours) && TruthyNumber(req.pastPerformance)) && history != []
    ensures var recent := RecentActivities(history);
      DeriveBaseline(req, history) == Baseline(
        Some(Mean(recent, StudyHoursOrZero)),
        Some(Mean(recent, BreaksOrZero)),
        Some(Mean(recent, SleepOrEight)),
        Some(Mean(recent, ScoreOrZero)))
    ensures var b := DeriveBaseline(req, history);
      b.studyHours.Some? && b.breaks.Some? && b.sleepHours.Some? && b.performance.Some?
    ensures (forall i :: 0 <= i < |history| ==> ScoreInSchemaRange(history[i])) ==>
      0.0 <= DeriveBaseline(req, history).performance.value <= 100.0
  {
    var recent := RecentActivities(history);
    if forall i :: 0 <= i < |history| ==> ScoreInSchemaRange(history[i]) {
      assert forall i :: 0 <= i < |recent| ==> recent[i] == history[i];
      MeanBounds(recent, ScoreOrZero, 0.0, 100.0);
    }
  }

  /** Records older than the 30 most recent never influence the baseline. */
  lemma OlderHistoryIgnored(req: AnalysisRequest, recent: seq<Activity>, older: seq<Activity>)
    requires |recent| >= HistoryLimit
    ensures DeriveBaseline(req, recent + older) == DeriveBaseline(req, recent)
  {
    assert RecentActivities(recent + older) == RecentActivities(recent);
  }

  /**
   * In an averaged baseline a missing or zero sleep counts as 8 hours: with
   * no sleep recorded at all the averaged sleep is 8 and no sleep advice is given.
   */
  lemma MissingSleepAveragesEight(req: AnalysisRequest, history: seq<Activity>)
    requires !(TruthyNumber(req.studyHours) && TruthyNumber(req.pastPerformance)) && history != []
    requires forall i :: 0 <= i < |history| ==> !TruthyNumber(history[i].sleepHours)
    ensures DeriveBaseline(req, history).sleepHours == Some(8.0)
    ensures !RuleApplies(ImproveSleep, DeriveBaseline(req, history))
  {
    var recent := RecentActivities(history);
    assert forall i :: 0 <= i < |recent| ==> recent[i] == history[i];
    MeanConstant(recent, SleepOrEight, 8.0);
  }

  /** With no study hours recorded at all the averaged study hours are 0. */
  lemma MissingStudyHoursAverageZero(req: AnalysisRequest, history: seq<Activity>)
    requires !(TruthyNumber(req.studyHours) && TruthyNumber(req.pastPerformance)) && history != []
    requires forall i :: 0 <= i < |history| ==> !TruthyNumber(history[i].studyHours)
    ensures DeriveBaseline(req, history).studyHours == Some(0.0)
  {
    var recent := RecentActivities(history);
    assert forall i :: 0 <= i < |recent| ==> recent[i] == history[i];
    MeanConstant(recent, StudyHoursOrZero, 0.0);
  }

  /** With no breaks recorded at all the averaged breaks are 0, so break advice is given. */
  lemma MissingBreaksAverageZero(req: AnalysisRequest, history: seq<Activity>)
    requires !(TruthyNumber(req.studyHours) && TruthyNumber(req.pastPerformance)) && history != []
    requires forall i :: 0 <= i < |history| ==> !TruthyNumber(history[i].breaks)
    ensures DeriveBaseline(req, history).breaks == Some(0.0)
    ensures RuleApplies(TakeRegularBreaks, DeriveBaseline(req, history))
  {
    var recent := RecentActivities(history);
    assert forall i :: 0 <= i < |recent| ==> recent[i] == history[i];
    MeanConstant(recent, BreaksOrZero, 0.0);
  }

  /** With no score recorded at all the averaged performance is 0. */
  lemma MissingScoreAverageZero(req: AnalysisRequest, history: seq<Activity>)
    requires !(TruthyNumber(req.studyHours) && TruthyNumber(req.pastPerformance)) && history != []
    requires forall i :: 0 <= i < |history| ==> !TruthyNumber(history[i].score)
    ensures DeriveBaseline(req, history).performance == Some(0.0)
  {
    var recent := RecentActivities(history);
    assert forall i :: 0 <= i < |recent| ==> recent[i] == history[i];
    MeanConstant(recent, ScoreOrZero, 0.0);
  }

  // ---------------------------------------------------------------------------
  // Simulated outcomes

  function ImprovementOf(adj: Adjustment): int {
    match adj
    case OneMoreStudyHour => 5
    case TwoMoreStudyHours => 15
    case OneMoreBreak => 3
    case OneMoreSleepHour => 8
  }

  /** `Math.min(100, performance + improvement)` */
  function ProjectedScore(performance: real, improvement: int): real {
    Min(100.0, performance + improvement as real)
  }

  function OutcomeOf(adj: Adjustment, current: Option<real>, performance: real): Outcome {
    Outcome(adj, current, ProjectedScore(performance, ImprovementOf(adj)), ImprovementOf(adj))
  }

  /**
   * The four fixed projections, in order: one and two more study hours, one
   * more break, one more hour of sleep, worth 5, 15, 3 and 8 points; every
   * predicted score is capped at 100.
   */
  function SimulatedOutcomes(b: Baseline, performance: real): (os: seq<Outcome>)
    ensures |os| == 4
    ensures [os[0].improvement, os[1].improvement, os[2].improvement, os[3].improvement] == [5, 15, 3, 8]
    ensures forall i :: 0 <= i < 4 ==> os[i].predictedScore <= 100.0
    ensures forall i :: 0 <= i < 4 ==>
              (performance + os[i].improvement as real <= 100.0 <==> os[i].predictedScore == performance + os[i].improvement as real)
    ensures forall i :: 0 <= i < 4 ==>
              (performance + os[i].improvement as real > 100.0 ==> os[i].predictedScore == 100.0)
    ensures os[0].adjustment == OneMoreStudyHour && os[0].current == b.studyHours
    ensures os[1].adjustment == TwoMoreStudyHours && os[1].current == b.studyHours
    ensures os[2].adjustment == OneMoreBreak && os[2].current == b.breaks
    ensures os[3].adjustment == OneMoreSleepHour && os[3].current == b.sleepHours
  {
    [ OutcomeOf(OneMoreStudyHour, b.studyHours, performance),
      OutcomeOf(TwoMoreStudyHours, b.studyHours, performance),
      OutcomeOf(OneMoreBreak, b.breaks, performance),
      OutcomeOf(OneMoreSleepHour, b.sleepHours, performance) ]
  }

  /** A baseline of 90 points projected 15 points up is clipped to 100, not 105. */
  lemma TwoMoreHoursFromNinetyClipped(b: Baseline)
    ensures SimulatedOutcomes(b, 90.0)[1].predictedScore == 100.0
  {
  }

  // ---------------------------------------------------------------------------
  // Recommendations

  /** `x < c` in JavaScript, for an `x` that may be undefined (then false). */
  predicate Below(x: Option<real>, c: real) {
    x.Some? && x.value < c
  }

  predicate RuleApplies(rule: Rule, b: Baseline) {
    match rule
    case IncreaseStudyHours => Below(b.studyHours, 3.0)
    case ImproveSleep => Below(b.sleepHours, 7.0)
    case TakeRegularBreaks => Below(b.breaks, 2.0)
    case TryPomodoro => true
  }

  function RecommendationOf(rule: Rule): Recommendation {
    match rule
    case IncreaseStudyHours => Recommendation(ScheduleAdvice, "Increase Study Hours", High)
    case ImproveSleep => Recommendation(ScheduleAdvice, "Improve Sleep Schedule", High)
    case TakeRegularBreaks => Recommendation(FocusAdvice, "Take Regular Breaks", Medium)
    case TryPomodoro => Recommendation(TechniqueAdvice, "Try Pomodoro Technique", Medium)
  }

  const RuleOrder: seq<Rule> := [IncreaseStudyHours, ImproveSleep, TakeRegularBreaks, TryPomodoro]

  /** The position of a rule in the order it is tested. */
  function RuleRank(rule: Rule): nat {
    match rule
    case IncreaseStudyHours => 0
    case ImproveSleep => 1
    case TakeRegularBreaks => 2
    case TryPomodoro => 3
  }

  /** The recommendations of the rules that apply, in rule order. */
  function Selected(rules: seq<Rule>, b: Baseline): seq<Recommendation> {
    if rules == [] then []
    else (if RuleApplies(rules[0], b) then [RecommendationOf(rules[0])] else []) + Selected(rules[1..], b)
  }

  function Recommended(b: Baseline): seq<Recommendation> {
    Selected(RuleOrder, b)
  }

  /** The selection written out rule by rule. */
  lemma RecommendedUnfolded(b: Baseline)
    ensures Recommended(b)
            == (if RuleApplies(IncreaseStudyHours, b) then [RecommendationOf(IncreaseStudyHours)] else [])
               + (if RuleApplies(ImproveSleep, b) then [RecommendationOf(ImproveSleep)] else [])
               + (if RuleApplies(TakeRegularBreaks, b) then [RecommendationOf(TakeRegularBreaks)] else [])
               + [RecommendationOf(TryPomodoro)]
  {
    var r3 := [TryPomodoro];
    var r2 := [TakeRegularBreaks, TryPomodoro];
    var r1 := [ImproveSleep, TakeRegularBreaks, TryPomodoro];
    assert r3[1..] == [] && r2[1..] == r3 && r1[1..] == r2 && RuleOrder[1..] == r1;
    assert Selected(r3, b) == [RecommendationOf(TryPomodoro)] + Selected([], b);
    assert Selected(r2, b)
           == (if RuleApplies(TakeRegularBreaks, b) then [RecommendationOf(TakeRegularBreaks)] else [])
              + Selected(r3, b);
    assert Selected(r1, b)
           == (if RuleApplies(ImproveSleep, b) then [RecommendationOf(ImproveSleep)] else [])
              + Selected(r2, b);
    assert Selected(RuleOrder, b)
           == (if RuleApplies(IncreaseStudyHours, b) then [RecommendationOf(IncreaseStudyHours)] else [])
              + Selected(r1, b);
  }

  /** The handler's conditional pushes, one rule after the other. */
  method BuildRecommendations(b: Baseline) returns (recs: seq<Recommendation>)
    ensures recs == Recommended(b)
  {
    recs := [];
    if Below(b.studyHours, 3.0) {
      recs := recs + [RecommendationOf(IncreaseStudyHours)];
    }
    if Below(b.sleepHours, 7.0) {
      recs := recs + [RecommendationOf(ImproveSleep)];
    }
    if Below(b.breaks, 2.0) {
      recs := recs + [RecommendationOf(TakeRegularBreaks)];
    }
    recs := recs + [RecommendationOf(TryPomodoro)];
    RecommendedUnfolded(b);
  }

  predicate HasTitle(recs: seq<Recommendation>, title: string) {
    exists i :: 0 <= i < |recs| && recs[i].title == title
  }

  /** The rule a recommendation came from, read off its title. */
  function RuleOfTitle(title: string): Rule {
    if title == "Increase Study Hours" then IncreaseStudyHours
    else if title == "Improve Sleep Schedule" then ImproveSleep
    else if title == "Take Regular Breaks" then TakeRegularBreaks
    else TryPomodoro
  }

  /** Titles tell the rules apart. */
  lemma TitleIdentifiesRule(rule: Rule)
    ensures RuleOfTitle(RecommendationOf(rule).title) == rule
  {
  }

  /**
   * Each conditional recommendation is present exactly when its rule applies:
   * study hours below 3, sleep below 7, breaks below 2.
   */
  lemma RecommendationsPresentIff(b: Baseline)
    ensures HasTitle(Recommended(b), "Increase Study Hours") <==> Below(b.studyHours, 3.0)
    ensures HasTitle(Recommended(b), "Improve Sleep Schedule") <==> Below(b.sleepHours, 7.0)
    ensures HasTitle(Recommended(b), "Take Regular Breaks") <==> Below(b.breaks, 2.0)
  {
    SelectedTitle(RuleOrder, b, IncreaseStudyHours);
    SelectedTitle(RuleOrder, b, ImproveSleep);
    SelectedTitle(RuleOrder, b, TakeRegularBreaks);
  }

  /** A rule's title occurs in a selection exactly when the rule is listed and applies. */
  lemma {:induction false} SelectedTitle(rules: seq<Rule>, b: Baseline, rule: Rule)
    ensures HasTitle(Selected(rules, b), RecommendationOf(rule).title) <==> rule in rules && RuleApplies(rule, b)
    decreases |rules|
  {
    if rules != [] {
      var rest := Selected(rules[1..], b);
      var head := if RuleApplies(rules[0], b) then [RecommendationOf(rules[0])] else [];
      var s := head + rest;
      assert Selected(rules, b) == s;
      var t := RecommendationOf(rule).title;
      SelectedTitle(rules[1..], b, rule);
      if HasTitle(rest, t) {
        var i :| 0 <= i < |rest| && rest[i].title == t;
        assert s[|head| + i] == rest[i];
      }
      if rule == rules[0] && RuleApplies(rule, b) {
        assert s[0].title == t;
      }
      if HasTitle(s, t) {
        var i :| 0 <= i < |s| && s[i].title == t;
        if i >= |head| {
          assert rest[i - |head|] == s[i];
        } else {
          TitleIdentifiesRule(rule);
          TitleIdentifiesRule(rules[0]);
        }
      }
      assert rule in rules <==> rule == rules[0] || rule in rules[1..];
    }
  }

  /**
   * Between one and four recommendations, always ending with "Try Pomodoro
   * Technique", in the order the rules are tested.
   */
  lemma RecommendationsShape(b: Baseline)
    ensures 1 <= |Recommended(b)| <= 4
    ensures Recommended(b)[|Recommended(b)| - 1] == RecommendationOf(TryPomodoro)
    ensures forall i, j :: 0 <= i < j < |Recommended(b)| ==>
              RuleRank(RuleOfTitle(Recommended(b)[i].title)) < RuleRank(RuleOfTitle(Recommended(b)[j].title))
  {
    RecommendedUnfolded(b);
  }

  // ---------------------------------------------------------------------------
  // Technique catalog

  /** The constant catalog of study techniques. */
  function Techniques(): (ts: seq<Technique>)
    ensures |ts| == 5
    ensures forall i :: 0 <= i < |ts| ==> 0 <= ts[i].effectiveness <= 100
    ensures forall i, j :: 0 <= i < j < |ts| ==> ts[i].name != ts[j].name
  {
    [ Technique("Pomodoro Technique", "25 minutes focused study, 5 minutes break", 85, "time-management"),
      Technique("Spaced Repetition", "Review material at increasing intervals", 90, "memory"),
      Technique("Active Recall", "Test yourself instead of re-reading", 88, "comprehension"),
      Technique("Feynman Technique", "Teach concepts in simple terms", 82, "understanding"),
      Technique("Mind Mapping", "Visual representation of information", 75, "organization") ]
  }

  // ---------------------------------------------------------------------------
  // Comparison series

  const Days: seq<string> := ["Mon", "Tue", "Wed", "Thu", "Fri", "Sat", "Sun"]

  /**
   * The 14 `Math.random()` draws of the loop, in call order: draw 2i varies
   * day i's hours, draw 2i + 1 the twin's lead.
   */
  predicate ValidNoise(noise: seq<real>) {
    |noise| == 14 && forall k :: 0 <= k < |noise| ==> 0.0 <= noise[k] < 1.0
  }

  /** `avgStudyHours + (Math.random() * 2 - 1)` */
  function ActualHoursAt(studyHours: real, noise: seq<real>, i: nat): real
    requires ValidNoise(noise) && i < 7
  {
    studyHours + (noise[2 * i] * 2.0 - 1.0)
  }

  /** `realHours + 1 + Math.random()` */
  function TwinHoursAt(studyHours: real, noise: seq<real>, i: nat): real
    requires ValidNoise(noise) && i < 7
  {
    ActualHoursAt(studyHours, noise, i) + 1.0 + noise[2 * i + 1]
  }

  function GraphPointAt(studyHours: real, noise: seq<real>, i: nat): GraphPoint
    requires ValidNoise(noise) && i < 7
  {
    GraphPoint(Days[i], RoundToTenths(ActualHoursAt(studyHours, noise, i)), RoundToTenths(TwinHoursAt(studyHours, noise, i)))
  }

  /** The `for (let i = 0; i < 7; i++)` loop that pushes one point per day. */
  method BuildGraphData(studyHours: real, noise: seq<real>) returns (graph: seq<GraphPoint>)
    requires ValidNoise(noise)
    ensures |graph| == 7
    ensures forall i :: 0 <= i < 7 ==> graph[i] == GraphPointAt(studyHours, noise, i)
  {
    graph := [];
    for i := 0 to 7
      invariant |graph| == i
      invariant forall k :: 0 <= k < i ==> graph[k] == GraphPointAt(studyHours, noise, k)
    {
      var actual := studyHours + (noise[2 * i] * 2.0 - 1.0);
      var twin := actual + 1.0 + noise[2 * i + 1];
      graph := graph + [GraphPoint(Days[i], RoundToTenths(actual), RoundToTenths(twin))];
    }
  }

  /**
   * Day i is labelled with the i-th weekday from Monday. Before rounding the
   * twin is ahead by at least 1 and less than 2 hours and the user's hours are
   * within an hour of the baseline; after rounding to tenths the lead lies
   * strictly between 0.9 and 2.1.
   */
  lemma GraphPointBounds(studyHours: real, noise: seq<real>, i: nat)
    requires ValidNoise(noise) && i < 7
    ensures GraphPointAt(studyHours, noise, i).day == ["Mon", "Tue", "Wed", "Thu", "Fri", "Sat", "Sun"][i]
    ensures 1.0 <= TwinHoursAt(studyHours, noise, i) - ActualHoursAt(studyHours, noise, i) < 2.0
    ensures studyHours - 1.0 <= ActualHoursAt(studyHours, noise, i) < studyHours + 1.0
    ensures 0.9 < GraphPointAt(studyHours, noise, i).twin - GraphPointAt(studyHours, noise, i).actual < 2.1
  {
    RoundToTenthsClose(ActualHoursAt(studyHours, noise, i));
    RoundToTenthsClose(TwinHoursAt(studyHours, noise, i));
  }

  // ---------------------------------------------------------------------------
  // createAnalysis

  /**
   * `createAnalysis`, with the activity query's result (most recent first) and
   * the loop's random draws as inputs. The `avg*` variables start as the
   * request's values and are replaced by the means over recent records when
   * studyHours or pastPerformance is falsy and there is a record.
   */
  method CreateAnalysis(req: AnalysisRequest, history: seq<Activity>, noise: seq<real>)
    returns (r: Result<Analysis, AnalysisError>)
    requires ValidNoise(noise)
    ensures var b := DeriveBaseline(req, history);
      r.Ok? <==> b.studyHours.Some? && b.performance.Some?
    ensures var b := DeriveBaseline(req, history);
      r.Ok? ==>
        && r.value.studyHours == b.studyHours.value
        && r.value.pastPerformance == b.performance.value
        && r.value.breaks == (if b.breaks.Some? then b.breaks.value else 0.0)
        && r.value.sleepHours == (if b.sleepHours.Some? then b.sleepHours.value else 8.0)
        && r.value.outcomes == SimulatedOutcomes(b, b.performance.value)
        && r.value.recommendations == Recommended(b)
        && r.value.techniques == Techniques()
        && |r.value.graph| == 7
        && forall i :: 0 <= i < 7 ==> r.value.graph[i] == GraphPointAt(b.studyHours.value, noise, i)
  {
    var avgStudyHours, avgBreaks, avgSleep, avgPerformance :=
      req.studyHours, req.breaks, req.sleepHours, req.pastPerformance;
    if !TruthyNumber(req.studyHours) || !TruthyNumber(req.pastPerformance) {
      var activities := RecentActivities(history);
      if |activities| > 0 {
        avgStudyHours := Some(Mean(activities, StudyHoursOrZero));
        avgBreaks := Some(Mean(activities, BreaksOrZero));
        avgSleep := Some(Mean(activities, SleepOrEight));
        avgPerformance := Some(Mean(activities, ScoreOrZero));
      }
    }
    var b := Baseline(avgStudyHours, avgBreaks, avgSleep, avgPerformance);
    assert b == DeriveBaseline(req, history);
    if avgStudyHours.None? || avgPerformance.None? {
      return Err(AnalysisRejected);
    }
    var outcomes := SimulatedOutcomes(b, avgPerformance.value);
    var recommendations := BuildRecommendations(b);
    var graph := BuildGraphData(avgStudyHours.value, noise);
    r := Ok(Analysis(
      avgStudyHours.value,
      if avgBreaks.Some? then avgBreaks.value else 0.0,
      if avgSleep.Some? then avgSleep.value else 8.0,
      avgPerformance.value,
      outcomes,
      recommendations,
      Techniques(),
      graph));
  }

  // ---------------------------------------------------------------------------
  // simulateScenario

  datatype ScenarioRequest = ScenarioRequest(studyHours: Option<real>, breaks: Option<real>, sleepHours: Option<real>)

  datatype ScenarioResult = ScenarioResult(
    baselinePerformance: real,
    predictedScore: real,
    improvement: real,
    studyHours: real,
    breaks: real,
    sleepHours: real)

  /** `latestAnalysis?.pastPerformance || 70` */
  function BaselinePerformance(latest: Option<Analysis>): real {
    if latest.Some? && latest.value.pastPerformance != 0.0 then latest.value.pastPerformance else 70.0
  }

  /** `latestAnalysis?.studyHours || 3` */
  function BaselineStudyHours(latest: Option<Analysis>): real {
    if latest.Some? && latest.value.studyHours != 0.0 then latest.value.studyHours else 3.0
  }

  /** Five points per extra study hour, never below 0 and never above 20. */
  function ScenarioImprovement(requested: Option<real>, baseHours: real): (imp: real)
    ensures 0.0 <= imp <= 20.0
  {
    Min(20.0, Max(0.0, (OrNumber(requested, baseHours) - baseHours) * 5.0))
  }

  /** Between the baseline and four hours above it, each extra hour is worth 5 points. */
  lemma ScenarioImprovementSlope(requested: Option<real>, baseHours: real)
    requires TruthyNumber(requested) && baseHours <= requested.value <= baseHours + 4.0
    ensures ScenarioImprovement(requested, baseHours) == 5.0 * (requested.value - baseHours)
  {
  }

  /**
   * `simulateScenario`: the baseline comes from the latest analysis (70 points
   * and 3 hours when there is none or the stored value is 0); the predicted
   * score adds the clamped improvement and is capped at 100; the reported
   * improvement is rounded to hundredths; absent or zero request values fall
   * back to the baseline hours, 2 breaks and 8 hours of sleep.
   */
  function SimulateScenario(req: ScenarioRequest, latest: Option<Analysis>): (r: ScenarioResult)
    ensures 0.0 <= r.improvement <= 20.0
    ensures r.predictedScore <= 100.0
    ensures r.predictedScore
            == Min(100.0, r.baselinePerformance + ScenarioImprovement(req.studyHours, BaselineStudyHours(latest)))
    ensures latest.Some? && latest.value.pastPerformance != 0.0 ==> r.baselinePerformance == latest.value.pastPerformance
    ensures !(latest.Some? && latest.value.pastPerformance != 0.0) ==> r.baselinePerformance == 70.0
    ensures latest.Some? && latest.value.studyHours != 0.0 ==> BaselineStudyHours(latest) == latest.value.studyHours
    ensures !(latest.Some? && latest.value.studyHours != 0.0) ==> BaselineStudyHours(latest) == 3.0
    ensures r.improvement == RoundToHundredths(ScenarioImprovement(req.studyHours, BaselineStudyHours(latest)))
    ensures TruthyNumber(req.studyHours) ==> r.studyHours == req.studyHours.value
    ensures !TruthyNumber(req.studyHours) ==> r.studyHours == BaselineStudyHours(latest)
    ensures TruthyNumber(req.breaks) ==> r.breaks == req.breaks.value
    ensures !TruthyNumber(req.breaks) ==> r.breaks == 2.0
    ensures TruthyNumber(req.sleepHours) ==> r.sleepHours == req.sleepHours.value
    ensures !TruthyNumber(req.sleepHours) ==> r.sleepHours == 8.0
    ensures r.studyHours != 0.0 && r.breaks != 0.0 && r.sleepHours != 0.0
  {
    var basePerformance := BaselinePerformance(latest);
    var baseHours := BaselineStudyHours(latest);
    var improvement := ScenarioImprovement(req.studyHours, baseHours);
    RoundToHundredthsWithin(improvement, 0, 20);
    ScenarioResult(
      basePerformance,
      Min(100.0, basePerformance + improvement),
      RoundToHundredths(improvement),
      OrNumber(req.studyHours, baseHours),
      OrNumber(req.breaks, 2.0),
      OrNumber(req.sleepHours, 8.0))
  }

  /** Asking for fewer hours than the baseline, or for none, or for 0, improves nothing. */
  lemma NoImprovementAtOrBelowBaseline(req: ScenarioRequest, latest: Option<Analysis>)
    requires !TruthyNumber(req.studyHours) || req.studyHours.value <= BaselineStudyHours(latest)
    ensures SimulateScenario(req, latest).improvement == 0.0
    ensures SimulateScenario(req, latest).predictedScore == Min(100.0, BaselinePerformance(latest))
  {
    MathRoundOfInteger(0);
  }

  /** Four or more hours above the baseline reach the 20-point cap. */
  lemma ImprovementCapped(req: ScenarioRequest, latest: Option<Analysis>)
    requires TruthyNumber(req.studyHours) && req.studyHours.value >= BaselineStudyHours(latest) + 4.0
    ensures SimulateScenario(req, latest).improvement == 20.0
  {
    MathRoundOfInteger(2000);
  }

  /** Baseline 3 hours and 5 requested: 10 points of improvement over the baseline score. */
  lemma FiveHoursOverThree(latest: Analysis)
    requires latest.studyHours == 3.0
    ensures SimulateScenario(ScenarioRequest(Some(5.0), None, None), Some(latest)).improvement == 10.0
    ensures SimulateScenario(ScenarioRequest(Some(5.0), None, None), Some(latest)).predictedScore
            == Min(100.0, BaselinePerformance(Some(latest)) + 10.0)
  {
    MathRoundOfInteger(1000);
  }

  /** A stored performance of 0 is replaced by the default 70, like a missing analysis. */
  lemma ZeroPerformanceBecomesSeventy(req: ScenarioRequest, latest: Analysis)
    requires latest.pastPerformance == 0.0
    ensures SimulateScenario(req, Some(latest)).baselinePerformance == 70.0
    ensures SimulateScenario(req, Some(latest)).baselinePerformance == SimulateScenario(req, None).baselinePerformance
  {
  }
}
