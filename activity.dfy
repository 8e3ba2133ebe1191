/**
 * Activity records: the defaults `createActivity` fills in, and the summary
 * `getActivityStats` computes over all of a user's records.
 */
module Activities {
  import opened Js
  import opened Aggregate

  /**
   * A stored activity. A numeric field may be missing from a stored document,
   * or be null: `score` has no default, `findOneAndUpdate` sets whatever the
   * update body holds (an explicit null included) without the schema's
   * validators, and a document written before a default existed lacks it.
   * So each is optional.
   */
  datatype Activity = Activity(
    date: string,
    studyHours: Option<real>,
    score: Option<real>,
    breaks: Option<real>,
    sleepHours: Option<real>,
    tasksCompleted: Option<real>,
    notes: Option<string>)

  /** The body of a create request; every field may be absent. */
  datatype ActivityRequest = ActivityRequest(
    date: Option<string>,
    studyHours: Option<real>,
    score: Option<real>,
    breaks: Option<real>,
    sleepHours: Option<real>,
    tasksCompleted: Option<real>,
    notes: Option<string>)

  /** The answer of the statistics endpoint. */
  datatype ActivityStats = ActivityStats(
    totalActivities: nat,
    totalStudyHours: real,
    averageScore: real,
    totalTasksCompleted: real,
    averageSleepHours: real)

  /**
   * `createActivity`: study hours, score and notes are stored as given; an
   * absent or zero breaks or tasksCompleted becomes 0, an absent or zero
   * sleepHours becomes 8, and an absent or empty date becomes the current time.
   */
  function CreateActivity(req: ActivityRequest, now: string): (a: Activity)
    ensures a.studyHours == req.studyHours && a.score == req.score && a.notes == req.notes
    ensures a.date == (if TruthyString(req.date) then req.date.value else now)
    ensures a.breaks.Some? && a.tasksCompleted.Some? && a.sleepHours.Some?
    ensures TruthyNumber(req.breaks) ==> a.breaks == req.breaks
    ensures !TruthyNumber(req.breaks) ==> a.breaks == Some(0.0)
    ensures TruthyNumber(req.tasksCompleted) ==> a.tasksCompleted == req.tasksCompleted
    ensures !TruthyNumber(req.tasksCompleted) ==> a.tasksCompleted == Some(0.0)
    ensures TruthyNumber(a.sleepHours)
    ensures TruthyNumber(req.sleepHours) ==> a.sleepHours == req.sleepHours
    ensures !TruthyNumber(req.sleepHours) ==> a.sleepHours == Some(8.0)
  {
    Activity(
      OrString(req.date, now),
      req.studyHours,
      req.score,
      Some(OrNumber(req.breaks, 0.0)),
      Some(OrNumber(req.sleepHours, 8.0)),
      Some(OrNumber(req.tasksCompleted, 0.0)),
      req.notes)
  }

  // The per-record terms of the reductions: `a.field || default`.

  function StudyHoursOrZero(a: Activity): real { OrNumber(a.studyHours, 0.0) }
  function ScoreOrZero(a: Activity): real { OrNumber(a.score, 0.0) }
  function BreaksOrZero(a: Activity): real { OrNumber(a.breaks, 0.0) }
  function SleepOrEight(a: Activity): real { OrNumber(a.sleepHours, 8.0) }
  function TasksOrZero(a: Activity): real { OrNumber(a.tasksCompleted, 0.0) }

  /** The average score before rounding: 0 for no records. */
  function ExactAverageScore(acts: seq<Activity>): real {
    if |acts| > 0 then Mean(acts, ScoreOrZero) else 0.0
  }

  /** The average sleep before rounding: 8 for no records. */
  function ExactAverageSleep(acts: seq<Activity>): real {
    if |acts| > 0 then Mean(acts, SleepOrEight) else 8.0
  }

  /**
   * `getActivityStats`: the number of records, the summed study hours and
   * tasks, and the two averages rounded to hundredths. No records give
   * average score 0 and average sleep 8.
   */
  function GetActivityStats(acts: seq<Activity>): (st: ActivityStats)
    ensures st.totalActivities == |acts|
    ensures acts == [] ==> st == ActivityStats(0, 0.0, 0.0, 0.0, 8.0)
  {
    MathRoundOfInteger(0);
    MathRoundOfInteger(800);
    ActivityStats(
      |acts|,
      Sum(acts, StudyHoursOrZero),
      RoundToHundredths(ExactAverageScore(acts)),
      Sum(acts, TasksOrZero),
      RoundToHundredths(ExactAverageSleep(acts)))
  }

  /** The schema's bound on a score: absent, or between 0 and 100. */
  predicate ScoreInSchemaRange(a: Activity) {
    a.score.None? || 0.0 <= a.score.value <= 100.0
  }

  /** When every score respects the schema, so does the average score. */
  lemma AverageScoreInRange(acts: seq<Activity>)
    requires forall i :: 0 <= i < |acts| ==> ScoreInSchemaRange(acts[i])
    ensures 0.0 <= ExactAverageScore(acts) <= 100.0
    ensures 0.0 <= GetActivityStats(acts).averageScore <= 100.0
  {
    if |acts| > 0 {
      MeanBounds(acts, ScoreOrZero, 0.0, 100.0);
    }
    RoundToHundredthsWithin(ExactAverageScore(acts), 0, 100);
  }

  /**
   * When every record's sleep is 8, absent or 0 (the last two count as 8),
   * the average sleep is 8.
   */
  lemma AverageSleepOfDefaults(acts: seq<Activity>)
    requires forall i :: 0 <= i < |acts| ==> !TruthyNumber(acts[i].sleepHours) || acts[i].sleepHours.value == 8.0
    ensures ExactAverageSleep(acts) == 8.0
    ensures GetActivityStats(acts).averageSleepHours == 8.0
  {
    if |acts| > 0 {
      MeanConstant(acts, SleepOrEight, 8.0);
    }
    MathRoundOfInteger(800);
  }

  /** A stored numeric field that is present is non-negative. */
  predicate NonNegativeFields(a: Activity) {
    && (a.studyHours.Some? ==> a.studyHours.value >= 0.0)
    && (a.score.Some? ==> a.score.value >= 0.0)
    && (a.sleepHours.Some? ==> a.sleepHours.value >= 0.0)
    && (a.tasksCompleted.Some? ==> a.tasksCompleted.value >= 0.0)
  }

  /** Non-negative records give non-negative statistics. */
  lemma StatsNonNegative(acts: seq<Activity>)
    requires forall i :: 0 <= i < |acts| ==> NonNegativeFields(acts[i])
    ensures var st := GetActivityStats(acts);
      0.0 <= st.totalStudyHours && 0.0 <= st.averageScore
      && 0.0 <= st.totalTasksCompleted && 0.0 <= st.averageSleepHours
  {
    SumNonNegative(acts, StudyHoursOrZero);
    SumNonNegative(acts, TasksOrZero);
    if |acts| > 0 {
      MeanNonNegative(acts, ScoreOrZero);
      MeanNonNegative(acts, SleepOrEight);
    }
    RoundToHundredthsNonNegative(ExactAverageScore(acts));
    RoundToHundredthsNonNegative(ExactAverageSleep(acts));
  }

  /**
   * A freshly created record with no sleep given, on its own, gives an
   * average sleep of 8.
   */
  lemma CreatedWithoutSleepAveragesEight(req: ActivityRequest, now: string)
    requires !TruthyNumber(req.sleepHours)
    ensures GetActivityStats([CreateActivity(req, now)]).averageSleepHours == 8.0
  {
    AverageSleepOfDefaults([CreateActivity(req, now)]);
  }
}
