/**
 * Study sessions: the defaults `createStudySession` fills in, the update a
 * completed session receives, and the counts `getStudyStats` reports.
 */
module StudySessions {
  import opened Js
  import opened Aggregate

  /**
   * A stored session. `sessionType` holds the stored `type` string; the schema
   * allows "pomodoro" and "infinity". Times are clock readings.
   */
  datatype Session = Session(
    sessionType: string,
    duration: Option<real>,
    startTime: string,
    endTime: Option<string>,
    completed: bool)

  datatype StudyStats = StudyStats(
    totalSessions: nat,
    totalTime: real,
    completedSessions: nat,
    pomodoroSessions: nat,
    infinitySessions: nat,
    averageSessionTime: real)

  /** The 404 answer "Study session not found". */
  datatype SessionError = SessionNotFound

  const PomodoroSeconds: real := 1500.0

  /**
   * `createStudySession`: the type defaults to "pomodoro". The duration
   * defaults to 25 minutes only when the request itself says "pomodoro"; with
   * no type given it defaults to 0 although the stored type is "pomodoro".
   */
  function CreateStudySession(sessionType: Option<string>, duration: Option<real>, now: string): (s: Session)
    ensures s.sessionType == (if TruthyString(sessionType) then sessionType.value else "pomodoro")
    ensures TruthyNumber(duration) ==> s.duration == duration
    ensures !TruthyNumber(duration) && sessionType == Some("pomodoro") ==> s.duration == Some(PomodoroSeconds)
    ensures !TruthyNumber(duration) && sessionType != Some("pomodoro") ==> s.duration == Some(0.0)
    ensures s.startTime == now && s.endTime.None? && !s.completed
  {
    Session(
      OrString(sessionType, "pomodoro"),
      Some(OrNumber(duration, if sessionType == Some("pomodoro") then PomodoroSeconds else 0.0)),
      now,
      None,
      false)
  }

  /** With no type and no duration given, the stored session is a pomodoro of length 0. */
  lemma UntypedSessionHasNoDuration(now: string)
    ensures CreateStudySession(None, None, now).sessionType == "pomodoro"
    ensures CreateStudySession(None, None, now).duration == Some(0.0)
  {
  }

  /**
   * `updateStudySession` on the session the query found: the duration is set
   * when given, `completed` becomes the given flag (false when absent), and the
   * end time is set to now only when the session is completed. Keys left
   * undefined are not written, so those fields keep their stored values.
   */
  function UpdateStudySession(found: Option<Session>, duration: Option<real>, completed: Option<bool>, now: string)
    : (r: Result<Session, SessionError>)
    ensures found.None? <==> r == Err(SessionNotFound)
    ensures r.Ok? ==> r.value.sessionType == found.value.sessionType && r.value.startTime == found.value.startTime
    ensures r.Ok? ==> r.value.duration == (if duration.Some? then duration else found.value.duration)
    ensures r.Ok? ==> r.value.completed == (completed == Some(true))
    ensures r.Ok? && completed == Some(true) ==> r.value.endTime == Some(now)
    ensures r.Ok? && completed != Some(true) ==> r.value.endTime == found.value.endTime
  {
    match found
    case None => Err(SessionNotFound)
    case Some(s) =>
      var isCompleted := completed == Some(true);
      Ok(s.(duration := if duration.Some? then duration else s.duration,
            endTime := if isCompleted then Some(now) else s.endTime,
            completed := isCompleted))
  }

  function DurationOrZero(s: Session): real { OrNumber(s.duration, 0.0) }
  predicate IsCompleted(s: Session) { s.completed }
  predicate IsPomodoro(s: Session) { s.sessionType == "pomodoro" }
  predicate IsInfinity(s: Session) { s.sessionType == "infinity" }

  /** The schema's enumeration of session types. */
  predicate TypeInSchema(s: Session) { IsPomodoro(s) || IsInfinity(s) }

  /**
   * `getStudyStats`: the number of sessions, their summed duration, the
   * completed, pomodoro and infinity counts, and the mean duration (0 when
   * there are no sessions).
   */
  function GetStudyStats(sessions: seq<Session>): (st: StudyStats)
    ensures st.totalSessions == |sessions|
    ensures st.completedSessions <= st.totalSessions
    ensures sessions == [] ==> st.averageSessionTime == 0.0 && st.totalTime == 0.0
    ensures sessions != [] ==> st.averageSessionTime * st.totalSessions as real == st.totalTime
  {
    var total := Sum(sessions, DurationOrZero);
    StudyStats(
      |sessions|,
      total,
      Count(sessions, IsCompleted),
      Count(sessions, IsPomodoro),
      Count(sessions, IsInfinity),
      if |sessions| > 0 then total / |sessions| as real else 0.0)
  }

  /**
   * Pomodoro and infinity sessions together never outnumber all sessions, and
   * account for all of them when every type is one the schema allows.
   */
  lemma TypeCountsPartition(sessions: seq<Session>)
    ensures GetStudyStats(sessions).pomodoroSessions + GetStudyStats(sessions).infinitySessions
            <= GetStudyStats(sessions).totalSessions
    ensures (forall i :: 0 <= i < |sessions| ==> TypeInSchema(sessions[i])) ==>
            GetStudyStats(sessions).pomodoroSessions + GetStudyStats(sessions).infinitySessions
            == GetStudyStats(sessions).totalSessions
  {
    CountDisjoint(sessions, IsPomodoro, IsInfinity);
  }

  /** Every session counts as completed exactly when all of them are. */
  lemma AllCompleted(sessions: seq<Session>)
    ensures GetStudyStats(sessions).completedSessions == |sessions|
            <==> forall i :: 0 <= i < |sessions| ==> sessions[i].completed
  {
  }

  /** Durations between lo and hi give a mean duration between lo and hi. */
  lemma AverageSessionTimeBounds(sessions: seq<Session>, lo: real, hi: real)
    requires |sessions| > 0
    requires forall i :: 0 <= i < |sessions| ==> lo <= DurationOrZero(sessions[i]) <= hi
    ensures lo <= GetStudyStats(sessions).averageSessionTime <= hi
  {
    MeanBounds(sessions, DurationOrZero, lo, hi);
  }
}
