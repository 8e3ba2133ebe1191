# DoppelX study-habit backend: a verified model of its request-handler logic

DoppelX is an Express/MongoDB backend for a study-habit app. Most of it is
persistence and HTTP plumbing. Inside its handlers there is a thin layer of
deterministic logic, and this project models that layer in Dafny:

- **Schedules** (`schedule.dfy`):
  - `generateSchedule` checks the task list and maps task *i* to a one-hour slot from `8+i:00` to `9+i:00`, with a per-index priority that defaults to `medium`.
  - `createSchedule` fills in its defaults.
- **Chat** (`chat.dfy`):
  - `generateDefaultResponse` is the keyword classifier that picks a canned reply, first match wins.
  - `extractLinks` attaches links by phrase.
  - A `ChatStore` class holds one message log per user. `sendMessage` appends to a log, `getChatHistory` reads it and `clearChat` empties it.
  - The text-generation service is an oracle that answers a conversation with a text or fails.
- **Doppelgänger** (`doppelganger.dfy`):
  - `createAnalysis` takes a baseline from the request or from the mean of the 30 most recent activity records.
  - It then projects four capped outcomes, applies the recommendation rules in order, attaches the constant technique catalogue and builds the seven-day comparison series.
  - `simulateScenario` clamps the improvement and applies its `||` defaults.
- **Activities** (`activity.dfy`): the defaults of `createActivity` and the summary of `getActivityStats`, including the policy for an empty record list.
- **Study sessions** (`study_session.dfy`): the defaults of `createStudySession` and `updateStudySession`, and the counts and mean of `getStudyStats`.
- **Shared helpers**:
  - `js.dfy` holds the JavaScript semantics the handlers rely on: `||` on numbers and strings, `Math.round`, ASCII `toLowerCase`, `includes`, `toString` and `padStart`.
  - `aggregate.dfy` holds the `reduce` sum, the `filter(...).length` count and the mean.

Each handler becomes a function of what it reads from the store. The request
body fields become `Option` values, where `None` stands for `undefined`. The
records a query returns become a sequence, already sorted and limited as the
query asks. "Now" and the random draws become parameters. Numbers are exact
`real`s. A JavaScript `x || d` on a number is `d` exactly when `x` is absent or
`0`, and on a string exactly when it is absent or `""`.

Where the code changes state, the model does too:

- The chat log is a `map` field of a class, updated by methods whose `ensures` give the new map.
- The recommendation list is built by conditional appends, the comparison series by a `for` loop and the `avg*` variables of `createAnalysis` by reassignment.
- Each of these methods is proved equal to a specification function, and the properties are proved as lemmas about that function.

When an analysis request lacks study hours or performance and the user has no
activity at all, the handler keeps the request's values: the averages only
overwrite them inside `if (activities.length > 0)`
(`backend/controllers/doppelgangerController.js`, lines 12-28). The model does
the same (`Doppelganger.SuppliedBaselineKept`).

## Model

| member | source | states |
|---|---|---|
| Js.PadStart | backend/controllers/scheduleController.js:49-51 | the padded string is at least `width` long, ends with the original string, and every character before it is the fill character |
| Js.RoundToTenthsClose | backend/controllers/doppelgangerController.js:134-135 | `Math.round(x * 10) / 10` lies within 0.05 of `x` |
| Js.RoundToHundredthsWithin | backend/controllers/activityController.js:91-93 | `Math.round(x * 100) / 100` of a value between two integers stays between them |
| Js.IncludesOccurrence | backend/controllers/chatController.js:103-145 | `s.includes(p)` holds exactly when `p` occurs at some position of `s` |
| Aggregate.Count | backend/controllers/studySessionController.js:65-67 | a `filter(...).length` never exceeds the length, and equals it exactly when every element passes |
| Aggregate.SumBounds | backend/controllers/activityController.js:79-86 | a `reduce` sum of n terms in [lo, hi] lies in [n·lo, n·hi] |
| Aggregate.MeanBounds | backend/controllers/activityController.js:80-86 | a mean of terms in [lo, hi] lies in [lo, hi] |
| Aggregate.CountDisjoint | backend/controllers/studySessionController.js:66-67 | two counts of mutually exclusive predicates add up to at most the length, and to the length when one always holds |
| Schedules.GenerateSchedule | backend/controllers/scheduleController.js:34-74 | rejected exactly when `tasks` is missing, not an array or empty; otherwise one slot per name in input order, with slot i's name `tasks[i]` and priority `priorities?.[i] \|\| 'medium'`, and the slots are the ones the lemmas below describe; the schedule is named "Generated Schedule", marked generated and dated now |
| Schedules.GeneratedSlotHours | backend/controllers/scheduleController.js:48-51 | in a generated schedule, slot i's start label reads as hour 8+i and its end label as hour 9+i |
| Schedules.FirstSlotStartsAt8 | backend/controllers/scheduleController.js:48-49 | the first slot starts at "08:00" |
| Schedules.GeneratedSlotsContiguous | backend/controllers/scheduleController.js:48-51 | in a generated schedule, each slot ends at the label where the next one starts |
| Schedules.GeneratedStartHoursIncrease | backend/controllers/scheduleController.js:48-51 | start hours strictly increase along a generated schedule |
| Schedules.HourLabelRoundTrip | backend/controllers/scheduleController.js:49-51 | every hour label reads back as the hour it was made from |
| Schedules.HourLabelShape | backend/controllers/scheduleController.js:49-51 | below 10 the label is '0', the digit and ":00"; from 10 on it is the plain decimal hour and ":00" |
| Schedules.SeventeenthSlotStartsAt24 | backend/controllers/scheduleController.js:48-49 | the 17th task starts at "24:00": hours are not reduced modulo 24 |
| Schedules.CreateSchedule | backend/controllers/scheduleController.js:15-31 | a falsy name becomes "My Schedule", absent tasks become none, a falsy date becomes now; given values are kept; the schedule is not marked generated |
| Activities.CreateActivity | backend/controllers/activityController.js:15-35 | study hours, score and notes are stored as given; falsy breaks and tasksCompleted become 0, falsy sleepHours becomes 8 (so an explicit 0 becomes 8), a falsy date becomes now |
| Activities.GetActivityStats | backend/controllers/activityController.js:75-98 | the count is the number of records; with no records the summary is 0 hours, average score 0, 0 tasks and average sleep 8 |
| Activities.AverageScoreInRange | backend/controllers/activityController.js:80-82 | when every stored score is within the schema's [0, 100], so is the average score, before and after rounding |
| Activities.AverageSleepOfDefaults | backend/controllers/activityController.js:84-86 | when every stored sleep value is 8, missing or 0, the average sleep is 8 |
| Activities.StatsNonNegative | backend/controllers/activityController.js:79-93 | non-negative stored fields give non-negative totals and averages |
| Activities.CreatedWithoutSleepAveragesEight | backend/controllers/activityController.js:24-26 | a record created without sleep, on its own, averages 8 hours of sleep |
| StudySessions.CreateStudySession | backend/controllers/studySessionController.js:4-19 | the type defaults to "pomodoro"; a falsy duration becomes 1500 only when the request's own type is "pomodoro", otherwise 0; the session starts now, unfinished |
| StudySessions.UntypedSessionHasNoDuration | backend/controllers/studySessionController.js:10-11 | a request with neither type nor duration stores a pomodoro session of duration 0 |
| StudySessions.UpdateStudySession | backend/controllers/studySessionController.js:22-44 | "not found" exactly when no session matches; otherwise a given duration replaces the stored one, `completed` becomes the given flag or false, and the end time becomes now only when completed; other fields keep their values |
| StudySessions.GetStudyStats | backend/controllers/studySessionController.js:59-80 | the count is the number of sessions and bounds the completed count; the mean is 0 with no sessions, and otherwise the mean times the count is the total time |
| StudySessions.TypeCountsPartition | backend/controllers/studySessionController.js:66-67 | pomodoro plus infinity sessions never exceed the total, and equal it when every type is one the schema allows |
| StudySessions.AllCompleted | backend/controllers/studySessionController.js:65-65 | the completed count equals the total exactly when every session is completed |
| StudySessions.AverageSessionTimeBounds | backend/controllers/studySessionController.js:75-75 | durations within [lo, hi] give a mean session time within [lo, hi] |
| Doppelganger.RecentActivities | backend/controllers/doppelgangerController.js:18-20 | at most the 30 most recent records, taken from the front of the sorted history |
| Doppelganger.SuppliedBaselineKept | backend/controllers/doppelgangerController.js:12-28 | the request's four values are kept when studyHours and pastPerformance are both truthy, and also when there is no activity |
| Doppelganger.AveragedBaselineInRange | backend/controllers/doppelgangerController.js:17-27 | otherwise the baseline is exactly the four means over the recent records (study hours, breaks and score counting 0 and sleep 8 when missing or 0), and when every stored score lies within the schema's [0, 100] so does the averaged performance |
| Doppelganger.OlderHistoryIgnored | backend/controllers/doppelgangerController.js:18-20 | records beyond the 30 most recent never change the baseline |
| Doppelganger.MissingStudyHoursAverageZero | backend/controllers/doppelgangerController.js:23-23 | in an averaged baseline, with no study hours recorded the study-hours baseline is 0 |
| Doppelganger.MissingBreaksAverageZero | backend/controllers/doppelgangerController.js:24-24 | in an averaged baseline, with no breaks recorded the breaks baseline is 0, so break advice follows |
| Doppelganger.MissingScoreAverageZero | backend/controllers/doppelgangerController.js:26-26 | in an averaged baseline, with no score recorded the performance baseline is 0 |
| Doppelganger.MissingSleepAveragesEight | backend/controllers/doppelgangerController.js:25-25 | in an averaged baseline missing or zero sleep counts as 8, so with no sleep recorded the sleep baseline is 8 and no sleep advice follows |
| Doppelganger.SimulatedOutcomes | backend/controllers/doppelgangerController.js:31-52 | exactly four outcomes with improvements 5, 15, 3 and 8; each predicted score is at most 100, equals performance plus improvement exactly when that sum is at most 100, and is exactly 100 when the sum exceeds 100; the outcomes project one and two more study hours, one more break and one more hour of sleep, in that order, each recording the baseline value it starts from |
| Doppelganger.TwoMoreHoursFromNinetyClipped | backend/controllers/doppelgangerController.js:39-39 | from a performance of 90 the two-more-hours outcome is clipped to 100 |
| Doppelganger.BuildRecommendations | backend/controllers/doppelgangerController.js:55-89 | the conditional pushes build exactly the rule-ordered selection `Recommended` |
| Doppelganger.RecommendationsPresentIff | backend/controllers/doppelgangerController.js:57-82 | "Increase Study Hours" is present iff study hours < 3, "Improve Sleep Schedule" iff sleep < 7, "Take Regular Breaks" iff breaks < 2 |
| Doppelganger.SelectedTitle | backend/controllers/doppelgangerController.js:55-89 | a rule's title occurs in a selection exactly when the rule is listed and applies |
| Doppelganger.RecommendationsShape | backend/controllers/doppelgangerController.js:55-89 | between one and four recommendations, in rule order, always ending with "Try Pomodoro Technique" |
| Doppelganger.Techniques | backend/controllers/doppelgangerController.js:92-123 | the catalogue has five techniques with distinct names and effectiveness within [0, 100] |
| Doppelganger.BuildGraphData | backend/controllers/doppelgangerController.js:126-137 | the loop produces seven points, point i computed from draws 2i and 2i+1 |
| Doppelganger.GraphPointBounds | backend/controllers/doppelgangerController.js:126-137 | day i is the i-th weekday from Monday; before rounding the twin leads by at least 1 and under 2 hours and the user's hours lie within an hour of the baseline; after rounding the lead lies strictly between 0.9 and 2.1 |
| Doppelganger.CreateAnalysis | backend/controllers/doppelgangerController.js:7-156 | rejected exactly when the baseline lacks study hours or performance; otherwise the stored analysis has the baseline (absent breaks 0, absent sleep 8), its outcomes, its recommendations, the catalogue and the seven-point series |
| Doppelganger.ScenarioImprovement | backend/controllers/doppelgangerController.js:198-199 | the improvement is five points per extra hour, clamped to [0, 20] |
| Doppelganger.ScenarioImprovementSlope | backend/controllers/doppelgangerController.js:198-199 | between the baseline hours and four hours above them, the improvement is exactly 5 points per extra hour |
| Doppelganger.SimulateScenario | backend/controllers/doppelgangerController.js:186-214 | the baseline performance is the latest analysis's performance when that is present and non-zero, otherwise 70; the baseline hours likewise are the stored hours or 3; the predicted score is the baseline plus the clamped improvement, capped at 100; the reported improvement is that clamped improvement rounded to hundredths, within [0, 20]; the reported hours, breaks and sleep are the request's when truthy, otherwise the baseline hours, 2 and 8, and so never 0 |
| Doppelganger.NoImprovementAtOrBelowBaseline | backend/controllers/doppelgangerController.js:198-201 | requesting the baseline hours or fewer, none or 0 improves nothing |
| Doppelganger.ImprovementCapped | backend/controllers/doppelgangerController.js:199-199 | four or more hours above the baseline reach the 20-point cap |
| Doppelganger.FiveHoursOverThree | backend/controllers/doppelgangerController.js:198-201 | with baseline 3 hours, requesting 5 improves by 10 points |
| Doppelganger.ZeroPerformanceBecomesSeventy | backend/controllers/doppelgangerController.js:194-194 | a stored performance of 0 is replaced by 70, as if there were no analysis |
| Chat.ClassifyMessage | backend/controllers/chatController.js:100-165 | the chosen reply's keywords occur in the lower-cased message, and no reply tested before it matches |
| Chat.TimerBeatsTime | backend/controllers/chatController.js:103-122 | a message containing "timer" gets the pomodoro reply although it also contains "time" |
| Chat.ExtractLinks | backend/controllers/chatController.js:168-194 | the three conditional pushes build exactly the phrase-ordered selection `LinksMatching`, from the user message alone |
| Chat.LinksUnfolded | backend/controllers/chatController.js:168-194 | the selection is the pomodoro, spaced-repetition and active-recall links, each included iff its phrase occurs |
| Chat.LinksPresentIff | backend/controllers/chatController.js:168-194 | at most three links; each link is present iff its phrase occurs in the lower-cased message; links appear in rule order |
| Chat.PomodoroOnlyLink | backend/controllers/chatController.js:172-177 | a message with "pomodoro" and neither other phrase gets exactly the link titled "Pomodoro Technique - Wikipedia" |
| Chat.ContextWindowIsSuffix | backend/controllers/chatController.js:52-55 | the service sees the last min(5, n) messages in order, ending with the user message just appended |
| Chat.ExchangeAppendsTwo | backend/controllers/chatController.js:31-86 | an exchange appends exactly two messages, the user's then the assistant's with the extracted links, and leaves earlier messages unchanged |
| Chat.ExchangeFallsBack | backend/controllers/chatController.js:68-76 | when the service is unconfigured or fails, the assistant's reply is the default response |
| Chat.Respond | backend/controllers/chatController.js:41-76 | the reply is the service's answer, or the default response when there is none |
| Chat.AppendExchange | backend/controllers/chatController.js:31-86 | the two pushes produce exactly the log `Exchange` describes; the returned reply is its last message |
| Chat.ChatStore.GetOrCreateChat | backend/controllers/chatController.js:5-17 | an existing log is returned unchanged; otherwise an empty log is created and returned |
| Chat.ChatStore.SendMessage | backend/controllers/chatController.js:20-97 | a missing or empty message is refused and nothing changes; otherwise only the user's log changes, to the full exchange, and the answer is the reply with its links |
| Chat.ChatStore.GetChatHistory | backend/controllers/chatController.js:197-204 | returns the user's messages, entering an empty log when there was none |
| Chat.ChatStore.ClearChat | backend/controllers/chatController.js:207-216 | the user's log becomes empty and every other user's log is unchanged |

## Left out

- Persistence: `find`, `sort`, `limit`, `save` and `findOneAndUpdate`, together with the filters that scope each query to the user. A query's result is an input sequence that is already sorted and limited.
- Express routing, authentication, error middleware and the 500 answers for thrown errors. They contain no logic of their own.
- `backend/controllers/taskController.js`: plain CRUD whose only logic is a `'medium'` default.
- The list handlers `getSchedules`, `getActivities`, `getStudySessions` and `getAnalyses`: each is a single sorted query whose result is returned as it is, with no logic to model.
- The handlers `getSchedule`, `updateSchedule`, `deleteSchedule`, `updateActivity`, `deleteActivity` and `getLatestAnalysis`: each is a single query plus a 404 answer when nothing matches, with no logic to model.
- The HTTP call to the text-generation service: its URL, model name, system prompt, `max_tokens` and the shape of its answer. The service is a function from the conversation to an optional answer, and any failure is `None`.
- `Math.random()` in the comparison series: the 14 draws are an input, each in [0, 1).
- The current time (`new Date()`, `Date.now`): it is an input string.
- Floating-point arithmetic: numbers are exact reals, so the model never sees a rounding error. `Math.round` is `floor(x + 0.5)`, and neither NaN nor Infinity is modelled.
- Text formatting: `toFixed(1)`, the interpolated scenario and description texts of `createAnalysis`, and the wording of the canned chat replies. An outcome records which adjustment it projects and the baseline value it starts from. A recommendation records its type, title and priority. A canned reply is stored as the `Reply` it is, which identifies one fixed text of the source.
- Chat.Message: a stored reply that the service wrote is `Text`, and a canned one is `Canned`. The model therefore keeps the two apart even when the service happens to return a canned text word for word.
- Chat.ClassifyMessage: `toLowerCase` is modelled on ASCII letters only. Non-ASCII case mappings are not modelled.
- Schema validation on save is modelled only where the model must say what is stored:
  - `createAnalysis` fails when its baseline lacks study hours, a required field, or lacks performance, which would make every predicted score NaN.
  - Any other refusal by the schema (a score above 100, a type outside the enumeration) is not modelled; the schema ranges appear only as lemma hypotheses.
- JSON values of the wrong type in `tasks`, `priorities` and chat messages. A `priorities` that is not an array is not modelled either: a string such as `"high"` is indexed by character, so slot 0 gets priority `"h"` (`backend/controllers/scheduleController.js`, line 45). A number or boolean task name is stored as its string, because the schema's `name` field is a `String`. An object or array task name, or a non-string chat message, makes the handler fail. In the model a generate request's `tasks` is either absent, not an array, or a list of names.
- StudySessions.UpdateStudySession: this assumes Mongoose 6 or later, which strips keys whose value is `undefined` from an update. An absent duration, or an end time when not completed, then leaves the stored field as it was. The MongoDB driver on its own, and Mongoose 5, would write `null` instead.
- Numbers and booleans sent as strings are not modelled: every request field is assumed to have its JSON type. A form-encoded body, which the server also accepts (`backend/server.js`, line 27), delivers every field as a string, and a JSON client can send `"4"` too. Then a `"0"` is truthy, so `x || d` keeps it, and `+` concatenates. As a result:
  - `createActivity` with `sleepHours: "0"` stores 0, not 8 (`backend/controllers/activityController.js`, line 25).
  - `createStudySession` with `duration: "0"` stores 0 whatever the type (`backend/controllers/studySessionController.js`, line 11).
  - `updateStudySession` with `completed: "false"` sets the end time to now, while Mongoose stores `completed` as false (`backend/controllers/studySessionController.js`, lines 29-31).
  - `createAnalysis` with `studyHours: "4"` and `pastPerformance: "80"` computes `"80" + 5 == "805"`, so every predicted score is 100 (`backend/controllers/doppelgangerController.js`, lines 34-49). The comparison series concatenates strings in the same way, and its `NaN` twin hours fail the cast on save (lines 130-131).
- JSON `null`, in request bodies and in stored records, is not modelled: `None` stands for `undefined` only. With `null` the code behaves differently in places. For example, a request with `breaks: null` and both study hours and performance given keeps `avgBreaks` as `null`, `null < 2` is true in JavaScript, and "Take Regular Breaks" is pushed (`backend/controllers/doppelgangerController.js`, line 75). Likewise Mongoose stores an explicit `null` rather than a schema default of 0.
- Doppelganger.CreateAnalysis: the `userId` and `analysisDate` fields are not modelled.
