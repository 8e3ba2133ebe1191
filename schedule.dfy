/**
 * The schedule handlers: `createSchedule` fills in defaults, and
 * `generateSchedule` turns an ordered list of task names into consecutive
 * one-hour slots starting at 08:00.
 */
module Schedules {
  import opened Js

  /** One entry of a schedule; times are "HH:00" labels, priority as the request gave it. */
  datatype Slot = Slot(name: string, startTime: string, endTime: string, priority: string)

  datatype Schedule = Schedule(name: string, tasks: seq<Slot>, date: string, isGenerated: bool)

  /** The `tasks` field of a generate request. */
  datatype TasksField = Absent | NotAnArray | TaskNames(names: seq<string>)

  /** The 400 answer "Tasks array is required". */
  datatype ScheduleError = TasksRequired

  const FirstHour: nat := 8

  /** `${hour.toString().padStart(2, '0')}:00`: the hour is not reduced modulo 24. */
  function HourLabel(hour: nat): string {
    PadStart(NatToString(hour), 2, '0') + ":00"
  }

  /** Reads an hour back from a label of the form digits followed by ":00". */
  function ParseHourLabel(text: string): Option<nat> {
    if |text| >= 4 && text[|text| - 3..] == ":00"
       && forall i :: 0 <= i < |text| - 3 ==> IsDigit(text[i])
    then Some(DigitsValue(text[..|text| - 3]))
    else None
  }

  /** Both labels read as hours and the first hour is the earlier one. */
  predicate HourBefore(a: string, b: string) {
    ParseHourLabel(a).Some? && ParseHourLabel(b).Some? && ParseHourLabel(a).value < ParseHourLabel(b).value
  }

  /** The padded hour is a digit string denoting the hour. */
  lemma PaddedHourDigits(hour: nat)
    ensures forall i :: 0 <= i < |PadStart(NatToString(hour), 2, '0')| ==> IsDigit(PadStart(NatToString(hour), 2, '0')[i])
    ensures DigitsValue(PadStart(NatToString(hour), 2, '0')) == hour
  {
    var s := NatToString(hour);
    NatToStringDigits(hour);
    if |s| < 2 {
      var padded := PadStart(s, 2, '0');
      assert padded == ['0'] + s;
      LeadingZeroValue(s);
    } else {
      assert PadStart(s, 2, '0') == s;
    }
  }

  /** Every label reads back as the hour it was made from. */
  lemma HourLabelRoundTrip(hour: nat)
    ensures ParseHourLabel(HourLabel(hour)) == Some(hour)
  {
    var padded := PadStart(NatToString(hour), 2, '0');
    PaddedHourDigits(hour);
    var text := padded + ":00";
    assert text == HourLabel(hour);
    assert text[..|text| - 3] == padded;
    assert text[|text| - 3..] == ":00";
    assert forall i :: 0 <= i < |text| - 3 ==> text[i] == padded[i];
  }

  /**
   * Below 10 the label is '0', the digit and ":00"; from 10 on it is the
   * decimal hour and ":00", with no padding.
   */
  lemma HourLabelShape(hour: nat)
    ensures hour < 10 ==> HourLabel(hour) == ['0', DigitChar(hour), ':', '0', '0']
    ensures hour >= 10 ==> HourLabel(hour) == NatToString(hour) + ":00"
    ensures hour < 100 ==> |HourLabel(hour)| == 5
  {
    if hour >= 10 {
      assert |NatToString(hour)| >= 2;
    } else {
      assert PadStart(NatToString(hour), 2, '0') == ['0', DigitChar(hour)];
    }
  }

  /** `priorities?.[index] || 'medium'` */
  function PriorityAt(priorities: Option<seq<Option<string>>>, index: nat): string {
    if priorities.Some? && index < |priorities.value| && TruthyString(priorities.value[index])
    then priorities.value[index].value
    else "medium"
  }

  /** The slot the map callback builds for the task at `index`. */
  function SlotAt(name: string, index: nat, priorities: Option<seq<Option<string>>>): Slot {
    Slot(name, HourLabel(FirstHour + index), HourLabel(FirstHour + index + 1), PriorityAt(priorities, index))
  }

  /** `tasks.map((taskName, index) => ...)` */
  function GeneratedSlots(names: seq<string>, priorities: Option<seq<Option<string>>>): (slots: seq<Slot>)
    ensures |slots| == |names|
    ensures forall i :: 0 <= i < |names| ==> slots[i] == SlotAt(names[i], i, priorities)
  {
    seq(|names|, i requires 0 <= i < |names| => SlotAt(names[i], i, priorities))
  }

  /**
   * `generateSchedule`: rejects a missing, non-array or empty task list;
   * otherwise one slot per task name, in order, in a schedule named
   * "Generated Schedule" and marked as generated.
   */
  function GenerateSchedule(tasks: TasksField, priorities: Option<seq<Option<string>>>, now: string)
    : (r: Result<Schedule, ScheduleError>)
    ensures r.Err? <==> !(tasks.TaskNames? && |tasks.names| > 0)
    ensures r.Ok? ==> r.value.name == "Generated Schedule" && r.value.isGenerated && r.value.date == now
    ensures r.Ok? ==> |r.value.tasks| == |tasks.names|
    ensures r.Ok? ==> forall i :: 0 <= i < |r.value.tasks| ==>
              r.value.tasks[i].name == tasks.names[i] && r.value.tasks[i].priority == PriorityAt(priorities, i)
    ensures r.Ok? ==> r.value.tasks == GeneratedSlots(tasks.names, priorities)
  {
    if !tasks.TaskNames? || |tasks.names| == 0 then Err(TasksRequired)
    else Ok(Schedule("Generated Schedule", GeneratedSlots(tasks.names, priorities), now, true))
  }

  /** Slot i runs from hour 8 + i to hour 9 + i. */
  lemma GeneratedSlotHours(names: seq<string>, priorities: Option<seq<Option<string>>>, i: nat)
    requires i < |names|
    ensures ParseHourLabel(GeneratedSlots(names, priorities)[i].startTime) == Some(8 + i)
    ensures ParseHourLabel(GeneratedSlots(names, priorities)[i].endTime) == Some(9 + i)
  {
    HourLabelRoundTrip(8 + i);
    HourLabelRoundTrip(9 + i);
  }

  /** The first slot starts at "08:00". */
  lemma FirstSlotStartsAt8(names: seq<string>, priorities: Option<seq<Option<string>>>)
    requires |names| > 0
    ensures GeneratedSlots(names, priorities)[0].startTime == "08:00"
  {
    HourLabelShape(8);
    assert DigitChar(8) == '8';
  }

  /** Each slot ends where the next one starts. */
  lemma GeneratedSlotsContiguous(names: seq<string>, priorities: Option<seq<Option<string>>>)
    ensures forall i :: 0 <= i < |names| - 1 ==>
              GeneratedSlots(names, priorities)[i].endTime == GeneratedSlots(names, priorities)[i + 1].startTime
  {
    var slots := GeneratedSlots(names, priorities);
    forall i | 0 <= i < |names| - 1
      ensures slots[i].endTime == slots[i + 1].startTime
    {
      assert FirstHour + i + 1 == FirstHour + (i + 1);
    }
  }

  /** Start hours strictly increase along the schedule. */
  lemma GeneratedStartHoursIncrease(names: seq<string>, priorities: Option<seq<Option<string>>>)
    ensures forall i, j :: 0 <= i < j < |names| ==> HourBefore(GeneratedSlots(names, priorities)[i].startTime,
                                                               GeneratedSlots(names, priorities)[j].startTime)
  {
    var slots := GeneratedSlots(names, priorities);
    forall i, j | 0 <= i < j < |names|
      ensures HourBefore(slots[i].startTime, slots[j].startTime)
    {
      GeneratedSlotHours(names, priorities, i);
      GeneratedSlotHours(names, priorities, j);
    }
  }

  lemma NatToString24()
    ensures NatToString(24) == ['2', '4']
  {
    assert NatToString(24) == NatToString(2) + [DigitChar(4)];
    assert NatToString(2) == [DigitChar(2)];
  }

  lemma HourLabel24()
    ensures HourLabel(24) == "24:00"
  {
    NatToString24();
    assert PadStart(['2', '4'], 2, '0') == ['2', '4'];
    assert ['2', '4'] + ":00" == "24:00";
  }

  /** The 17th task starts at "24:00": hours are not wrapped at midnight. */
  lemma SeventeenthSlotStartsAt24(names: seq<string>, priorities: Option<seq<Option<string>>>)
    requires |names| >= 17
    ensures GeneratedSlots(names, priorities)[16].startTime == "24:00"
  {
    var slots := GeneratedSlots(names, priorities);
    assert slots[16].startTime == HourLabel(FirstHour + 16);
    HourLabel24();
  }

  /**
   * `createSchedule`: the name defaults to "My Schedule" when absent or empty,
   * the tasks to none, the date to the current time, and the schedule is not
   * marked as generated.
   */
  function CreateSchedule(name: Option<string>, tasks: Option<seq<Slot>>, date: Option<string>, now: string)
    : (r: Schedule)
    ensures r.name != ""
    ensures TruthyString(name) ==> r.name == name.value
    ensures !TruthyString(name) ==> r.name == "My Schedule"
    ensures tasks.None? ==> r.tasks == []
    ensures tasks.Some? ==> r.tasks == tasks.value
    ensures TruthyString(date) ==> r.date == date.value
    ensures !TruthyString(date) ==> r.date == now
    ensures !r.isGenerated
  {
    Schedule(OrString(name, "My Schedule"), if tasks.Some? then tasks.value else [], OrString(date, now), false)
  }
}
