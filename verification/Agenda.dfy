/**
 * The day's agenda grid (src/data/agenda.ts): ten 15-minute slots from
 * 10:00, a lunch break from 12:30 to 14:30, then ten 15-minute slots from
 * 14:30; a grid slot holds the first of the user's meetings that starts at
 * its start time.
 */
module Agenda {
  import opened Wrappers
  import opened Types
  import opened Lists
  import opened Text

  // The morning session starts at minute 600 (10:00), the afternoon session
  // at minute 870 (14:30); each has 10 slots of 15 minutes. Slot 10 of the
  // day is the lunch break, and the day has 21 slots.

  // ----- HH:MM -----

  /** A clock time as `HH:MM`: the hour and the minute, each padded to two digits. */
  function FormatTime(minutes: nat): string {
    PadStart2(Dec(minutes / 60)) + ":" + PadStart2(Dec(minutes % 60))
  }

  /** A well-formed `HH:MM`. */
  ghost predicate IsClockText(t: string) {
    |t| == 5 && t[2] == ':' && AllDigits(t[..2]) && AllDigits(t[3..])
  }

  /** The minute of the day an `HH:MM` text denotes. */
  function ParseTime(t: string): nat
    requires IsClockText(t)
  {
    ParseDec(t[..2]) * 60 + ParseDec(t[3..])
  }

  lemma ParseTwoDigits(a: nat, b: nat)
    requires a < 10 && b < 10
    ensures AllDigits([DigitChar(a), DigitChar(b)])
    ensures ParseDec([DigitChar(a), DigitChar(b)]) == 10 * a + b
  {
    var s := [DigitChar(a), DigitChar(b)];
    assert s[..1] == [DigitChar(a)];
    assert s[..1][..0] == [];
    assert ParseDec(s[..1]) == a;
  }

  lemma ParsePadded(n: nat)
    requires n < 100
    ensures AllDigits(PadStart2(Dec(n))) && ParseDec(PadStart2(Dec(n))) == n
  {
    PadDecTwoDigits(n);
    ParseTwoDigits(n / 10, n % 10);
  }

  /** Formatting then reading back a time of less than 100 hours gives the same minute. */
  lemma ParseFormatTime(minutes: nat)
    requires minutes < 6000
    ensures IsClockText(FormatTime(minutes)) && ParseTime(FormatTime(minutes)) == minutes
  {
    var r := FormatTime(minutes);
    var hh := PadStart2(Dec(minutes / 60));
    var mm := PadStart2(Dec(minutes % 60));
    PadDecTwoDigits(minutes / 60);
    PadDecTwoDigits(minutes % 60);
    assert r[..2] == hh && r[3..] == mm;
    ParsePadded(minutes / 60);
    ParsePadded(minutes % 60);
  }

  /** Different minutes are written differently. */
  lemma FormatTimeInjective(a: nat, b: nat)
    requires a < 6000 && b < 6000 && a != b
    ensures FormatTime(a) != FormatTime(b)
  {
    ParseFormatTime(a);
    ParseFormatTime(b);
  }

  /** The hour part of a formatted time has no ':' in it, so the first ':' is the separator. */
  lemma FormatTimeSplit(minutes: nat)
    ensures FormatTime(minutes) == PadStart2(Dec(minutes / 60)) + [':'] + PadStart2(Dec(minutes % 60))
    ensures ':' !in PadStart2(Dec(minutes / 60))
  {
    var d := Dec(minutes / 60);
    var hh := PadStart2(d);
    DecDigits(minutes / 60);
    PadStart2Shape(d);
    forall k | 0 <= k < |hh| ensures hh[k] != ':' {
      if k >= |hh| - |d| {
        assert hh[k] == hh[|hh| - |d|..][k - (|hh| - |d|)] == d[k - (|hh| - |d|)];
      }
    }
  }

  // ----- slots -----

  /** The test the source applies to each meeting of the user: it starts at `t`. */
  function StartsAt(t: string): Meeting -> bool {
    (m: Meeting) => m.startTime == t
  }

  /** The slot of the 15-minute grid starting at minute `start`. */
  function GridSlot(id: string, start: nat, meetings: seq<Meeting>): TimeSlot {
    var startTime := FormatTime(start);
    var meeting := Find(meetings, StartsAt(startTime));
    TimeSlot(id, startTime, FormatTime(start + 15),
      if meeting.Some? then MeetingSlot else FreeSlot, meeting, None)
  }

  const Lunch: TimeSlot := TimeSlot("slot-lunch", "12:30", "14:30", BreakSlot, None, Some("Pause déjeuner"))

  /** The id of slot k of the day. */
  function SlotId(k: nat): string {
    if k < 10 then "slot-morning-" + Dec(k)
    else if k == 10 then "slot-lunch"
    else "slot-afternoon-" + Dec(k - 11)
  }

  /** The minute at which slot k of the day starts. */
  function SlotStart(k: nat): nat {
    if k <= 10 then 600 + 15 * k
    else 870 + 15 * (k - 11)
  }

  /** The minute at which slot k of the day ends. */
  function SlotEnd(k: nat): nat {
    if k == 10 then 870 else SlotStart(k) + 15
  }

  /** Slot k of the day, described by its position alone. */
  function DaySlot(k: nat, meetings: seq<Meeting>): TimeSlot {
    if k == 10 then Lunch else GridSlot(SlotId(k), SlotStart(k), meetings)
  }

  /** The whole day, slot by slot. */
  function DaySlots(meetings: seq<Meeting>): (r: seq<TimeSlot>)
    ensures |r| == 21
  {
    seq(21, k requires 0 <= k < 21 => DaySlot(k, meetings))
  }

  /** Appending the next slot of the day to a prefix of the day gives the next prefix. */
  lemma ExtendPrefix(meetings: seq<Meeting>, slots: seq<TimeSlot>, n: nat, slot: TimeSlot)
    requires n < 21 && slots == DaySlots(meetings)[..n] && slot == DaySlot(n, meetings)
    ensures slots + [slot] == DaySlots(meetings)[..n + 1]
  {
    PrefixStep(DaySlots(meetings), n);
  }

  /** What one pass of a session loop pushes: the grid slot of position k, field by field. */
  lemma SessionSlot(meetings: seq<Meeting>, k: nat, id: string, start: nat, end: nat)
    requires k < 21 && k != 10 && id == SlotId(k) && start == SlotStart(k) && end == start + 15
    ensures var startTime := FormatTime(start);
      var meeting := Find(meetings, StartsAt(startTime));
      DaySlots(meetings)[k]
        == TimeSlot(id, startTime, FormatTime(end), if meeting.Some? then MeetingSlot else FreeSlot, meeting, None)
  {
  }

  /**
   * `generateTimeSlots(userMeetings)`: a morning loop pushing ten grid
   * slots, the lunch break, then an afternoon loop pushing ten more.
   */
  method GenerateTimeSlots(userMeetings: seq<Meeting>) returns (slots: seq<TimeSlot>)
    ensures slots == DaySlots(userMeetings)
  {
    slots := [];
    var morningStart := 10 * 60;
    for i := 0 to 10
      invariant slots == DaySlots(userMeetings)[..i]
    {
      var startMinutes := morningStart + i * 15;
      var endMinutes := startMinutes + 15;
      var startTime := FormatTime(startMinutes);
      var endTime := FormatTime(endMinutes);
      var meeting := Find(userMeetings, StartsAt(startTime));
      var slot := TimeSlot("slot-morning-" + Dec(i), startTime, endTime,
        if meeting.Some? then MeetingSlot else FreeSlot, meeting, None);
      SessionSlot(userMeetings, i, "slot-morning-" + Dec(i), startMinutes, endMinutes);
      ExtendPrefix(userMeetings, slots, i, slot);
      slots := slots + [slot];
    }
    var lunch := TimeSlot("slot-lunch", "12:30", "14:30", BreakSlot, None, Some("Pause déjeuner"));
    ExtendPrefix(userMeetings, slots, 10, lunch);
    slots := slots + [lunch];
    var afternoonStart := 14 * 60 + 30;
    for i := 0 to 10
      invariant slots == DaySlots(userMeetings)[..11 + i]
    {
      var startMinutes := afternoonStart + i * 15;
      var endMinutes := startMinutes + 15;
      var startTime := FormatTime(startMinutes);
      var endTime := FormatTime(endMinutes);
      var meeting := Find(userMeetings, StartsAt(startTime));
      var slot := TimeSlot("slot-afternoon-" + Dec(i), startTime, endTime,
        if meeting.Some? then MeetingSlot else FreeSlot, meeting, None);
      assert 11 + i - 11 == i;
      SessionSlot(userMeetings, 11 + i, "slot-afternoon-" + Dec(i), startMinutes, endMinutes);
      ExtendPrefix(userMeetings, slots, 11 + i, slot);
      slots := slots + [slot];
    }
    assert slots == DaySlots(userMeetings)[..21];
  }

  // ----- properties of the day -----

  /**
   * Slot k runs from minute SlotStart(k) to minute SlotEnd(k): morning slot i
   * spans [600 + 15i, 615 + 15i], the lunch break [750, 870] and afternoon
   * slot i spans [870 + 15i, 885 + 15i].
   */
  lemma DaySlotTimes(meetings: seq<Meeting>, k: nat)
    requires k < 21
    ensures DaySlots(meetings)[k].startTime == FormatTime(SlotStart(k))
    ensures DaySlots(meetings)[k].endTime == FormatTime(SlotEnd(k))
  {
    if k == 10 {
      assert DaySlots(meetings)[k] == Lunch;
      assert FormatTime(750) == "12:30" by { assert 750 / 60 == 12 && 750 % 60 == 30; }
      assert FormatTime(870) == "14:30" by { assert 870 / 60 == 14 && 870 % 60 == 30; }
    } else {
      assert DaySlots(meetings)[k] == GridSlot(SlotId(k), SlotStart(k), meetings);
    }
  }

  lemma SlotsMeet(k: nat)
    requires k + 1 < 21
    ensures SlotEnd(k) == SlotStart(k + 1)
  {
  }

  /** The slots tile the day: each slot ends when the next one begins. */
  lemma DaySlotsContiguous(meetings: seq<Meeting>)
    ensures var day := DaySlots(meetings);
      forall k :: 0 <= k < |day| - 1 ==> day[k].endTime == day[k + 1].startTime
  {
    var day := DaySlots(meetings);
    forall k | 0 <= k < |day| - 1
      ensures day[k].endTime == day[k + 1].startTime
    {
      DaySlotTimes(meetings, k);
      DaySlotTimes(meetings, k + 1);
      SlotsMeet(k);
    }
  }

  /** The day runs from 10:00 to 17:00. */
  lemma DaySpan(meetings: seq<Meeting>)
    ensures DaySlots(meetings)[0].startTime == "10:00"
    ensures DaySlots(meetings)[20].endTime == "17:00"
  {
    DaySlotTimes(meetings, 0);
    DaySlotTimes(meetings, 20);
    assert FormatTime(600) == "10:00" by { assert 600 / 60 == 10 && 600 % 60 == 0; }
    assert FormatTime(1020) == "17:00" by { assert 1020 / 60 == 17 && 1020 % 60 == 0; }
  }

  /**
   * Every slot but the lunch break is a grid slot: it is a meeting slot
   * carrying the first of the user's meetings that starts at its start time
   * when there is one, and a free slot with no meeting otherwise.
   */
  lemma DaySlotKinds(meetings: seq<Meeting>, k: nat)
    requires k < 21
    ensures var s := DaySlots(meetings)[k];
      if k == 10 then s == Lunch
      else
        s.slotLabel.None?
        && (s.kind == MeetingSlot <==> exists j :: 0 <= j < |meetings| && meetings[j].startTime == s.startTime)
        && (s.kind == FreeSlot <==> s.meeting.None?)
        && (s.meeting.Some? ==>
              exists j :: 0 <= j < |meetings| && meetings[j] == s.meeting.value
                && meetings[j].startTime == s.startTime
                && forall i :: 0 <= i < j ==> meetings[i].startTime != s.startTime)
  {
    var s := DaySlots(meetings)[k];
    if k != 10 {
      var f := Find(meetings, StartsAt(s.startTime));
      assert s.meeting == f;
      if f.Some? {
        var j :| 0 <= j < |meetings| && meetings[j] == f.value && StartsAt(s.startTime)(meetings[j])
          && forall i :: 0 <= i < j ==> !StartsAt(s.startTime)(meetings[i]);
        assert meetings[j].startTime == s.startTime;
      } else {
        forall j | 0 <= j < |meetings| ensures meetings[j].startTime != s.startTime {
          assert !StartsAt(s.startTime)(meetings[j]);
        }
      }
    }
  }

  // ----- slot ids -----

  /** Appending different strings to the same prefix gives different strings. */
  lemma PrefixKeepsDifference(p: string, a: string, b: string)
    requires a != b
    ensures p + a != p + b
  {
    assert (p + a)[|p|..] == a;
    assert (p + b)[|p|..] == b;
  }

  /** Different positions of the day have different ids. */
  lemma SlotIdInjective(i: nat, j: nat)
    requires i < j < 21
    ensures SlotId(i) != SlotId(j)
  {
    var a := SlotId(i);
    var b := SlotId(j);
    if j < 10 {
      DecInjective(i, j);
      PrefixKeepsDifference("slot-morning-", Dec(i), Dec(j));
    } else if i > 10 {
      DecInjective(i - 10 - 1, j - 10 - 1);
      PrefixKeepsDifference("slot-afternoon-", Dec(i - 10 - 1), Dec(j - 10 - 1));
    } else if i < 10 && j == 10 {
      assert a[5] == 'm' && b[5] == 'l';
    } else if i < 10 {
      assert a[5] == 'm' && b[5] == 'a';
    } else {
      assert a[5] == 'l' && b[5] == 'a';
    }
  }

  /** The ids of a list of slots. */
  function SlotIds(slots: seq<TimeSlot>): (r: seq<string>)
    ensures |r| == |slots| && forall k :: 0 <= k < |slots| ==> r[k] == slots[k].id
  {
    seq(|slots|, k requires 0 <= k < |slots| => slots[k].id)
  }

  /** Two different slots of the day never share an id. */
  lemma DaySlotIdsDistinct(meetings: seq<Meeting>)
    ensures NoDup(SlotIds(DaySlots(meetings)))
  {
    var ids := SlotIds(DaySlots(meetings));
    forall i, j | 0 <= i < j < |ids|
      ensures ids[i] != ids[j]
    {
      SlotIdInjective(i, j);
    }
  }
}
