/**
 * The agenda store (src/store/agendaStore.ts): the user's meetings, the
 * day's time slots built from them, the selected meeting, and the export
 * of the meetings as an iCalendar text with one VEVENT per meeting.
 */
module AgendaStore {
  import opened Wrappers
  import opened Types
  import opened Lists
  import opened Text
  import opened Agenda

  // ----- iCalendar export -----

  /** The single day of the event, as `YYYY-MM-DD`. */
  const EventDate: string := "2025-02-15"

  /** The calendar object's opening lines. */
  const HeaderLines: seq<string> := [
    "BEGIN:VCALENDAR",
    "VERSION:2.0",
    "PRODID:-//BusinessConnect//Agenda//FR",
    "CALSCALE:GREGORIAN",
    "METHOD:PUBLISH",
    "X-WR-CALNAME:BusinessConnect - Mon Agenda"
  ]

  const EndLine: string := "END:VCALENDAR"

  /** The event date with its '-' removed (EventDateCompact proves it). */
  const CompactDate: string := "20250215"

  /** A DATE-TIME value: the compact date, 'T', the time without its first ':', then "00" seconds. */
  function Stamp(time: string): string {
    CompactDate + "T" + RemoveFirst(time, ':') + "00"
  }

  // The fixed parts of a VEVENT's lines.
  const BeginEvent: string := "BEGIN:VEVENT"
  const DtStart: string := "DTSTART:"
  const DtEnd: string := "DTEND:"
  const Summary: string := "SUMMARY:RDV avec "
  const Description: string := "DESCRIPTION:Speed-meeting avec "
  const Dash: string := " - "
  const Location: string := "LOCATION:"
  const Venue: string := " - Le Village by CA Luxembourg"
  const Confirmed: string := "STATUS:CONFIRMED"
  const Uid: string := "UID:"
  const UidDomain: string := "@businessconnect.lu"
  const EndEvent: string := "END:VEVENT"

  /** The nine content lines of the VEVENT of one meeting. */
  function EventLines(m: Meeting): (r: seq<string>)
    ensures |r| == 9
  {
    [ BeginEvent,
      DtStart + Stamp(m.startTime),
      DtEnd + Stamp(m.endTime),
      Summary + m.participant.name,
      Description + m.participant.name + Dash + m.participant.pitch,
      Location + m.table + Venue,
      Confirmed,
      Uid + m.id + UidDomain,
      EndEvent ]
  }

  /** The VEVENT lines as the export loop assembles them, from the compact date it computed. */
  lemma EventLinesFields(m: Meeting, compactDate: string)
    requires compactDate == CompactDate
    ensures EventLines(m) == [
      BeginEvent,
      DtStart + (compactDate + "T" + RemoveFirst(m.startTime, ':') + "00"),
      DtEnd + (compactDate + "T" + RemoveFirst(m.endTime, ':') + "00"),
      Summary + m.participant.name,
      Description + m.participant.name + Dash + m.participant.pitch,
      Location + m.table + Venue,
      Confirmed,
      Uid + m.id + UidDomain,
      EndEvent ]
  {
  }

  /** The VEVENT lines of all meetings, in order. */
  function AllEventLines(ms: seq<Meeting>): (r: seq<string>)
    ensures |r| == 9 * |ms|
  {
    FlatMapLength(ms, EventLines, 9);
    FlatMap(ms, EventLines)
  }

  /** The exported text: every line newline-terminated except the closing one. */
  function IcsText(ms: seq<Meeting>): string {
    Unlines(HeaderLines + AllEventLines(ms)) + EndLine
  }

  /** The meetings' blocks follow one another: the lines of `a + b` are those of `a`, then those of `b`. */
  lemma AllEventLinesAppend(a: seq<Meeting>, b: seq<Meeting>)
    ensures AllEventLines(a + b) == AllEventLines(a) + AllEventLines(b)
  {
    FlatMapAppend(a, b, EventLines);
  }

  /** The last meeting's VEVENT comes last. */
  lemma AllEventLinesSnoc(ms: seq<Meeting>)
    requires ms != []
    ensures AllEventLines(ms) == AllEventLines(ms[..|ms| - 1]) + EventLines(ms[|ms| - 1])
  {
  }

  /** Lines 9k .. 9k+8 of the events are the VEVENT of meeting k: one block per meeting, in order. */
  lemma {:induction false} EventBlock(ms: seq<Meeting>, k: int)
    requires 0 <= k < |ms|
    ensures AllEventLines(ms)[9 * k..9 * k + 9] == EventLines(ms[k])
    decreases |ms|
  {
    var init := ms[..|ms| - 1];
    if k == |ms| - 1 {
      assert AllEventLines(ms) == AllEventLines(init) + EventLines(ms[k]);
    } else {
      EventBlock(init, k);
      assert init[k] == ms[k];
      assert AllEventLines(ms)[..9 * |init|] == AllEventLines(init);
    }
  }

  /** The export opens with the header lines and closes with END:VCALENDAR. */
  lemma IcsFrame(ms: seq<Meeting>)
    ensures var t := IcsText(ms); var h := Unlines(HeaderLines);
      |h| + |EndLine| <= |t| && t[..|h|] == h && t[|t| - |EndLine|..] == EndLine
  {
    UnlinesAppend(HeaderLines, AllEventLines(ms));
  }

  /** A meeting whose texts have no line break. */
  ghost predicate SingleLine(m: Meeting) {
    '\n' !in m.startTime && '\n' !in m.endTime && '\n' !in m.participant.name
    && '\n' !in m.participant.pitch && '\n' !in m.table && '\n' !in m.id
  }

  /** No fixed text of the export has a line break. */
  lemma HeaderSingleLine()
    ensures forall k :: 0 <= k < |HeaderLines| ==> '\n' !in HeaderLines[k]
    ensures '\n' !in EndLine
  {
  }

  lemma EventTextsSingleLine()
    ensures '\n' !in CompactDate && '\n' !in BeginEvent && '\n' !in DtStart
    ensures '\n' !in DtEnd && '\n' !in Summary && '\n' !in Description
  {
  }

  lemma MoreEventTextsSingleLine()
    ensures '\n' !in Dash && '\n' !in Location && '\n' !in Venue && '\n' !in Confirmed
    ensures '\n' !in Uid && '\n' !in UidDomain && '\n' !in EndEvent
  {
  }

  lemma FixedTextsSingleLine()
    ensures forall k :: 0 <= k < |HeaderLines| ==> '\n' !in HeaderLines[k]
    ensures '\n' !in EndLine && '\n' !in CompactDate && '\n' !in BeginEvent && '\n' !in DtStart
    ensures '\n' !in DtEnd && '\n' !in Summary && '\n' !in Description && '\n' !in Dash
    ensures '\n' !in Location && '\n' !in Venue && '\n' !in Confirmed && '\n' !in Uid
    ensures '\n' !in UidDomain && '\n' !in EndEvent
  {
    HeaderSingleLine();
    EventTextsSingleLine();
    MoreEventTextsSingleLine();
  }

  lemma StampSingleLine(time: string)
    requires '\n' !in time
    ensures '\n' !in Stamp(time)
  {
    RemoveFirstShape(time, ':');
    FixedTextsSingleLine();
  }

  lemma EventLinesSingle(m: Meeting)
    requires SingleLine(m)
    ensures forall k :: 0 <= k < 9 ==> '\n' !in EventLines(m)[k]
  {
    FixedTextsSingleLine();
    StampSingleLine(m.startTime);
    StampSingleLine(m.endTime);
  }

  lemma {:induction false} AllEventLinesSingle(ms: seq<Meeting>)
    requires forall k :: 0 <= k < |ms| ==> SingleLine(ms[k])
    ensures forall k :: 0 <= k < |AllEventLines(ms)| ==> '\n' !in AllEventLines(ms)[k]
    decreases |ms|
  {
    if ms != [] {
      AllEventLinesSingle(ms[..|ms| - 1]);
      EventLinesSingle(ms[|ms| - 1]);
      AllEventLinesSnoc(ms);
    }
  }

  /**
   * When no meeting text contains a line break, the export splits into
   * exactly the header lines, the nine VEVENT lines of each meeting in
   * order, and END:VCALENDAR.
   */
  lemma IcsLines(ms: seq<Meeting>)
    requires forall k :: 0 <= k < |ms| ==> SingleLine(ms[k])
    ensures Split(IcsText(ms)) == HeaderLines + AllEventLines(ms) + [EndLine]
  {
    BodySingle(ms);
    SplitUnlines(HeaderLines + AllEventLines(ms), EndLine);
  }

  lemma BodySingle(ms: seq<Meeting>)
    requires forall k :: 0 <= k < |ms| ==> SingleLine(ms[k])
    ensures NoLineBreaks(HeaderLines + AllEventLines(ms))
    ensures '\n' !in EndLine
  {
    AllEventLinesSingle(ms);
    FixedTextsSingleLine();
    var ls := HeaderLines + AllEventLines(ms);
    forall k | 0 <= k < |ls| ensures '\n' !in ls[k] {
      if k >= |HeaderLines| {
        assert ls[k] == AllEventLines(ms)[k - |HeaderLines|];
      }
    }
  }

  /** With no meetings the export is the header lines followed by END:VCALENDAR. */
  lemma IcsEmpty()
    ensures Split(IcsText([])) == HeaderLines + [EndLine]
  {
    IcsLines([]);
    assert HeaderLines + AllEventLines([]) == HeaderLines;
  }

  /** Removing every '-' from `y-m-d` where the parts have none leaves `ymd`. */
  lemma RemoveDashes(y: string, mo: string, d: string)
    requires '-' !in y && '-' !in mo && '-' !in d
    ensures RemoveAll(y + "-" + mo + "-" + d, '-') == y + mo + d
  {
    assert y + "-" + mo + "-" + d == y + ['-'] + (mo + ['-'] + d);
    RemoveAllAfter(y, '-', mo + ['-'] + d);
    RemoveAllAfter(mo, '-', d);
    RemoveAllAbsent(d, '-');
  }

  lemma DateParts()
    ensures EventDate == "2025" + "-" + "02" + "-" + "15"
    ensures CompactDate == "2025" + "02" + "15"
  {
  }

  /** The compact date is the event date with its '-' removed. */
  lemma EventDateCompact()
    ensures RemoveAll(EventDate, '-') == CompactDate
  {
    DateParts();
    RemoveDashes("2025", "02", "15");
  }

  /**
   * For a time written by the agenda's `HH:MM` formatter, DTSTART/DTEND
   * hold the date, 'T', the hour digits, the minute digits and "00".
   */
  lemma StampOfFormattedTime(minutes: nat)
    ensures Stamp(FormatTime(minutes))
      == "20250215T" + PadStart2(Dec(minutes / 60)) + PadStart2(Dec(minutes % 60)) + "00"
  {
    FormatTimeSplit(minutes);
    RemoveFirstSeparator(PadStart2(Dec(minutes / 60)), ':', PadStart2(Dec(minutes % 60)));
  }

  // ----- the store -----

  lemma ExportStart(ms: seq<Meeting>)
    ensures Unlines(HeaderLines + AllEventLines(ms[..0])) == Unlines(HeaderLines)
  {
    assert HeaderLines + AllEventLines(ms[..0]) == HeaderLines;
  }

  lemma ExportEnd(ms: seq<Meeting>)
    ensures Unlines(HeaderLines + AllEventLines(ms[..|ms|])) + EndLine == IcsText(ms)
  {
    assert ms[..|ms|] == ms;
  }

  /** Appending one meeting's VEVENT text extends the export by that meeting's lines. */
  lemma ExportStep(ms: seq<Meeting>, i: int)
    requires 0 <= i < |ms|
    ensures Unlines(HeaderLines + AllEventLines(ms[..i + 1]))
      == Unlines(HeaderLines + AllEventLines(ms[..i])) + Unlines(EventLines(ms[i]))
  {
    assert ms[..i + 1][..i] == ms[..i];
    assert HeaderLines + AllEventLines(ms[..i + 1])
      == HeaderLines + AllEventLines(ms[..i]) + EventLines(ms[i]);
    UnlinesAppend(HeaderLines + AllEventLines(ms[..i]), EventLines(ms[i]));
  }

  class AgendaStore {
    var meetings: seq<Meeting>
    var timeSlots: seq<TimeSlot>
    var selectedMeeting: Option<Meeting>

    /** The initial state: the given meetings, their day of slots, nothing selected. */
    constructor(sampleMeetings: seq<Meeting>)
      ensures meetings == sampleMeetings
      ensures timeSlots == DaySlots(sampleMeetings)
      ensures selectedMeeting == None
    {
      meetings := sampleMeetings;
      var slots := GenerateTimeSlots(sampleMeetings);
      timeSlots := slots;
      selectedMeeting := None;
    }

    /** `setSelectedMeeting(meeting)`: only the selection changes. */
    method SetSelectedMeeting(meeting: Option<Meeting>)
      modifies this`selectedMeeting
      ensures selectedMeeting == meeting
    {
      selectedMeeting := meeting;
    }

    /** `getMeetingById(id)`: the first meeting with that id, if any. */
    function GetMeetingById(id: string): (r: Option<Meeting>)
      reads this
      ensures r.None? <==> forall k :: 0 <= k < |meetings| ==> meetings[k].id != id
      ensures r.Some? ==>
        exists k :: 0 <= k < |meetings| && meetings[k] == r.value && r.value.id == id
          && forall j :: 0 <= j < k ==> meetings[j].id != id
    {
      Find(meetings, (m: Meeting) => m.id == id)
    }

    /** `exportToICS()`: the header, one VEVENT per meeting appended in a loop, then the closing line. */
    method ExportToICS() returns (icsContent: string)
      ensures icsContent == IcsText(meetings)
    {
      var ms := meetings;
      var eventDate := EventDate;
      var compactDate := RemoveAll(eventDate, '-');
      EventDateCompact();
      icsContent := Unlines(HeaderLines);
      ExportStart(ms);
      for i := 0 to |ms|
        invariant icsContent == Unlines(HeaderLines + AllEventLines(ms[..i]))
      {
        var meeting := ms[i];
        var startDateTime := compactDate + "T" + RemoveFirst(meeting.startTime, ':') + "00";
        var endDateTime := compactDate + "T" + RemoveFirst(meeting.endTime, ':') + "00";
        var event := [
          BeginEvent,
          DtStart + startDateTime,
          DtEnd + endDateTime,
          Summary + meeting.participant.name,
          Description + meeting.participant.name + Dash + meeting.participant.pitch,
          Location + meeting.table + Venue,
          Confirmed,
          Uid + meeting.id + UidDomain,
          EndEvent ];
        EventLinesFields(meeting, compactDate);
        ExportStep(ms, i);
        icsContent := icsContent + Unlines(event);
      }
      ExportEnd(ms);
      icsContent := icsContent + EndLine;
    }
  }
}
