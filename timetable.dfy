/** The static weekly timetable and the reply to `/timetable [day]`
    (main.py:32-78 and main.py:139-150). */
module Timetable {
  import Text

  /** One line of the timetable: a time range and what is taught then. */
  function Slot(time: string, subject: string): string
  {
    time + ": " + subject
  }

  /** The slots of each weekday, in teaching order. */
  const MondaySlots: seq<string> := [
    Slot("9:00 AM - 9:55 AM", "Web Programming"),
    Slot("9:55 AM - 10:50 AM", "AI"),
    Slot("10:50 AM - 11:00 AM", "Break"),
    Slot("11:00 AM - 11:55 AM", "Disaster Management"),
    Slot("11:55 AM - 12:40 PM", "Lunch Break"),
    Slot("12:40 PM - 1:35 PM", "Web Programming"),
    Slot("1:35 PM - 2:30 PM", "AI"),
    Slot("2:30 PM - 2:40 PM", "Break"),
    Slot("2:40 PM - 3:35 PM", "Honours"),
    Slot("3:35 PM - 4:30 PM", "Industrial Safety Engineering")
  ]

  const TuesdaySlots: seq<string> := [
    Slot("9:00 AM - 11:55 AM", "Compiler Lab"),
    Slot("11:55 AM - 12:40 PM", "Lunch Break"),
    Slot("12:40 PM - 1:35 PM", "Web Programming"),
    Slot("1:35 PM - 2:30 PM", "Minor"),
    Slot("2:30 PM - 2:40 PM", "Break"),
    Slot("2:40 PM - 3:35 PM", "Disaster Management"),
    Slot("3:35 PM - 4:30 PM", "AI")
  ]

  const WednesdaySlots: seq<string> := [
    Slot("9:00 AM - 11:55 AM", "Seminar"),
    Slot("11:55 AM - 12:40 PM", "Lunch Break"),
    Slot("12:40 PM - 1:35 PM", "Web Programming"),
    Slot("1:35 PM - 2:30 PM", "AI"),
    Slot("2:30 PM - 2:40 PM", "Break"),
    Slot("2:40 PM - 3:35 PM", "Honours"),
    Slot("3:35 PM - 4:30 PM", "Industrial Safety Engineering")
  ]

  const ThursdaySlots: seq<string> := [
    Slot("9:00 AM - 9:55 AM", "AI"),
    Slot("9:55 AM - 10:50 AM", "Industrial Safety Engineering"),
    Slot("10:50 AM - 11:00 AM", "Break"),
    Slot("11:00 AM - 11:55 AM", "Minor"),
    Slot("11:55 AM - 12:40 PM", "Lunch Break"),
    Slot("12:40 PM - 1:35 PM", "Disaster Management"),
    Slot("1:35 PM - 2:30 PM", "Honours"),
    Slot("2:30 PM - 2:40 PM", "Break"),
    Slot("2:40 PM - 3:35 PM", "Industrial Safety Engineering"),
    Slot("3:35 PM - 4:30 PM", "Minor")
  ]

  const FridaySlots: seq<string> := [
    Slot("9:00 AM - 4:30 PM", "Project")
  ]

  /** The class timetable by weekday; Saturday and Sunday have no entry. */
  const Table: map<string, seq<string>> := map[
    "Monday" := MondaySlots,
    "Tuesday" := TuesdaySlots,
    "Wednesday" := WednesdaySlots,
    "Thursday" := ThursdaySlots,
    "Friday" := FridaySlots
  ]

  /** The day a `/timetable` command asks about: its first argument
      capitalized, or, with no argument, the weekday name of the current date
      (which the caller supplies, since the clock is not modelled). */
  function RequestedDay(args: seq<string>, today: string): string
  {
    if |args| > 0 then Text.Capitalize(args[0]) else today
  }

  /** `timetable.get(day, [])`. */
  function Entries(day: string): seq<string>
  {
    if day in Table then Table[day] else []
  }

  /** The reply text for one day. */
  function DayText(day: string): string
  {
    var entries := Entries(day);
    if |entries| > 0 then day + "'s timetable:\n" + Text.Join(entries, '\n')
    else "No timetable available for " + day + "."
  }

  /** The reply to `/timetable` with the given arguments. */
  function CommandText(args: seq<string>, today: string): string
  {
    DayText(RequestedDay(args, today))
  }

  /** No slot of `slots` holds a line break. */
  predicate SingleLines(slots: seq<string>)
  {
    forall i :: 0 <= i < |slots| ==> '\n' !in slots[i]
  }

  lemma SlotOnOneLine(time: string, subject: string)
    requires '\n' !in time && '\n' !in subject
    ensures '\n' !in Slot(time, subject)
  {
    assert '\n' !in ": ";
  }

  /** The name of each weekday is capitalized and on one line, and so is
      each of its slots. */
  lemma MondayShape()
    ensures Text.Capitalize("Monday") == "Monday" && '\n' !in "Monday"
    ensures SingleLines(MondaySlots)
  {
    assert Text.Capitalize("Monday") == "Monday";
    SlotOnOneLine("9:00 AM - 9:55 AM", "Web Programming");
    SlotOnOneLine("9:55 AM - 10:50 AM", "AI");
    SlotOnOneLine("10:50 AM - 11:00 AM", "Break");
    SlotOnOneLine("11:00 AM - 11:55 AM", "Disaster Management");
    SlotOnOneLine("11:55 AM - 12:40 PM", "Lunch Break");
    SlotOnOneLine("12:40 PM - 1:35 PM", "Web Programming");
    SlotOnOneLine("1:35 PM - 2:30 PM", "AI");
    SlotOnOneLine("2:30 PM - 2:40 PM", "Break");
    SlotOnOneLine("2:40 PM - 3:35 PM", "Honours");
    SlotOnOneLine("3:35 PM - 4:30 PM", "Industrial Safety Engineering");
  }

  lemma TuesdayShape()
    ensures Text.Capitalize("Tuesday") == "Tuesday" && '\n' !in "Tuesday"
    ensures SingleLines(TuesdaySlots)
  {
    assert Text.Capitalize("Tuesday") == "Tuesday";
    SlotOnOneLine("9:00 AM - 11:55 AM", "Compiler Lab");
    SlotOnOneLine("11:55 AM - 12:40 PM", "Lunch Break");
    SlotOnOneLine("12:40 PM - 1:35 PM", "Web Programming");
    SlotOnOneLine("1:35 PM - 2:30 PM", "Minor");
    SlotOnOneLine("2:30 PM - 2:40 PM", "Break");
    SlotOnOneLine("2:40 PM - 3:35 PM", "Disaster Management");
    SlotOnOneLine("3:35 PM - 4:30 PM", "AI");
  }

  lemma WednesdayShape()
    ensures Text.Capitalize("Wednesday") == "Wednesday" && '\n' !in "Wednesday"
    ensures SingleLines(WednesdaySlots)
  {
    assert Text.Capitalize("Wednesday") == "Wednesday";
    SlotOnOneLine("9:00 AM - 11:55 AM", "Seminar");
    SlotOnOneLine("11:55 AM - 12:40 PM", "Lunch Break");
    SlotOnOneLine("12:40 PM - 1:35 PM", "Web Programming");
    SlotOnOneLine("1:35 PM - 2:30 PM", "AI");
    SlotOnOneLine("2:30 PM - 2:40 PM", "Break");
    SlotOnOneLine("2:40 PM - 3:35 PM", "Honours");
    SlotOnOneLine("3:35 PM - 4:30 PM", "Industrial Safety Engineering");
  }

  lemma ThursdayShape()
    ensures Text.Capitalize("Thursday") == "Thursday" && '\n' !in "Thursday"
    ensures SingleLines(ThursdaySlots)
  {
    assert Text.Capitalize("Thursday") == "Thursday";
    SlotOnOneLine("9:00 AM - 9:55 AM", "AI");
    SlotOnOneLine("9:55 AM - 10:50 AM", "Industrial Safety Engineering");
    SlotOnOneLine("10:50 AM - 11:00 AM", "Break");
    SlotOnOneLine("11:00 AM - 11:55 AM", "Minor");
    SlotOnOneLine("11:55 AM - 12:40 PM", "Lunch Break");
    SlotOnOneLine("12:40 PM - 1:35 PM", "Disaster Management");
    SlotOnOneLine("1:35 PM - 2:30 PM", "Honours");
    SlotOnOneLine("2:30 PM - 2:40 PM", "Break");
    SlotOnOneLine("2:40 PM - 3:35 PM", "Industrial Safety Engineering");
    SlotOnOneLine("3:35 PM - 4:30 PM", "Minor");
  }

  lemma FridayShape()
    ensures Text.Capitalize("Friday") == "Friday" && '\n' !in "Friday"
    ensures SingleLines(FridaySlots)
  {
    assert Text.Capitalize("Friday") == "Friday";
    SlotOnOneLine("9:00 AM - 4:30 PM", "Project");
  }

  /** Every day of the table has at least one slot, its name is already
      capitalized, and neither it nor any slot holds a line break. */
  lemma TableShape(day: string)
    requires day in Table
    ensures |Table[day]| > 0
    ensures Text.Capitalize(day) == day
    ensures '\n' !in day
    ensures SingleLines(Table[day])
  {
    if day == "Monday" { MondayShape(); }
    else if day == "Tuesday" { TuesdayShape(); }
    else if day == "Wednesday" { WednesdayShape(); }
    else if day == "Thursday" { ThursdayShape(); }
    else { assert day == "Friday"; FridayShape(); }
  }

  /** A day of the table is answered with a header line followed by exactly
      its slots, one per line; any other day gets the fixed "no timetable"
      sentence naming it. */
  lemma {:induction false} DayTextLines(day: string)
    ensures day in Table ==>
      Text.Split(DayText(day), '\n') == [day + "'s timetable:"] + Table[day]
    ensures day !in Table ==> DayText(day) == "No timetable available for " + day + "."
  {
    if day in Table {
      TableShape(day);
      HeaderLine(day);
      var header := day + "'s timetable:";
      Text.SplitAtSeparator(header, Text.Join(Table[day], '\n'), '\n');
      Text.SplitJoin(Table[day], '\n');
    }
  }

  /** The header of a day's reply is one line, ended by the first line break. */
  lemma HeaderLine(day: string)
    requires '\n' !in day
    ensures '\n' !in day + "'s timetable:"
    ensures day + "'s timetable:\n" == day + "'s timetable:" + ['\n']
  {
    assert '\n' !in "'s timetable:";
    assert forall c :: c in day + "'s timetable:" ==> c in day || c in "'s timetable:";
  }

  /** Typing a day of the table in any mix of upper and lower case asks for
      that day. */
  lemma AnyCaseNamesTheDay(arg: string, rest: seq<string>, today: string, day: string)
    requires day in Table
    requires Text.LowerAll(arg) == Text.LowerAll(day)
    ensures RequestedDay([arg] + rest, today) == day
  {
    TableShape(day);
    Text.CapitalizeIgnoresCase(arg, day);
  }
}
