/** The two day-of-week types of the app.

    `WeekDay` (used by the main list, the schedule picker and the tracker
    creation form) has seven cases in Monday-first order, an `index` equal to
    the position in `allCases`, and a constructor from the calendar's weekday
    number, where 1 is Sunday.

    `Weekday` (used by the persistence stores and the habit form) is not part
    of this model's sources beyond its use: it has an `Int` raw value and a
    failable `init(rawValue:)`. It is modelled by its raw value; which raw
    values name a case is the parameter `known`. */
module WeekDays {
  import opened Common

  datatype WeekDay = Monday | Tuesday | Wednesday | Thursday | Friday | Saturday | Sunday

  const AllCases: seq<WeekDay> := [Monday, Tuesday, Wednesday, Thursday, Friday, Saturday, Sunday]

  /** `WeekDay.index`: the position of the day in `allCases`. */
  function Index(d: WeekDay): (i: nat)
    ensures i < |AllCases| && AllCases[i] == d
  {
    match d
    case Monday => 0
    case Tuesday => 1
    case Wednesday => 2
    case Thursday => 3
    case Friday => 4
    case Saturday => 5
    case Sunday => 6
  }

  /** `allCases` names every day once, so a day's index identifies it. */
  lemma IndexInjective(d: WeekDay, e: WeekDay)
    ensures Index(d) == Index(e) <==> d == e
  {
  }

  /** `WeekDay(calendarWeekday:)`. */
  function FromCalendarWeekday(n: int): (r: Option<WeekDay>)
  {
    match n
    case 2 => Some(Monday)
    case 3 => Some(Tuesday)
    case 4 => Some(Wednesday)
    case 5 => Some(Thursday)
    case 6 => Some(Friday)
    case 7 => Some(Saturday)
    case 1 => Some(Sunday)
    case _ => None
  }

  /** The calendar numbers 1 (Sunday) to 7 (Saturday) convert, and no other
      number does; the converted day sits five places further round the
      Monday-first week. */
  lemma CalendarWeekdayConversion(n: int)
    ensures FromCalendarWeekday(n).Some? <==> 1 <= n <= 7
    ensures FromCalendarWeekday(n).Some? ==> Index(FromCalendarWeekday(n).value) == (n + 5) % 7
  {
  }

  /** Every day has exactly one calendar number. */
  lemma CalendarWeekdayOnto(d: WeekDay)
    ensures FromCalendarWeekday((Index(d) + 1) % 7 + 1) == Some(d)
  {
  }

  datatype Weekday = Weekday(rawValue: int)

  /** `Weekday(rawValue:)`: a raw value names a day iff it is one of `known`. */
  function WeekdayFromRaw(raw: int, known: set<int>): (r: Option<Weekday>)
    ensures r.Some? <==> raw in known
    ensures r.Some? ==> r.value.rawValue == raw
  {
    if raw in known then Some(Weekday(raw)) else None
  }
}
