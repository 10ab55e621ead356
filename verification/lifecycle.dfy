/** The tournament lifecycle: its status at a reference date and the number of days played. */
module Lifecycle {
  import opened Domain

  /** Status of a tournament with window [start, end] (both inclusive) at `date`. */
  function StatusAt(start: Date, end: Date, date: Date): (s: TournamentStatus)
    ensures s == NotStarted <==> date < start
    ensures s == Started <==> start <= date <= end
    ensures s == Finished <==> start <= date && end < date
  {
    if date < start then NotStarted
    else if end < date then Finished
    else Started
  }

  /** Position of a status in the order NotStarted, Started, Finished. */
  function Stage(s: TournamentStatus): nat {
    match s
    case NotStarted => 0
    case Started => 1
    case Finished => 2
  }

  /** A tournament's status only moves forward as the reference date advances. */
  lemma StatusMonotone(start: Date, end: Date, d1: Date, d2: Date)
    requires d1 <= d2
    ensures Stage(StatusAt(start, end, d1)) <= Stage(StatusAt(start, end, d2))
  {
  }

  /**
   * The number of days `from.datesUntil(to)` yields: the days from `from` (inclusive) to `to`
   * (exclusive). The library rejects a `to` before `from` with an exception, modelled by None.
   */
  function DatesUntilCount(from: Date, to: Date): (r: Option<nat>)
    ensures r.None? <==> to < from
    ensures r.Some? ==> from + r.value == to
  {
    if to < from then None else Some(to - from)
  }

  /**
   * Days of the tournament that have fully elapsed at `date`: none before the start, the days
   * strictly before `date` while it runs, and the whole window once it is over. None when the
   * window is inverted and the date is on or after the start (the count of the window throws).
   */
  function DaysPlayedAt(start: Date, end: Date, date: Date): (r: Option<nat>)
    ensures r.None? <==> end < start && start <= date && end < date
    ensures date < start ==> r == Some(0)
    ensures start <= date <= end ==> r == Some(date - start)
    ensures start <= end < date ==> r == Some(end - start + 1)
  {
    match StatusAt(start, end, date)
    case NotStarted => Some(0)
    case Started => DatesUntilCount(start, date)
    case Finished =>
      match DatesUntilCount(start, end)
      case None => None
      case Some(n) => Some(n + 1)
  }

  /** On a well-formed window the days played never exceed the window's length. */
  lemma DaysPlayedBounded(start: Date, end: Date, date: Date)
    requires start <= end
    ensures DaysPlayedAt(start, end, date).Some?
    ensures DaysPlayedAt(start, end, date).value <= end - start + 1
  {
  }

  /** On a well-formed window the days played never decrease as the date advances. */
  lemma DaysPlayedMonotone(start: Date, end: Date, d1: Date, d2: Date)
    requires start <= end && d1 <= d2
    ensures DaysPlayedAt(start, end, d1).Some? && DaysPlayedAt(start, end, d2).Some?
    ensures DaysPlayedAt(start, end, d1).value <= DaysPlayedAt(start, end, d2).value
  {
  }

  /** Past the end, the days played are the same however far past it the date is. */
  lemma DaysPlayedConstantAfterEnd(start: Date, end: Date, d1: Date, d2: Date)
    requires start <= end && end < d1 && end < d2
    ensures DaysPlayedAt(start, end, d1) == DaysPlayedAt(start, end, d2)
  {
  }

  /** The window 2016-06-10 .. 2016-06-12: 0, 0, 0, 1, 2 on the end day, then 3 for good. */
  lemma ThreeDayWindowDaysPlayed()
    ensures DaysPlayedAt(16962, 16964, 16960) == Some(0)
    ensures DaysPlayedAt(16962, 16964, 16961) == Some(0)
    ensures DaysPlayedAt(16962, 16964, 16962) == Some(0)
    ensures DaysPlayedAt(16962, 16964, 16963) == Some(1)
    ensures DaysPlayedAt(16962, 16964, 16964) == Some(2)
    ensures DaysPlayedAt(16962, 16964, 16965) == Some(3)
    ensures DaysPlayedAt(16962, 16964, 16966) == Some(3)
  {
  }
}
