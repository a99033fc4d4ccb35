/** The per-day reminder counter a user owns. Its implementation is not part
    of this model: it is abstracted as a finite map from a day to a count, in
    which a day without an entry holds zero reminders. */
module Calendars {

  /** A calendar day (a timestamp truncated to its date), abstracted as a day number. */
  type Date = int

  /** The largest value of the 32-bit signed counter the calendar stores. */
  const IntMaxValue: int := 0x7FFF_FFFF

  type Calendar = map<Date, int>

  /** The number of reminders recorded on day `d`; zero for a day never counted. */
  function NumEventsOnDay(c: Calendar, d: Date): (n: int)
    ensures d in c ==> n == c[d]
    ensures d !in c ==> n == 0
    ensures CountsInRange(c) ==> 0 <= n <= IntMaxValue
  {
    if d in c then c[d] else 0
  }

  /** Every recorded count is a non-negative value of the 32-bit counter. */
  ghost predicate CountsInRange(c: Calendar)
  {
    forall d :: d in c ==> 0 <= c[d] <= IntMaxValue
  }

  /** The calendar in which every day is empty. */
  function Empty(): (c: Calendar)
    ensures forall d :: NumEventsOnDay(c, d) == 0
    ensures CountsInRange(c)
  {
    map[]
  }

  /** One more reminder on day `d`; every other day keeps its count. */
  function IncrementEventCount(c: Calendar, d: Date): (c': Calendar)
    ensures NumEventsOnDay(c', d) == NumEventsOnDay(c, d) + 1
    ensures forall e :: e != d ==> NumEventsOnDay(c', e) == NumEventsOnDay(c, e)
    ensures CountsInRange(c) && NumEventsOnDay(c, d) < IntMaxValue ==> CountsInRange(c')
  {
    c[d := NumEventsOnDay(c, d) + 1]
  }

  /** One reminder fewer on day `d`; every other day keeps its count.
      What the calendar does on a day that holds no reminder is not known,
      so that case is excluded. */
  function DecrementEventCount(c: Calendar, d: Date): (c': Calendar)
    requires NumEventsOnDay(c, d) > 0
    ensures NumEventsOnDay(c', d) == NumEventsOnDay(c, d) - 1
    ensures forall e :: e != d ==> NumEventsOnDay(c', e) == NumEventsOnDay(c, e)
    ensures CountsInRange(c) ==> CountsInRange(c')
  {
    c[d := NumEventsOnDay(c, d) - 1]
  }

  /** Decrementing a day right after incrementing it gives back every day's count
      (the map itself may differ: the day may now hold an explicit zero). */
  lemma DecrementUndoesIncrement(c: Calendar, d: Date)
    requires NumEventsOnDay(c, d) >= 0
    ensures NumEventsOnDay(IncrementEventCount(c, d), d) > 0
    ensures forall e :: NumEventsOnDay(DecrementEventCount(IncrementEventCount(c, d), d), e) == NumEventsOnDay(c, e)
  {
  }
}
