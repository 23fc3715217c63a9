/** The list of a calendar's events that end on the chosen day. */
module EventListScreen {
  import opened Seqs
  import opened Types
  import opened CalendarContext
  import opened Days

  /**
   * `eventsForDate`: the events of the first calendar with the id whose end
   * date falls on the same day as `selectedDate`.
   */
  function EventsForDate(cals: seq<Calendar>, calendarId: string, selectedDate: string,
                         dayKey: string -> string): (r: seq<Event>)
    ensures !HasCalendar(cals, calendarId) ==> r == []
    ensures forall i :: 0 <= i < |r| ==>
              r[i] in CalendarEvents(cals, calendarId) && dayKey(r[i].endDate) == dayKey(selectedDate)
    ensures forall i :: 0 <= i < |CalendarEvents(cals, calendarId)| &&
                        dayKey(CalendarEvents(cals, calendarId)[i].endDate) == dayKey(selectedDate) ==>
              CalendarEvents(cals, calendarId)[i] in r
  {
    Filter(CalendarEvents(cals, calendarId), OnDay(EndDateField, dayKey, dayKey(selectedDate)))
  }

  /** The list keeps the calendar's order, and each matching event appears as often as in the calendar. */
  lemma EventsForDateInOrder(cals: seq<Calendar>, calendarId: string, selectedDate: string, dayKey: string -> string)
    ensures IsSubsequence(EventsForDate(cals, calendarId, selectedDate, dayKey), CalendarEvents(cals, calendarId))
    ensures forall e :: multiset(EventsForDate(cals, calendarId, selectedDate, dayKey))[e] ==
                        if dayKey(e.endDate) == dayKey(selectedDate) then multiset(CalendarEvents(cals, calendarId))[e] else 0
  {
    var p := OnDay(EndDateField, dayKey, dayKey(selectedDate));
    FilterIsSubsequence(CalendarEvents(cals, calendarId), p);
    FilterMultiset(CalendarEvents(cals, calendarId), p);
  }

  /** An event added through the form appears in the list for the day it was added on. */
  lemma AddedEventIsListed(cals: seq<Calendar>, calendarId: string, d: EventData, freshId: string,
                           dayKey: string -> string)
    requires HasCalendar(cals, calendarId)
    ensures WithId(d, freshId) in
            EventsForDate(AddEventTo(cals, calendarId, WithId(d, freshId)), calendarId, d.endDate, dayKey)
  {
    var e := WithId(d, freshId);
    AddEventThenFind(cals, calendarId, e);
    var evs := CalendarEvents(AddEventTo(cals, calendarId, e), calendarId);
    assert evs[|evs| - 1] == e;
  }
}
