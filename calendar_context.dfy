/**
 * The calendar list provider: an in-memory list of calendars and its copy in
 * persistent storage under "@calendars". Every change builds a new list, makes
 * it the current state and saves it.
 */
module CalendarContext {
  import opened Wrappers
  import opened Seqs
  import opened Types
  import opened KeyValue

  /** The colour every new calendar gets. */
  const DefaultColor := "#007AFF"

  /** The calendar `addCalendar` builds; `id` stands for `Date.now().toString()`. */
  function NewCalendar(id: string, name: string): Calendar
  {
    Calendar(id, name, DefaultColor, [])
  }

  /** `[...calendars, newCalendar]`. */
  function AppendCalendar(cals: seq<Calendar>, id: string, name: string): (r: seq<Calendar>)
    ensures |r| == |cals| + 1 && r[..|cals|] == cals
    ensures r[|cals|].id == id && r[|cals|].name == name
    ensures r[|cals|].color == DefaultColor && r[|cals|].events == []
  {
    cals + [NewCalendar(id, name)]
  }

  /** `{ ...cal, events: [...cal.events, newEvent] }`. */
  function AppendEvent(c: Calendar, e: Event): Calendar
  {
    c.(events := c.events + [e])
  }

  /**
   * `calendars.map(cal => cal.id === calendarId ? {...} : cal)`: the event is
   * appended to every calendar with that id; every other calendar is kept.
   */
  function AddEventTo(cals: seq<Calendar>, calendarId: string, e: Event): (r: seq<Calendar>)
    ensures |r| == |cals|
    ensures forall i :: 0 <= i < |cals| ==>
              r[i] == if cals[i].id == calendarId then AppendEvent(cals[i], e) else cals[i]
  {
    if cals == [] then []
    else [if cals[0].id == calendarId then AppendEvent(cals[0], e) else cals[0]]
         + AddEventTo(cals[1..], calendarId, e)
  }

  /** The test `deleteCalendar` keeps a calendar by. */
  function IdIsNot(calendarId: string): Calendar -> bool
  {
    (c: Calendar) => c.id != calendarId
  }

  /** `calendars.filter(cal => cal.id !== calendarId)`. */
  function RemoveCalendar(cals: seq<Calendar>, calendarId: string): seq<Calendar>
  {
    Filter(cals, IdIsNot(calendarId))
  }

  /** Whether some calendar in the list has this id. */
  predicate HasCalendar(cals: seq<Calendar>, calendarId: string)
  {
    exists i :: 0 <= i < |cals| && cals[i].id == calendarId
  }

  /** `calendars.find(c => c.id === calendarId)`, the lookup every screen starts with. */
  function FindCalendar(cals: seq<Calendar>, calendarId: string): (r: Option<Calendar>)
    ensures r.None? <==> !HasCalendar(cals, calendarId)
    ensures r.Some? ==> r.value.id == calendarId && r.value in cals
    ensures r.Some? ==> exists i :: 0 <= i < |cals| && cals[i] == r.value &&
                                    forall j :: 0 <= j < i ==> cals[j].id != calendarId
  {
    FindFirst(cals, (c: Calendar) => c.id == calendarId)
  }

  /** `calendar?.events || []`: the events of the first calendar with the id, none if there is no such calendar. */
  function CalendarEvents(cals: seq<Calendar>, calendarId: string): (r: seq<Event>)
    ensures !HasCalendar(cals, calendarId) ==> r == []
    ensures HasCalendar(cals, calendarId) ==> r == FindCalendar(cals, calendarId).value.events
  {
    match FindCalendar(cals, calendarId)
    case None => []
    case Some(c) => c.events
  }

  /**
   * `loadCalendars`: the saved list, or `[]` when nothing is saved. Text that
   * is not a saved list (not written by this app) parses to `[]` here as well.
   */
  function LoadCalendars(entries: map<string, Value>): seq<Calendar>
  {
    match Lookup(entries, CalendarsKey)
    case Some(CalendarsJson(cs)) => cs
    case _ => []
  }

  /** `saveCalendars(cs)` followed by `loadCalendars()` gives `cs` back. */
  lemma SaveLoadRoundTrip(entries: map<string, Value>, cs: seq<Calendar>)
    ensures LoadCalendars(entries[CalendarsKey := CalendarsJson(cs)]) == cs
  {
  }

  /** A fresh id finds the calendar just added, with its name, colour and no events. */
  lemma AddCalendarThenFind(cals: seq<Calendar>, id: string, name: string)
    requires !HasCalendar(cals, id)
    ensures FindCalendar(AppendCalendar(cals, id, name), id) == Some(NewCalendar(id, name))
  {
    var r := AppendCalendar(cals, id, name);
    assert forall j :: 0 <= j < |cals| ==> r[j] == cals[j];
    FindFirstAt(r, (c: Calendar) => c.id == id, |cals|);
  }

  /** Deleting a calendar just added under a fresh id gives back the old list. */
  lemma AddCalendarThenDelete(cals: seq<Calendar>, id: string, name: string)
    requires !HasCalendar(cals, id)
    ensures RemoveCalendar(AppendCalendar(cals, id, name), id) == cals
  {
    FilterAppend(cals, NewCalendar(id, name), IdIsNot(id));
    FilterKeepsAll(cals, IdIsNot(id));
  }

  /** `addEvent` with an id that names no calendar changes nothing. */
  lemma AddEventUnknownCalendar(cals: seq<Calendar>, calendarId: string, e: Event)
    requires !HasCalendar(cals, calendarId)
    ensures AddEventTo(cals, calendarId, e) == cals
  {
  }

  /** After `addEvent`, the calendar a screen finds under that id is the old one with the event appended. */
  lemma AddEventThenFind(cals: seq<Calendar>, calendarId: string, e: Event)
    requires HasCalendar(cals, calendarId)
    ensures FindCalendar(AddEventTo(cals, calendarId, e), calendarId) ==
            Some(AppendEvent(FindCalendar(cals, calendarId).value, e))
  {
    var c := FindCalendar(cals, calendarId).value;
    var i :| 0 <= i < |cals| && cals[i] == c && forall j :: 0 <= j < i ==> cals[j].id != calendarId;
    var r := AddEventTo(cals, calendarId, e);
    FindFirstAt(r, (c: Calendar) => c.id == calendarId, i);
  }

  /** `addEvent` keeps every calendar's id, name and colour; its events stay as they were or gain just `e`. */
  lemma AddEventKeepsCalendars(cals: seq<Calendar>, calendarId: string, e: Event)
    ensures forall i :: 0 <= i < |cals| ==>
              var r := AddEventTo(cals, calendarId, e)[i];
              r.id == cals[i].id && r.name == cals[i].name && r.color == cals[i].color &&
              r.events in {cals[i].events, cals[i].events + [e]}
  {
  }

  /**
   * After `deleteCalendar`, no calendar has the id; the others are all kept,
   * each as often as before and in their original order.
   */
  lemma DeleteCalendarSpec(cals: seq<Calendar>, calendarId: string)
    ensures !HasCalendar(RemoveCalendar(cals, calendarId), calendarId)
    ensures IsSubsequence(RemoveCalendar(cals, calendarId), cals)
    ensures forall c :: multiset(RemoveCalendar(cals, calendarId))[c] ==
                        if c.id != calendarId then multiset(cals)[c] else 0
    ensures |RemoveCalendar(cals, calendarId)| == |cals| - CountIf(cals, (c: Calendar) => c.id == calendarId)
  {
    var r := RemoveCalendar(cals, calendarId);
    assert forall i :: 0 <= i < |r| ==> IdIsNot(calendarId)(r[i]);
    FilterIsSubsequence(cals, IdIsNot(calendarId));
    FilterMultiset(cals, IdIsNot(calendarId));
    FilterLength(cals, IdIsNot(calendarId));
    CountComplement(cals, calendarId);
  }

  lemma {:induction false} CountComplement(cals: seq<Calendar>, calendarId: string)
    ensures CountIf(cals, IdIsNot(calendarId)) ==
            |cals| - CountIf(cals, (c: Calendar) => c.id == calendarId)
  {
    if cals != [] {
      CountComplement(cals[1..], calendarId);
    }
  }

  /** Deleting the same calendar twice is the same as deleting it once. */
  lemma DeleteCalendarIdempotent(cals: seq<Calendar>, calendarId: string)
    ensures RemoveCalendar(RemoveCalendar(cals, calendarId), calendarId) == RemoveCalendar(cals, calendarId)
  {
    FilterIdempotent(cals, IdIsNot(calendarId));
  }

  /**
   * The provider: the current list and the storage it is saved in. `stored`,
   * the saved copy, is what `loadCalendars` would read back.
   */
  class CalendarStore {
    const storage: Storage
    var calendars: seq<Calendar>

    /** The saved copy of the list. */
    function Stored(): seq<Calendar>
      reads storage
    {
      LoadCalendars(storage.entries)
    }

    /** `useState<Calendar[]>([])`. */
    constructor (storage: Storage)
      ensures this.storage == storage && calendars == []
    {
      this.storage := storage;
      calendars := [];
    }

    /** `initializeCalendars`: the state becomes whatever was loaded. */
    method Initialize()
      modifies this
      ensures calendars == old(Stored()) && Stored() == calendars
    {
      var v := storage.GetItem(CalendarsKey);
      calendars := match v
        case Some(CalendarsJson(cs)) => cs
        case _ => [];
    }

    method Save(cs: seq<Calendar>)
      modifies storage
      ensures storage.entries == old(storage.entries)[CalendarsKey := CalendarsJson(cs)]
    {
      storage.SetItem(CalendarsKey, CalendarsJson(cs));
    }

    /** `addCalendar(name)`; `freshId` is the `Date.now()` id. */
    method AddCalendar(name: string, freshId: string)
      modifies this, storage
      ensures calendars == AppendCalendar(old(calendars), freshId, name)
      ensures storage.entries == old(storage.entries)[CalendarsKey := CalendarsJson(calendars)]
      ensures Stored() == calendars
    {
      var newCalendar := NewCalendar(freshId, name);
      var previous := calendars;
      calendars := previous + [newCalendar];
      Save(previous + [newCalendar]);
    }

    /** `addEvent(calendarId, event)`; `freshId` is the `Date.now()` id. */
    method AddEvent(calendarId: string, event: EventData, freshId: string)
      modifies this, storage
      ensures calendars == AddEventTo(old(calendars), calendarId, WithId(event, freshId))
      ensures storage.entries == old(storage.entries)[CalendarsKey := CalendarsJson(calendars)]
      ensures Stored() == calendars
    {
      var newEvent := WithId(event, freshId);
      var updated := AddEventTo(calendars, calendarId, newEvent);
      calendars := updated;
      Save(updated);
    }

    /** `deleteCalendar(calendarId)`. */
    method DeleteCalendar(calendarId: string)
      modifies this, storage
      ensures calendars == RemoveCalendar(old(calendars), calendarId)
      ensures storage.entries == old(storage.entries)[CalendarsKey := CalendarsJson(calendars)]
      ensures Stored() == calendars
    {
      var filtered := RemoveCalendar(calendars, calendarId);
      calendars := filtered;
      Save(filtered);
    }
  }
}
