/** The month grid: events grouped by day, and the marker on each day that has some. */
module CalendarScreen {
  import opened Wrappers
  import opened Seqs
  import opened Types
  import opened CalendarContext
  import opened Days
  import opened AddEventScreen
  import opened EventListScreen

  /** The number of values held in all the groups together. */
  ghost function TotalSize(groups: map<string, seq<Event>>): nat
    decreases |groups|
  {
    if groups == map[] then 0
    else
      var k :| k in groups;
      |groups[k]| + TotalSize(groups - {k})
  }

  /** Any group can be taken out of the sum first. */
  lemma {:induction false} TotalSizeRemove(groups: map<string, seq<Event>>, k: string)
    requires k in groups
    ensures TotalSize(groups) == |groups[k]| + TotalSize(groups - {k})
    decreases |groups|
  {
    var k' :| k' in groups && TotalSize(groups) == |groups[k']| + TotalSize(groups - {k'});
    if k' != k {
      var rest := groups - {k'};
      TotalSizeRemove(rest, k);
      TotalSizeRemove(groups - {k}, k');
      assert rest - {k} == (groups - {k}) - {k'};
    }
  }

  /** Setting one group changes the sum by the difference in its size. */
  lemma TotalSizeUpdate(groups: map<string, seq<Event>>, k: string, v: seq<Event>)
    ensures TotalSize(groups[k := v]) == TotalSize(groups) - (if k in groups then |groups[k]| else 0) + |v|
  {
    TotalSizeRemove(groups[k := v], k);
    assert groups[k := v] - {k} == groups - {k};
    if k in groups {
      TotalSizeRemove(groups, k);
    } else {
      assert groups - {k} == groups;
    }
  }

  /** The keys of `groups` are exactly the days some event of `events` falls on. */
  ghost predicate KeysAreDays(events: seq<Event>, dateOf: Event -> Option<string>, dayKey: string -> string,
                              groups: map<string, seq<Event>>)
  {
    forall day :: day in groups <==> exists i :: 0 <= i < |events| && FallsOn(dateOf, dayKey, events[i], day)
  }

  /** Each group holds its day's events, in the order of `events`. */
  ghost predicate GroupsAreDays(events: seq<Event>, dateOf: Event -> Option<string>, dayKey: string -> string,
                                groups: map<string, seq<Event>>)
  {
    forall day :: day in groups ==> groups[day] == Filter(events, OnDay(dateOf, dayKey, day))
  }

  /**
   * `groups` is the grouping of `events` by the day of the field `dateOf`
   * reads: `None` when some event lacks the field (date-fns throws on the
   * resulting invalid date), otherwise one key per day that has events, each
   * holding that day's events in calendar order.
   */
  ghost predicate IsDayGrouping(events: seq<Event>, dateOf: Event -> Option<string>, dayKey: string -> string,
                                groups: Option<map<string, seq<Event>>>)
  {
    (groups.None? <==> exists i :: 0 <= i < |events| && dateOf(events[i]).None?) &&
    (groups.Some? ==> KeysAreDays(events, dateOf, dayKey, groups.value) &&
                      GroupsAreDays(events, dateOf, dayKey, groups.value))
  }

  /** One iteration of the loop: `groups[day]` is created if missing, then `e` is pushed onto it. */
  function Push(groups: map<string, seq<Event>>, day: string, e: Event): (r: map<string, seq<Event>>)
    ensures r.Keys == groups.Keys + {day}
    ensures r[day] == (if day in groups then groups[day] else []) + [e]
    ensures forall d :: d in groups && d != day ==> r[d] == groups[d]
  {
    var created := if day !in groups then groups[day := []] else groups;
    created[day := created[day] + [e]]
  }

  lemma PushKeys(events: seq<Event>, e: Event, dateOf: Event -> Option<string>, dayKey: string -> string,
                 groups: map<string, seq<Event>>)
    requires dateOf(e).Some? && KeysAreDays(events, dateOf, dayKey, groups)
    ensures KeysAreDays(events + [e], dateOf, dayKey, Push(groups, dayKey(dateOf(e).value), e))
  {
    var day := dayKey(dateOf(e).value);
    var es := events + [e];
    forall d ensures d in Push(groups, day, e) <==> exists i :: 0 <= i < |es| && FallsOn(dateOf, dayKey, es[i], d) {
      if d == day {
        assert FallsOn(dateOf, dayKey, es[|events|], d);
      } else if exists i :: 0 <= i < |es| && FallsOn(dateOf, dayKey, es[i], d) {
        var i :| 0 <= i < |es| && FallsOn(dateOf, dayKey, es[i], d);
        assert i < |events| && es[i] == events[i];
      } else {
        forall i | 0 <= i < |events| ensures !FallsOn(dateOf, dayKey, events[i], d) {
          assert es[i] == events[i];
        }
      }
    }
  }

  lemma PushGroups(events: seq<Event>, e: Event, dateOf: Event -> Option<string>, dayKey: string -> string,
                   groups: map<string, seq<Event>>)
    requires dateOf(e).Some? && KeysAreDays(events, dateOf, dayKey, groups) &&
             GroupsAreDays(events, dateOf, dayKey, groups)
    ensures GroupsAreDays(events + [e], dateOf, dayKey, Push(groups, dayKey(dateOf(e).value), e))
  {
    var day := dayKey(dateOf(e).value);
    var r := Push(groups, day, e);
    forall d | d in r ensures r[d] == Filter(events + [e], OnDay(dateOf, dayKey, d)) {
      var p := OnDay(dateOf, dayKey, d);
      FilterAppend(events, e, p);
      if d == day && day !in groups {
        forall i | 0 <= i < |events| ensures !p(events[i]) {
          assert !FallsOn(dateOf, dayKey, events[i], d);
        }
        FilterNone(events, p);
      }
    }
  }

  lemma PushSize(groups: map<string, seq<Event>>, day: string, e: Event)
    ensures TotalSize(Push(groups, day, e)) == TotalSize(groups) + 1
  {
    var created := if day !in groups then groups[day := []] else groups;
    TotalSizeUpdate(groups, day, []);
    TotalSizeUpdate(created, day, created[day] + [e]);
  }

  /** The grouping of the events seen so far, extended by the next one. */
  lemma PushNext(events: seq<Event>, i: nat, dateOf: Event -> Option<string>, dayKey: string -> string,
                 groups: map<string, seq<Event>>)
    requires i < |events| && dateOf(events[i]).Some?
    requires KeysAreDays(events[..i], dateOf, dayKey, groups) && GroupsAreDays(events[..i], dateOf, dayKey, groups)
    ensures var next := Push(groups, dayKey(dateOf(events[i]).value), events[i]);
            KeysAreDays(events[..i + 1], dateOf, dayKey, next) && GroupsAreDays(events[..i + 1], dateOf, dayKey, next) &&
            TotalSize(next) == TotalSize(groups) + 1
  {
    assert events[..i + 1] == events[..i] + [events[i]];
    PushKeys(events[..i], events[i], dateOf, dayKey, groups);
    PushGroups(events[..i], events[i], dateOf, dayKey, groups);
    PushSize(groups, dayKey(dateOf(events[i]).value), events[i]);
  }

  /** The dictionary the loop has built after pushing every event of `events`, all of which carry the field. */
  ghost function Grouped(events: seq<Event>, dateOf: Event -> Option<string>, dayKey: string -> string): map<string, seq<Event>>
    requires forall j :: 0 <= j < |events| ==> dateOf(events[j]).Some?
  {
    if events == [] then map[]
    else
      var last := events[|events| - 1];
      Push(Grouped(events[..|events| - 1], dateOf, dayKey), dayKey(dateOf(last).value), last)
  }

  /** The loop's dictionary is the day grouping, and its groups hold every event once. */
  lemma {:induction false} GroupedSpec(events: seq<Event>, dateOf: Event -> Option<string>, dayKey: string -> string)
    requires forall j :: 0 <= j < |events| ==> dateOf(events[j]).Some?
    ensures KeysAreDays(events, dateOf, dayKey, Grouped(events, dateOf, dayKey))
    ensures GroupsAreDays(events, dateOf, dayKey, Grouped(events, dateOf, dayKey))
    ensures TotalSize(Grouped(events, dateOf, dayKey)) == |events|
  {
    if events != [] {
      var n := |events| - 1;
      GroupedSpec(events[..n], dateOf, dayKey);
      assert events[..n + 1] == events;
      PushNext(events, n, dateOf, dayKey, Grouped(events[..n], dateOf, dayKey));
    }
  }

  /** The `eventsByDate` loop: each event is pushed onto its day's array, which is created on first use. */
  method GroupByDay(events: seq<Event>, dateOf: Event -> Option<string>, dayKey: string -> string)
    returns (groups: Option<map<string, seq<Event>>>)
    ensures IsDayGrouping(events, dateOf, dayKey, groups)
    ensures groups.Some? ==> TotalSize(groups.value) == |events|
  {
    var grouped: map<string, seq<Event>> := map[];
    var i := 0;
    while i < |events|
      invariant 0 <= i <= |events|
      invariant forall j :: 0 <= j < i ==> dateOf(events[j]).Some?
      invariant grouped == Grouped(events[..i], dateOf, dayKey)
    {
      var event := events[i];
      if dateOf(event).None? {
        return None;
      }
      var day := dayKey(dateOf(event).value);
      ghost var before := grouped;
      if day !in grouped {
        grouped := grouped[day := []];
      }
      grouped := grouped[day := grouped[day] + [event]];
      assert grouped == Push(before, day, event);
      assert events[..i + 1][..i] == events[..i];
      i := i + 1;
    }
    assert events[..i] == events;
    GroupedSpec(events, dateOf, dayKey);
    return Some(grouped);
  }

  /** `!!eventsByDate[dateString]`: the day is marked when it has a group. */
  predicate HasEvent(groups: map<string, seq<Event>>, day: string)
  {
    day in groups
  }

  /** A day is marked exactly when some event falls on it, and then its group is not empty. */
  lemma HasEventIff(events: seq<Event>, dateOf: Event -> Option<string>, dayKey: string -> string,
                    groups: map<string, seq<Event>>, day: string)
    requires IsDayGrouping(events, dateOf, dayKey, Some(groups))
    ensures HasEvent(groups, day) <==> exists i :: 0 <= i < |events| && FallsOn(dateOf, dayKey, events[i], day)
    ensures HasEvent(groups, day) ==> groups[day] != []
  {
    if HasEvent(groups, day) {
      var i :| 0 <= i < |events| && FallsOn(dateOf, dayKey, events[i], day);
      assert OnDay(dateOf, dayKey, day)(events[i]);
    }
  }

  /** Each event is in the group of its own day and in no other; each group keeps calendar order. */
  lemma EachEventInItsGroup(events: seq<Event>, dateOf: Event -> Option<string>, dayKey: string -> string,
                            groups: map<string, seq<Event>>)
    requires IsDayGrouping(events, dateOf, dayKey, Some(groups))
    ensures forall i :: 0 <= i < |events| ==>
              dateOf(events[i]).Some? && dayKey(dateOf(events[i]).value) in groups &&
              events[i] in groups[dayKey(dateOf(events[i]).value)]
    ensures forall i, day :: 0 <= i < |events| && day in groups && events[i] in groups[day] ==>
              dayKey(dateOf(events[i]).value) == day
    ensures forall day :: day in groups ==> IsSubsequence(groups[day], events)
  {
    forall i | 0 <= i < |events|
      ensures dateOf(events[i]).Some? && dayKey(dateOf(events[i]).value) in groups &&
              events[i] in groups[dayKey(dateOf(events[i]).value)]
    {
      var day := dayKey(dateOf(events[i]).value);
      assert FallsOn(dateOf, dayKey, events[i], day);
      assert OnDay(dateOf, dayKey, day)(events[i]);
    }
    forall i, day | 0 <= i < |events| && day in groups && events[i] in groups[day]
      ensures dayKey(dateOf(events[i]).value) == day
    {
      var k :| 0 <= k < |groups[day]| && groups[day][k] == events[i];
      assert OnDay(dateOf, dayKey, day)(groups[day][k]);
    }
    forall day | day in groups ensures IsSubsequence(groups[day], events) {
      FilterIsSubsequence(events, OnDay(dateOf, dayKey, day));
    }
  }

  /** The grouping of a list is unique: any two results meeting the description are equal. */
  lemma GroupingUnique(events: seq<Event>, dateOf: Event -> Option<string>, dayKey: string -> string,
                       g1: Option<map<string, seq<Event>>>, g2: Option<map<string, seq<Event>>>)
    requires IsDayGrouping(events, dateOf, dayKey, g1) && IsDayGrouping(events, dateOf, dayKey, g2)
    ensures g1 == g2
  {
    if g1.Some? {
      forall day ensures day in g1.value <==> day in g2.value {
      }
      assert g1.value == g2.value;
    }
  }

  /** `eventsByDate` for the calendar on screen, keyed as written by `event.date`. */
  method EventsByDate(cals: seq<Calendar>, calendarId: string, dayKey: string -> string)
    returns (groups: Option<map<string, seq<Event>>>)
    ensures IsDayGrouping(CalendarEvents(cals, calendarId), DateField, dayKey, groups)
    ensures !HasCalendar(cals, calendarId) ==> groups == Some(map[])
  {
    groups := GroupByDay(CalendarEvents(cals, calendarId), DateField, dayKey);
    if !HasCalendar(cals, calendarId) {
      GroupingUnique([], DateField, dayKey, groups, Some(map[]));
    }
  }

  /** `eventsByDate` keyed by `event.endDate`, the day the event list filters on. */
  method EventsByEndDate(cals: seq<Calendar>, calendarId: string, dayKey: string -> string)
    returns (groups: Option<map<string, seq<Event>>>)
    ensures groups.Some?
    ensures IsDayGrouping(CalendarEvents(cals, calendarId), EndDateField, dayKey, groups)
    ensures !HasCalendar(cals, calendarId) ==> groups == Some(map[])
    ensures TotalSize(groups.value) == |CalendarEvents(cals, calendarId)|
  {
    groups := GroupByDay(CalendarEvents(cals, calendarId), EndDateField, dayKey);
    if !HasCalendar(cals, calendarId) {
      GroupingUnique([], EndDateField, dayKey, groups, Some(map[]));
    }
  }

  /** As written: once the calendar holds an event made by the add-event form, the grid cannot be built. */
  lemma FormEventBreaksGrid(cals: seq<Calendar>, calendarId: string, formEvent: EventData, freshId: string,
                            dayKey: string -> string, groups: Option<map<string, seq<Event>>>)
    requires HasCalendar(cals, calendarId)
    requires formEvent.date.None?
    requires IsDayGrouping(CalendarEvents(AddEventTo(cals, calendarId, WithId(formEvent, freshId)), calendarId),
                           DateField, dayKey, groups)
    ensures groups.None?
  {
    var e := WithId(formEvent, freshId);
    AddEventThenFind(cals, calendarId, e);
    var evs := CalendarEvents(AddEventTo(cals, calendarId, e), calendarId);
    assert DateField(evs[|evs| - 1]).None?;
  }

  /** Every payload the form builds lacks `date`. */
  lemma FormEventsHaveNoDate(title: string, description: string, selectedDate: string, links: seq<string>,
                             eventType: string, location: string, isEmergency: bool, freshId: string)
    ensures DateField(WithId(BuildEventData(title, description, selectedDate, links, eventType, location,
                                            isEmergency), freshId)).None?
  {
  }

  /** Corrected grid: a day is marked exactly when its event list is not empty, and the group is that list. */
  lemma GridAgreesWithEventList(cals: seq<Calendar>, calendarId: string, selectedDate: string,
                                dayKey: string -> string, groups: map<string, seq<Event>>)
    requires IsDayGrouping(CalendarEvents(cals, calendarId), EndDateField, dayKey, Some(groups))
    ensures HasEvent(groups, dayKey(selectedDate)) <==> EventsForDate(cals, calendarId, selectedDate, dayKey) != []
    ensures HasEvent(groups, dayKey(selectedDate)) ==>
              groups[dayKey(selectedDate)] == EventsForDate(cals, calendarId, selectedDate, dayKey)
  {
    var evs := CalendarEvents(cals, calendarId);
    var day := dayKey(selectedDate);
    HasEventIff(evs, EndDateField, dayKey, groups, day);
    var r := EventsForDate(cals, calendarId, selectedDate, dayKey);
    if r != [] {
      var i :| 0 <= i < |evs| && evs[i] == r[0];
      assert FallsOn(EndDateField, dayKey, evs[i], day);
    }
  }
}
