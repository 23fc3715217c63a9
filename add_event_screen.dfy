/** The add-event form: its fields, the link-list editing, and the payload it submits. */
module AddEventScreen {
  import opened Wrappers
  import opened Seqs
  import opened Types
  import opened Text
  import opened CalendarContext
  import opened EventUtils
  import opened ViewEventScreen

  const InitialEventType := "laboratory"

  /** The values the type picker offers, in its order. */
  const PickerValues: seq<string> :=
    ["laboratory", "checkpoint", "final", "meeting", "conference", "event", "commission", "Other"]

  /** The `eventData` object `handleAddEvent` passes to `addEvent`. */
  function BuildEventData(title: string, description: string, selectedDate: string, links: seq<string>,
                          eventType: string, location: string, isEmergency: bool): (d: EventData)
    ensures d.startDate == selectedDate && d.endDate == selectedDate
    ensures d.title == title && d.description == description
    ensures forall i :: 0 <= i < |d.links| ==> IsNonBlank(d.links[i]) && d.links[i] in links
    ensures forall i :: 0 <= i < |links| && IsNonBlank(links[i]) ==> links[i] in d.links
    ensures d.eventType == Some(eventType) && d.isEmergency == Some(isEmergency)
    ensures d.location.None? <==> location == ""
    ensures d.location.Some? ==> d.location.value == location
    ensures d.date.None?
  {
    EventData(title, description, selectedDate, selectedDate, Filter(links, IsNonBlank),
              Some(eventType), if location == "" then None else Some(location), Some(isEmergency), None)
  }

  /** The payload's links are the non-blank entries, in the order typed, repetitions included. */
  lemma PayloadLinksInOrder(title: string, description: string, selectedDate: string, links: seq<string>,
                            eventType: string, location: string, isEmergency: bool)
    ensures var d := BuildEventData(title, description, selectedDate, links, eventType, location, isEmergency);
            IsSubsequence(d.links, links) &&
            forall l :: multiset(d.links)[l] == if IsNonBlank(l) then multiset(links)[l] else 0
  {
    FilterIsSubsequence(links, IsNonBlank);
    FilterMultiset(links, IsNonBlank);
  }

  /** Once submitted, the event's page lists every link of the payload: the form already dropped the blank ones. */
  lemma SubmittedLinksAllShown(d: EventData, freshId: string)
    requires forall i :: 0 <= i < |d.links| ==> IsNonBlank(d.links[i])
    ensures ValidLinks(Some(WithId(d, freshId))) == d.links
  {
    FilterKeepsAll(d.links, IsNonBlank);
  }

  /** Three picker values are not keys of the type table, among them the form's initial type. */
  lemma PickerValuesWithoutLabel()
    ensures forall i :: 0 <= i < |PickerValues| ==>
              (TranslateEventType(PickerValues[i]) == Unknown <==>
               PickerValues[i] == "laboratory" || PickerValues[i] == "event" || PickerValues[i] == "Other")
    ensures TranslateEventType(InitialEventType) == Unknown && EventIcon(InitialEventType) == DefaultIcon
  {
  }

  /** The state of one open form, for the calendar and day it was opened on. */
  class AddEventForm {
    const calendarId: string
    const selectedDate: string
    var title: string
    var description: string
    var eventType: string
    var location: string
    var isEmergency: bool
    var links: seq<string>

    constructor(calendarId: string, selectedDate: string)
      ensures this.calendarId == calendarId && this.selectedDate == selectedDate
      ensures title == "" && description == "" && location == "" && !isEmergency
      ensures eventType == InitialEventType && links == [""]
    {
      this.calendarId := calendarId;
      this.selectedDate := selectedDate;
      title := "";
      description := "";
      eventType := InitialEventType;
      location := "";
      isEmergency := false;
      links := [""];
    }

    /** What `handleAddEvent` would submit now. */
    function Payload(): EventData
      reads this
    {
      BuildEventData(title, description, selectedDate, links, eventType, location, isEmergency)
    }

    method SetTitle(text: string)
      modifies this
      ensures title == text
      ensures description == old(description) && eventType == old(eventType) && location == old(location)
      ensures isEmergency == old(isEmergency) && links == old(links)
    {
      title := text;
    }

    method SetDescription(text: string)
      modifies this
      ensures description == text
      ensures title == old(title) && eventType == old(eventType) && location == old(location)
      ensures isEmergency == old(isEmergency) && links == old(links)
    {
      description := text;
    }

    method SetEventType(value: string)
      modifies this
      ensures eventType == value
      ensures title == old(title) && description == old(description) && location == old(location)
      ensures isEmergency == old(isEmergency) && links == old(links)
    {
      eventType := value;
    }

    method SetLocation(text: string)
      modifies this
      ensures location == text
      ensures title == old(title) && description == old(description) && eventType == old(eventType)
      ensures isEmergency == old(isEmergency) && links == old(links)
    {
      location := text;
    }

    method SetIsEmergency(value: bool)
      modifies this
      ensures isEmergency == value
      ensures title == old(title) && description == old(description) && eventType == old(eventType)
      ensures location == old(location) && links == old(links)
    {
      isEmergency := value;
    }

    /** `handleAddLink`: one more, empty, link field at the end. */
    method AddLink()
      modifies this
      ensures |links| == |old(links)| + 1 && links[..|old(links)|] == old(links) && links[|old(links)|] == ""
      ensures title == old(title) && description == old(description) && eventType == old(eventType)
      ensures location == old(location) && isEmergency == old(isEmergency)
      ensures Payload().links == old(Payload().links)
    {
      links := links + [""];
      FilterAppend(old(links), "", IsNonBlank);
      assert !IsNonBlank("");
    }

    /** `handleLinkChange(text, index)`: the field at `index` now holds `text`. */
    method ChangeLink(text: string, index: nat)
      requires index < |links|
      modifies this
      ensures |links| == |old(links)| && links[index] == text
      ensures forall j :: 0 <= j < |links| && j != index ==> links[j] == old(links)[j]
      ensures title == old(title) && description == old(description) && eventType == old(eventType)
      ensures location == old(location) && isEmergency == old(isEmergency)
    {
      var newLinks := links;
      newLinks := newLinks[index := text];
      links := newLinks;
    }

    /** `handleAddEvent`: the payload goes to `addEvent` for this form's calendar. */
    method Submit(store: CalendarStore, freshId: string)
      modifies store, store.storage
      ensures store.calendars == AddEventTo(old(store.calendars), calendarId, WithId(Payload(), freshId))
      ensures store.storage.entries == old(store.storage.entries)[KeyValue.CalendarsKey := KeyValue.CalendarsJson(store.calendars)]
      ensures store.Stored() == store.calendars
    {
      store.AddEvent(calendarId, Payload(), freshId);
    }
  }
}
