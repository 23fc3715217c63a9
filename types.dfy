/**
 * The records the app passes around: calendars, their events, the payload the
 * add-event form builds, and the signed-in user.
 */
module Types {
  import opened Wrappers

  /**
   * An event as the screens see it. The first six fields are the declared
   * ones; `eventType`, `location`, `isEmergency` and `date` are read by the
   * screens without being declared, so they are optional here.
   */
  datatype Event = Event(
    id: string,
    title: string,
    description: string,
    startDate: string,
    endDate: string,
    links: seq<string>,
    eventType: Option<string>,
    location: Option<string>,
    isEmergency: Option<bool>,
    date: Option<string>)

  /** An event without its id: what the add-event form hands to `addEvent`. */
  datatype EventData = EventData(
    title: string,
    description: string,
    startDate: string,
    endDate: string,
    links: seq<string>,
    eventType: Option<string>,
    location: Option<string>,
    isEmergency: Option<bool>,
    date: Option<string>)

  datatype Calendar = Calendar(id: string, name: string, color: string, events: seq<Event>)

  /** The user record kept by the session; `EmptyUser` is the object `{}`. */
  datatype User =
    | User(id: string, username: Option<string>, displayName: string, isGuest: bool)
    | EmptyUser

  /** `{ ...event, id }`: every field of the payload, plus the id. */
  function WithId(d: EventData, id: string): (e: Event)
  {
    Event(id, d.title, d.description, d.startDate, d.endDate, d.links,
          d.eventType, d.location, d.isEmergency, d.date)
  }

  /** The payload part of an event (the inverse of `WithId`). */
  function DataOf(e: Event): EventData
  {
    EventData(e.title, e.description, e.startDate, e.endDate, e.links,
              e.eventType, e.location, e.isEmergency, e.date)
  }

  /** Spreading a payload and adding an id loses nothing and adds only the id. */
  lemma WithIdRoundTrip(d: EventData, id: string)
    ensures DataOf(WithId(d, id)) == d && WithId(d, id).id == id
  {
  }

  lemma DataOfRoundTrip(e: Event)
    ensures WithId(DataOf(e), e.id) == e
  {
  }
}
