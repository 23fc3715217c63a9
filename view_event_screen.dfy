/** What the event details screen looks up, which links it lists, and how it opens one. */
module ViewEventScreen {
  import opened Wrappers
  import opened Seqs
  import opened Types
  import opened Text
  import opened CalendarContext

  const HttpScheme := "http://"
  const HttpsScheme := "https://"

  function HasId(eventId: string): Event -> bool
  {
    (e: Event) => e.id == eventId
  }

  /**
   * `calendar?.events.find(e => e.id === eventId)`: the first event with the
   * id in the first calendar with the id.
   */
  function LookupEvent(cals: seq<Calendar>, calendarId: string, eventId: string): (r: Option<Event>)
    ensures r.None? <==> forall i :: 0 <= i < |CalendarEvents(cals, calendarId)| ==>
                                      CalendarEvents(cals, calendarId)[i].id != eventId
    ensures r.Some? ==> HasCalendar(cals, calendarId) &&
                        exists i :: 0 <= i < |CalendarEvents(cals, calendarId)| &&
                                    CalendarEvents(cals, calendarId)[i] == r.value && r.value.id == eventId &&
                                    forall j :: 0 <= j < i ==> CalendarEvents(cals, calendarId)[j].id != eventId
  {
    FindFirst(CalendarEvents(cals, calendarId), HasId(eventId))
  }

  /** `event?.links.filter(link => link.trim() !== '') || []`. */
  function ValidLinks(event: Option<Event>): (r: seq<string>)
    ensures event.None? ==> r == []
    ensures forall i :: 0 <= i < |r| ==> IsNonBlank(r[i])
    ensures event.Some? ==> forall i :: 0 <= i < |event.value.links| && IsNonBlank(event.value.links[i]) ==>
                                          event.value.links[i] in r
  {
    match event
    case None => []
    case Some(e) => Filter(e.links, IsNonBlank)
  }

  /** The listed links keep the event's order and each repetition of a non-blank link. */
  lemma ValidLinksInOrder(e: Event)
    ensures IsSubsequence(ValidLinks(Some(e)), e.links)
    ensures forall l :: multiset(ValidLinks(Some(e)))[l] == if IsNonBlank(l) then multiset(e.links)[l] else 0
  {
    FilterIsSubsequence(e.links, IsNonBlank);
    FilterMultiset(e.links, IsNonBlank);
  }

  /** What the screen renders: the "not found" text, or the event with its links. */
  datatype Page = NotFound | Details(event: Event, links: seq<string>)

  function Render(cals: seq<Calendar>, calendarId: string, eventId: string): (p: Page)
    ensures p.NotFound? <==> LookupEvent(cals, calendarId, eventId).None?
    ensures p.Details? ==> p.event.id == eventId && forall i :: 0 <= i < |p.links| ==> p.links[i] in p.event.links
    ensures p.Details? ==> p.event == LookupEvent(cals, calendarId, eventId).value && p.links == ValidLinks(Some(p.event))
  {
    var event := LookupEvent(cals, calendarId, eventId);
    match event
    case None => NotFound
    case Some(e) => Details(e, ValidLinks(event))
  }

  predicate HasScheme(url: string)
  {
    HttpScheme <= url || HttpsScheme <= url
  }

  /** The URL `handleLinkPress` passes on: `https://` is put in front unless a scheme is already there. */
  function NormalizeUrl(url: string): (r: string)
    ensures HasScheme(r)
    ensures HasScheme(url) ==> r == url
    ensures !HasScheme(url) ==> r == HttpsScheme + url
  {
    if !(HttpScheme <= url) && !(HttpsScheme <= url) then HttpsScheme + url else url
  }

  /** Normalising a normalised URL changes nothing. */
  lemma NormalizeUrlIdempotent(url: string)
    ensures NormalizeUrl(NormalizeUrl(url)) == NormalizeUrl(url)
  {
  }

  /** The entered text is always the tail of the URL opened. */
  lemma NormalizeUrlKeepsText(url: string)
    ensures |url| <= |NormalizeUrl(url)| <= |url| + |HttpsScheme|
    ensures NormalizeUrl(url)[|NormalizeUrl(url)| - |url|..] == url
  {
  }

  /** An event added to a calendar whose events carry other ids is the one the screen then shows. */
  lemma AddedEventIsShown(cals: seq<Calendar>, calendarId: string, d: EventData, freshId: string)
    requires HasCalendar(cals, calendarId)
    requires forall i :: 0 <= i < |CalendarEvents(cals, calendarId)| ==> CalendarEvents(cals, calendarId)[i].id != freshId
    ensures LookupEvent(AddEventTo(cals, calendarId, WithId(d, freshId)), calendarId, freshId) == Some(WithId(d, freshId))
  {
    var e := WithId(d, freshId);
    var r := AddEventTo(cals, calendarId, e);
    AddEventThenFind(cals, calendarId, e);
    var evs := CalendarEvents(cals, calendarId);
    assert CalendarEvents(r, calendarId) == evs + [e];
    forall j | 0 <= j < |evs| ensures !HasId(freshId)((evs + [e])[j]) {
      assert (evs + [e])[j] == evs[j];
    }
    FindFirstAt(evs + [e], HasId(freshId), |evs|);
  }
}
