/**
 * Days as the screens compute them. `format(new Date(x), 'yyyy-MM-dd')` is a
 * parameter `dayKey`; a date field is read through `dateOf`, which gives
 * `None` where the event has no such field.
 */
module Days {
  import opened Wrappers
  import opened Types

  /** Whether `e` has the date field `dateOf` reads, and it falls on `day`. */
  predicate FallsOn(dateOf: Event -> Option<string>, dayKey: string -> string, e: Event, day: string)
  {
    dateOf(e).Some? && dayKey(dateOf(e).value) == day
  }

  function OnDay(dateOf: Event -> Option<string>, dayKey: string -> string, day: string): Event -> bool
  {
    (e: Event) => FallsOn(dateOf, dayKey, e, day)
  }

  /** `event.date`: a field the events this app creates never carry. */
  function DateField(e: Event): Option<string>
  {
    e.date
  }

  /** `event.endDate`, which every event has. */
  function EndDateField(e: Event): Option<string>
  {
    Some(e.endDate)
  }
}
