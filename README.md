# StudentCalendarApp client core, modelled in Dafny

StudentCalendarApp is a React Native client for student calendars. This
project models its logic and proves properties about that model:

- **Calendar store** (`CalendarContext`): the in-memory calendar list and its
  persisted copy. `addCalendar`, `addEvent` and `deleteCalendar` each rebuild
  the list and then overwrite both copies.
- **HTTP client** (`ApiClient`): the axios request interceptor adds the
  bearer token. The response interceptor handles a 401 by refreshing the
  tokens and replaying the request once.
- **Session provider** (`AuthContext`): start-up, guest sessions, login,
  register, logout, session refresh, and the `isLoading` gate.
- **Pure helpers**:
  - the login and register form schemas;
  - the role, event-type and icon tables;
  - JavaScript `trim`.
- **Screens**: the event lookup and link list, the add-event form, the month
  grid's grouping by day, and the event list for one day.

Storage is one abstract key-value store, the class `KeyValue.Storage`. The
calendar store and the session share it. Keys are `@access_token`,
`@refresh_token`, `@user` and `@calendars`. Stored values are abstract
(`Text`, `UserJson`, `CalendarsJson`), and the JSON round trip is taken as
given.

The network is an input. For one call, an `Exchange` gives the server's
answer to the request, to a refresh call, and to the single replay. Each
state-changing method is proved against a specification function. For
example, `ApiClient.Client.Send` ensures
`Step(State(), r) == Dispatch(old(State()), config, ex)`. The lemmas then
state what the source promises about `Dispatch`. A ghost `wire` records
every request the client sends, so replay bounds can be stated.

Other inputs become parameters:

- `Date.now()` becomes a fresh id.
- date-fns `format(new Date(x), 'yyyy-MM-dd')` becomes a function
  `dayKey: string -> string`.
- Reading an optional date field of an event becomes a function
  `dateOf: Event -> Option<string>`.

Behaviour kept as the code has it:

- A 401 from `/auth/login` or `/auth/register` goes through the response
  interceptor. The tokens were just cleared, so it rejects with "refresh
  token not found" (`AuthContext.SignInUnauthorized`).
- `logout` removes `@calendars` as well. Only the calendar store's own next
  save writes that key again.
- The type picker offers `'laboratory'`, `'event'` and `'Other'`. The
  label table of `translateEventType` has no entry for them
  (`AddEventScreen.PickerValuesWithoutLabel`); none of the modelled screens
  calls that function, and the event page shows the raw `eventType`.
- These files have no server sync, event merge, temp-id reconciliation or
  rollback, so the model has none either.

Specification functions. The functions below model source behaviour
directly and carry no contract of their own; the rows named after them state
what they do:

- `KeyValue.SetAll` (`multiSet`): `KeyValue.SetAllDistinct`, `KeyValue.Storage.MultiSet`.
- `CalendarContext.RemoveCalendar` (`deleteCalendar`'s filter): `CalendarContext.DeleteCalendarSpec`,
  `CalendarContext.DeleteCalendarIdempotent`, `CalendarContext.CountComplement`.
- `CalendarContext.LoadCalendars` (`loadCalendars`): `CalendarContext.SaveLoadRoundTrip`,
  `CalendarContext.CalendarStore.Initialize`.
- `ApiClient.WithDefaults` (axios merging the instance defaults, src/api/client.ts:69) and
  `ApiClient.Outgoing`: `ApiClient.OutgoingCarriesStoredToken`.
- `ApiClient.Dispatch` and `ApiClient.RefreshAndReplay` (the two interceptors around one call):
  `ApiClient.SuccessPassesThrough`, `ApiClient.OtherErrorsRejected`,
  `ApiClient.RefreshFailureClearsSession`, `ApiClient.RefreshSuccessReplaysOnce`,
  `ApiClient.AtMostOneReplay`, `ApiClient.DispatchKeepsOtherKeys`, `ApiClient.Client.Send`.
- `AuthContext.StoreAuthData`: `AuthContext.StoreAuthDataSpec`.
- `AuthContext.ParseUser` (`JSON.parse(storedUser || '{}')`): `AuthContext.InitRefreshSuccess`.
- `AuthContext.GuestSession`: `AuthContext.GuestSessionSpec`, `AuthContext.GuestFailureKeepsUser`.
- `AuthContext.SignIn`: `AuthContext.SignInSpec`, `AuthContext.SignInUnauthorized`.
- `AuthContext.LoggedOut`: `AuthContext.LogoutSpec`, `AuthContext.LogoutForgetsCalendars`.
- `AuthContext.SessionRefreshed`: `AuthContext.RefreshSessionSpec`.
- `AuthContext.Initialized`: `AuthContext.InitWithoutRefreshTokenIsGuest`, `AuthContext.InitRefreshSuccess`,
  `AuthContext.InitRefreshFailureIsGuest`, `AuthContext.InitAlwaysFinishes`.
- `AuthSchemas.LoginValid` and `AuthSchemas.RegisterValid` (the two schemas):
  `AuthSchemas.LoginValidIff`, `AuthSchemas.RegisterValidIff`, `AuthSchemas.RegisterImpliesLogin`.

## Model

| member | source | states |
|---|---|---|
| KeyValue.TruthyText | src/api/client.ts:17-19 | a stored value counts as a token only when it is a non-empty text |
| KeyValue.RemoveAll | src/api/client.ts:83 | `multiRemove` deletes exactly the listed keys and keeps every other entry's value |
| KeyValue.SetAllDistinct | src/contexts/AuthContext.tsx:144-148 | `multiSet` with distinct keys: those keys hold the given values, all other keys are unchanged, and no key appears from nowhere |
| KeyValue.Storage.GetItem | src/api/client.ts:17 | the lookup returns the stored value, or none, and changes nothing |
| KeyValue.Storage.SetItem | src/utils/storage.ts:31 | one key is set; every other key is unchanged |
| KeyValue.Storage.MultiSet | src/contexts/AuthContext.tsx:144-148 | the new entries are the old ones with the pairs written in order |
| KeyValue.Storage.MultiRemove | src/contexts/AuthContext.tsx:117-122 | the new entries are the old ones without the listed keys |
| Types.WithIdRoundTrip | src/contexts/CalendarContext.tsx:38 | `{ ...event, id }` keeps every payload field and adds the id |
| Types.DataOfRoundTrip | src/contexts/CalendarContext.tsx:38 | an event is its payload plus its id, with nothing lost |
| CalendarContext.AppendCalendar | src/contexts/CalendarContext.tsx:26-34 | exactly one calendar is added at the end, with the given id and name, colour `#007AFF` and no events; earlier calendars keep their places |
| CalendarContext.AddEventTo | src/contexts/CalendarContext.tsx:37-41 | the list keeps its length; each calendar with the id gets the event appended; every other calendar is unchanged |
| CalendarContext.FindCalendar | src/screens/ViewEventScreen.tsx:20 | `find` gives none exactly when no calendar has the id; otherwise it gives the first calendar with the id |
| CalendarContext.CalendarEvents | src/screens/CalendarScreen.tsx:45-47 | the events of that calendar, or none when the id is unknown |
| CalendarContext.SaveLoadRoundTrip | src/contexts/CalendarContext.tsx:18-24 | loading after a save gives back the saved list |
| CalendarContext.AddCalendarThenFind | src/contexts/CalendarContext.tsx:26-34 | a calendar added under a fresh id is the one found under that id |
| CalendarContext.AddCalendarThenDelete | src/contexts/CalendarContext.tsx:26-47 | deleting a calendar just added under a fresh id restores the old list |
| CalendarContext.AddEventUnknownCalendar | src/contexts/CalendarContext.tsx:39-41 | with an id no calendar has, `addEvent` leaves the list identical |
| CalendarContext.AddEventThenFind | src/contexts/CalendarContext.tsx:39-41 | after `addEvent`, the calendar found under the id is the old one with the event appended |
| CalendarContext.AddEventKeepsCalendars | src/contexts/CalendarContext.tsx:39-41 | each calendar keeps its id, name and colour; its events are either unchanged or the old ones followed by the appended event |
| CalendarContext.DeleteCalendarSpec | src/contexts/CalendarContext.tsx:46-47 | no calendar with the id remains; the rest keep their order and multiplicity; the length drops by the number removed |
| CalendarContext.CountComplement | src/contexts/CalendarContext.tsx:47 | the calendars kept plus those removed make up the whole list |
| CalendarContext.DeleteCalendarIdempotent | src/contexts/CalendarContext.tsx:46-47 | deleting twice is deleting once |
| CalendarContext.CalendarStore.constructor | src/contexts/CalendarContext.tsx:16 | the store starts with no calendars, over the given storage |
| CalendarContext.CalendarStore.Initialize | src/contexts/CalendarContext.tsx:18-24 | the state becomes whatever the load returned |
| CalendarContext.CalendarStore.Save | src/utils/storage.ts:28-35 | `@calendars` holds the list, and every other key is unchanged |
| CalendarContext.CalendarStore.AddCalendar | src/contexts/CalendarContext.tsx:26-34 | the state is the appended list, and the persisted copy equals it |
| CalendarContext.CalendarStore.AddEvent | src/contexts/CalendarContext.tsx:37-43 | the state is the mapped list, and the persisted copy equals it |
| CalendarContext.CalendarStore.DeleteCalendar | src/contexts/CalendarContext.tsx:46-49 | the state is the filtered list, and the persisted copy equals it |
| ApiClient.Authorize | src/api/client.ts:16-24 | with a token, `Authorization` is `Bearer <t>`; without one, the request is unchanged; all other fields and headers are kept |
| ApiClient.OutgoingCarriesStoredToken | src/api/client.ts:16-24 | with a non-empty stored token `t` the request carries `Bearer <t>`; without one only the instance defaults apply, which may still hold the header set after a refresh |
| ApiClient.SuccessPassesThrough | src/api/client.ts:27 | a success resolves with its data; storage and headers are untouched |
| ApiClient.OtherErrorsRejected | src/api/client.ts:38-89 | a non-401 error, or a 401 on a retried request, rejects with the original error and no refresh |
| ApiClient.RefreshFailureClearsSession | src/api/client.ts:43-85 | a missing refresh token, or a failed refresh, removes the three session keys and rejects |
| ApiClient.RefreshSuccessReplaysOnce | src/api/client.ts:41-80 | both tokens are stored and the default header is set; the replay carries `_retry` and the new token; the call settles as the replay does |
| ApiClient.AtMostOneReplay | src/api/client.ts:38-80 | one call sends at most three requests (request, refresh, replay); an already retried request is sent once |
| ApiClient.DispatchKeepsOtherKeys | src/api/client.ts:63-83 | the client never changes a key outside the three session keys |
| ApiClient.Client.constructor | src/api/client.ts:6-8 | a fresh instance has no default `Authorization` header and has sent nothing |
| ApiClient.Client.Send | src/api/client.ts:16-91 | the new client state and the result are those of `Dispatch` |
| ApiClient.Client.RefreshAndRetry | src/api/client.ts:41-86 | the refresh branch's new state and result are those of `RefreshAndReplay` |
| AuthContext.StoreAuthDataSpec | src/contexts/AuthContext.tsx:139-148 | the three session keys hold the tokens and the user; all other keys are unchanged |
| AuthContext.InitWithoutRefreshTokenIsGuest | src/contexts/AuthContext.tsx:43-66 | with no refresh token, start-up is a guest session followed by `isLoading := false` |
| AuthContext.InitRefreshSuccess | src/contexts/AuthContext.tsx:43-58 | a successful refresh stores both tokens and sets `user` from `@user` (or `{}`) |
| AuthContext.InitRefreshFailureIsGuest | src/contexts/AuthContext.tsx:59-62 | a failed start-up refresh falls back to a guest session |
| AuthContext.InitAlwaysFinishes | src/contexts/AuthContext.tsx:70-72 | start-up always ends with loading over |
| AuthContext.GuestSessionSpec | src/contexts/AuthContext.tsx:75-87 | on success, the three keys and `user` come from the answer; on a failure that is not a 401, storage and `user` are unchanged |
| AuthContext.GuestFailureKeepsUser | src/contexts/AuthContext.tsx:84-87 | a rejected guest request never changes `user` |
| AuthContext.SignInSpec | src/contexts/AuthContext.tsx:90-112 | the keys are cleared first; sign-in succeeds iff the server answers with data, and then storage is the cleared storage with that answer stored and `user` is the answer's user; on failure the error is rethrown, the keys stay cleared and `user` is unchanged; keys outside the session are left alone |
| AuthContext.NoRefreshTokenNoReplay | src/api/client.ts:43-47 | after the keys are cleared, a failing call sends one request and leaves them cleared |
| AuthContext.SignInUnauthorized | src/contexts/AuthContext.tsx:92-98 | a 401 on login or register rethrows "refresh token not found" after a single request |
| AuthContext.LogoutSpec | src/contexts/AuthContext.tsx:114-127 | on success, the four keys are removed and a guest session follows; on a failure that is not a 401, nothing changes |
| AuthContext.LogoutForgetsCalendars | src/contexts/AuthContext.tsx:117-123 | after a complete logout, no saved calendar list is left |
| AuthContext.RefreshSessionSpec | src/contexts/AuthContext.tsx:129-137 | posts the stored refresh token; on success it stores the answer without setting `user`; on failure it logs out |
| AuthContext.FailedRefreshForgetsSession | src/contexts/AuthContext.tsx:114-137 | after a failed refresh, a logout POST that succeeds and a guest request refused without a 401, no session key and no `@calendars` remain, and `user` is unchanged |
| AuthContext.AuthProvider.constructor | src/contexts/AuthContext.tsx:26-27 | `user` starts null and `isLoading` true |
| AuthContext.AuthProvider.StoreAuth | src/contexts/AuthContext.tsx:139-148 | storage becomes `StoreAuthData` of the old storage |
| AuthContext.AuthProvider.CreateGuestSession | src/contexts/AuthContext.tsx:75-88 | the provider's state becomes `GuestSession` of the old state |
| AuthContext.AuthProvider.SignInAt | src/contexts/AuthContext.tsx:90-112 | the state and the outcome are those of `SignIn` |
| AuthContext.AuthProvider.Login | src/contexts/AuthContext.tsx:90-100 | `SignIn` on `/auth/login` |
| AuthContext.AuthProvider.Register | src/contexts/AuthContext.tsx:102-112 | `SignIn` on `/auth/register` |
| AuthContext.AuthProvider.Logout | src/contexts/AuthContext.tsx:114-127 | the state becomes `LoggedOut` of the old state |
| AuthContext.AuthProvider.RefreshSession | src/contexts/AuthContext.tsx:129-137 | the state becomes `SessionRefreshed` of the old state |
| AuthContext.AuthProvider.InitAuth | src/contexts/AuthContext.tsx:29-157 | the state becomes `Initialized` of the old state, and the provider renders |
| AuthSchemas.Utf16Length | src/validations/authSchemas.ts:8-9 | a JavaScript length lies between the character count and twice it |
| AuthSchemas.Utf16LengthBmp | src/validations/authSchemas.ts:8-9 | for text without astral characters, the length is the character count |
| AuthSchemas.LoginValidIff | src/validations/authSchemas.ts:4-15 | a login form is valid iff the username is present with 3–20 characters and the password is present with 6–50 |
| AuthSchemas.RegisterValidIff | src/validations/authSchemas.ts:17-24 | a register form is valid iff the login rules hold and `confirmPassword` is present and equal to the password |
| AuthSchemas.RegisterImpliesLogin | src/validations/authSchemas.ts:17 | every valid register form passes the login schema |
| AuthSchemas.UsernameBoundsBmp | src/validations/authSchemas.ts:5-9 | for Latin or Cyrillic input, the username rule is a count of 3 to 20 inclusive |
| AuthSchemas.PasswordBoundsBmp | src/validations/authSchemas.ts:10-14 | for Latin or Cyrillic input, the password rule is a count of 6 to 50 inclusive |
| AuthSchemas.AbsentFieldsFail | src/validations/authSchemas.ts:7-21 | an undefined or empty username, password or `confirmPassword` fails its schema whatever the other fields hold |
| RoleUtils.TranslateRole | src/utils/roleUtils.ts:10-12 | a known role gives its table label; any other key is returned unchanged |
| RoleUtils.KnownRoles | src/utils/roleUtils.ts:2-8 | each of the five roles maps to its fixed label |
| RoleUtils.LabelsDistinct | src/utils/roleUtils.ts:2-8 | no two roles share a label |
| RoleUtils.NonEmptyLabel | src/utils/roleUtils.ts:2-11 | a non-empty role never gives an empty label |
| EventUtils.TranslateEventType | src/utils/eventUtils.ts:5-16 | the label is `'Неизвестно'` iff the type is not one of the seven keys |
| EventUtils.EventIcon | src/utils/eventUtils.ts:18-29 | an unknown type gets the icon `'event'` |
| EventUtils.LabelsDistinct | src/utils/eventUtils.ts:6-13 | the seven keys have seven distinct labels |
| EventUtils.OtherIconIsDefault | src/utils/eventUtils.ts:26-27 | the icon is `'event'` iff the type is `'other'` or unknown |
| EventUtils.SpecificIconsDistinct | src/utils/eventUtils.ts:19-24 | the six keys other than `'other'` get six distinct icons, none of them the default |
| EventUtils.NearMissesAreUnknown | src/utils/eventUtils.ts:6-15 | matching is exact: `'laboratory'`, `'Other'` and `'event'` are not keys |
| Text.LeadingWhitespace | src/screens/ViewEventScreen.tsx:22 | counts the whitespace prefix, which is followed by a non-whitespace character or the end |
| Text.TrailingWhitespace | src/screens/ViewEventScreen.tsx:22 | counts the whitespace suffix, which is preceded by a non-whitespace character or the start |
| Text.Trim | src/screens/ViewEventScreen.tsx:22 | the trimmed string is empty or starts and ends with non-whitespace |
| Text.TrimIsSlice | src/screens/AddEventScreen.tsx:65 | `trim` removes only whitespace, and only from the two ends |
| Text.TrimIdempotent | src/screens/ViewEventScreen.tsx:22 | trimming twice is trimming once |
| Text.BlankIffAllWhitespace | src/screens/AddEventScreen.tsx:65 | a link is dropped iff all its characters are whitespace |
| ViewEventScreen.LookupEvent | src/screens/ViewEventScreen.tsx:20-21 | none iff that calendar has no event with the id; otherwise the first such event of the first such calendar |
| ViewEventScreen.ValidLinks | src/screens/ViewEventScreen.tsx:22 | only non-blank links are listed; every non-blank link is listed; no event gives no links |
| ViewEventScreen.ValidLinksInOrder | src/screens/ViewEventScreen.tsx:22 | the listed links keep the event's order and each non-blank link's multiplicity |
| ViewEventScreen.Render | src/screens/ViewEventScreen.tsx:33-39 | "not found" iff the lookup fails; otherwise the looked-up event with exactly its valid links |
| ViewEventScreen.NormalizeUrl | src/screens/ViewEventScreen.tsx:24-27 | the result has an `http://` or `https://` prefix; a URL with one is unchanged; any other gets `https://` in front |
| ViewEventScreen.NormalizeUrlIdempotent | src/screens/ViewEventScreen.tsx:25-26 | normalising twice is normalising once |
| ViewEventScreen.NormalizeUrlKeepsText | src/screens/ViewEventScreen.tsx:25-26 | the entered text is the tail of the URL opened, with at most the scheme added |
| ViewEventScreen.AddedEventIsShown | src/screens/ViewEventScreen.tsx:20-21 | an event just added under a fresh id is the event this screen finds |
| AddEventScreen.BuildEventData | src/screens/AddEventScreen.tsx:59-69 | start and end are the selected date; the links are exactly the non-blank ones; location is absent iff empty; there is no `date` field |
| AddEventScreen.PayloadLinksInOrder | src/screens/AddEventScreen.tsx:65 | the payload's links keep their order and the multiplicity of each non-blank link |
| AddEventScreen.SubmittedLinksAllShown | src/screens/AddEventScreen.tsx:65 | the event page lists every link of a submitted payload |
| AddEventScreen.PickerValuesWithoutLabel | src/screens/AddEventScreen.tsx:33-47 | three picker values are not label keys, one of them the initial type |
| AddEventScreen.AddEventForm.constructor | src/screens/AddEventScreen.tsx:31-36 | the form starts empty, with `links == ['']` and type `'laboratory'` |
| AddEventScreen.AddEventForm.SetTitle | src/screens/AddEventScreen.tsx:31 | only the title changes |
| AddEventScreen.AddEventForm.SetDescription | src/screens/AddEventScreen.tsx:32 | only the description changes |
| AddEventScreen.AddEventForm.SetEventType | src/screens/AddEventScreen.tsx:33 | only the type changes |
| AddEventScreen.AddEventForm.SetLocation | src/screens/AddEventScreen.tsx:34 | only the location changes |
| AddEventScreen.AddEventForm.SetIsEmergency | src/screens/AddEventScreen.tsx:35 | only the urgency flag changes |
| AddEventScreen.AddEventForm.AddLink | src/screens/AddEventScreen.tsx:49-51 | exactly one empty link is appended; the payload's links are unchanged |
| AddEventScreen.AddEventForm.ChangeLink | src/screens/AddEventScreen.tsx:53-57 | the length is kept; position `i` holds the text; every other position is unchanged |
| AddEventScreen.AddEventForm.Submit | src/screens/AddEventScreen.tsx:59-72 | the store gets the payload for this form's calendar; storage changes only at `@calendars`, which then equals the state |
| CalendarScreen.GroupByDay | src/screens/CalendarScreen.tsx:49-58 | none iff some event lacks the date field; otherwise the keys are exactly the days with events, each group is that day's events in order, and the sizes sum to the number of events |
| CalendarScreen.HasEventIff | src/screens/CalendarScreen.tsx:69-70 | a day is marked iff some event falls on it, and then its group is not empty |
| CalendarScreen.EachEventInItsGroup | src/screens/CalendarScreen.tsx:49-58 | each event is in its own day's group and no other; each group keeps calendar order |
| CalendarScreen.GroupingUnique | src/screens/CalendarScreen.tsx:49-58 | the grouping is fully determined by the events |
| CalendarScreen.EventsByDate | src/screens/CalendarScreen.tsx:45-58 | as written, the grid keyed by `event.date`; a missing calendar gives no groups |
| CalendarScreen.EventsByEndDate | src/screens/CalendarScreen.tsx:45-58 | the corrected grid keyed by `endDate`: it always exists, and a missing calendar gives no groups |
| CalendarScreen.FormEventBreaksGrid | src/screens/CalendarScreen.tsx:51-52 | once the calendar holds a form-built event, the grid as written cannot be built |
| CalendarScreen.FormEventsHaveNoDate | src/screens/AddEventScreen.tsx:60-69 | no payload the form builds has a `date` field |
| CalendarScreen.GridAgreesWithEventList | src/screens/CalendarScreen.tsx:67-70 | with the corrected grid, a day is marked iff its event list is non-empty, and its group is that list |
| EventListScreen.EventsForDate | src/screens/EventListScreen.tsx:23-26 | every returned event ends on the selected day; every such event is returned; a missing calendar gives none |
| EventListScreen.EventsForDateInOrder | src/screens/EventListScreen.tsx:24 | the list is a subsequence of the calendar's events with each match's multiplicity |
| EventListScreen.AddedEventIsListed | src/screens/EventListScreen.tsx:23-26 | an event added for a day appears in that day's list |

## Left out

- Rendering: JSX, styles, icons, alerts, `console` logging, and
  `Linking.openURL` with its failure alert.
- Navigation calls and theming.
- The fetch-and-display screens. They are HTTP calls followed by state
  updates.
- JSON: `JSON.stringify` and `JSON.parse` are taken as a round trip over
  typed values. Stored text that does not parse as a user is modelled as a
  parse failure.
- AsyncStorage failures. Every read and write succeeds.
- Promise concurrency: the `Promise.all` reads in `initAuth`, and any
  interleaving of operations. Each operation is one sequential step.
- AuthContext.InitAuth: the outer `catch` at src/contexts/AuthContext.tsx:67-69
  is not modelled. Under the assumptions above nothing in its `try` block
  throws, apart from the inner branch, which has its own catch.
- AuthContext: a refresh answer without a `user` is not modelled. Every
  answer carries the fields the code reads.
- ApiClient: an error without `error.config`, such as a network failure
  before the request is built, is not modelled. Every error carries its
  request.
- ApiClient: header names are compared exactly. Axios's case-insensitive
  header handling is not modelled.
- ApiClient.Client.Send: a replay of the same request object is modelled as
  a fresh request value. Axios's in-place mutation of `config._retry` is
  visible only through the replayed request.
- RoleUtils.TranslateRole: keys inherited from `Object.prototype`, such as
  `constructor`, are not modelled. Only the five own keys are in the table.
- AddEventScreen.AddEventForm.ChangeLink: requires an index in range. The
  screen only calls it from the rendered link fields; writing past the end
  of a JavaScript array is not modelled.
- Days: date-fns `format` and `new Date` are the parameter `dayKey`. Their
  time-zone and calendar arithmetic is not modelled, and neither is the
  grid's construction of the days of the month.

## Findings

| source | as written | input that shows it | evidently intended | confidence | as-written member | corrected member |
|---|---|---|---|---|---|---|
| src/screens/CalendarScreen.tsx:51-52 | the grid groups events by `event.date`, a field no event has; the add-event form never sets it (src/screens/AddEventScreen.tsx:60-69), so `format(new Date(undefined), ...)` meets an Invalid Date, on which date-fns 2 and later throw | a calendar holding one event added through the form | group by `event.endDate`, the day the event list filters on (src/screens/EventListScreen.tsx:24-25) | not executed; medium: it depends on the date-fns version, which is not part of this model | CalendarScreen.EventsByDate, CalendarScreen.FormEventBreaksGrid | CalendarScreen.EventsByEndDate, CalendarScreen.GridAgreesWithEventList |
