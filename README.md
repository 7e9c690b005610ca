# IT Speed Dating — a verified model of the app's core

This project models the core of an IT speed-dating app, written in Dafny.

The app has two sides:
- A NestJS backend with in-memory stores for events, settings and participants, and a database-backed waitlist.
- A Next.js front end:
  - two client APIs, a mock and a real one that talks to the backend;
  - the admin's participant panel and the admin's event page;
  - the guest's registration wizards, welcome chat, waiting-room countdown and five-round speed-dating room.

Each source file is one Dafny module:

| Dafny file | module | models |
|---|---|---|
| events_service.dfy | Events | api/src/events/events.service.ts |
| settings_service.dfy | Settings | api/src/settings/settings.service.ts |
| participants_service.dfy | Participants | api/src/participants/participants.service.ts |
| waitlist_service.dfy | Waitlist | api/src/waitlist/waitlist.service.ts |
| mock_api.dfy | MockApi | shared/api/mock.ts |
| real_api.dfy | RealApi | shared/api/real.ts |
| admin_panel.dfy | AdminPanel | features/admin/AdminPanel.tsx |
| admin_page.dfy | AdminPage | app/admin/page.tsx |
| waiting_room.dfy | WaitingRoom | features/guest/WaitingRoom.tsx |
| guest_registration.dfy | GuestRegistration | features/guest/RegistrationForm.tsx |
| registration_form.dfy | RegistrationWizard | components/registration-form.tsx |
| welcome_chat.dfy | WelcomeChat | components/anna-welcome-chat.tsx |
| speed_dating_room.dfy | SpeedDatingRoom | components/speed-dating-room.tsx |

The shared modules are:
- Options: `Option`, and `Outcome` (a promise that resolves or throws).
- Decimal: natural numbers as decimal text.
- Seqs: `filter` and `findIndex`.
- Sorting: a stable insertion sort. It stands for `Array.prototype.sort`, which is stable.
- Clock: dates as day numbers and times as minutes of the day.
- Entities: the backend's enums.
- ClientTypes: the front end's `User` and `Participant`.
- RegistrationSteps: the step rule both wizards share, with JavaScript's `trim`.

Form of the model:
- Stores that the source updates in place are classes. Their methods have `modifies` clauses, and each states its whole new state. This covers the event, settings and participant services, the mock database, and every React component with state.
- Pure computations are functions with lemmas beside them: the sort and the next-event search, the waitlist queries, the real API's mappings, the filters and counts, the countdown arithmetic and `formatTime`.
- React state is a class.
  - A handler is a method.
  - An effect is a method that runs when its dependencies change.
  - A timer is a pending item that the environment fires.
  - An `await` splits a handler in two: a first method that changes nothing and returns the request (with what the handler's closure captured), and a second method that applies the answer whenever it arrives.
- The following are parameters: the current time, random ids, answers from the server, and the parsing and printing of ISO dates.
- Types:
  - Dates (`YYYY-MM-DD`) and times (`HH:mm`) in the event store and on the admin page are integers. These fixed-width strings compare in the same order as the numbers.
  - JSON is a datatype.
  - JavaScript's truthiness, `??`, `String(...)` and the remainder operator `%` (which truncates toward zero) are written out.

Behaviour of the code worth knowing:
- The speed room overwrites an earlier vote on the same partner: `HandleVote` stores the last vote.
- The participant service's `findOne`, `update` and `remove` are stubs that return a message. They do not read or change the store.
- The guest wizard's preselection of the next event ignores the current choice. Its emptiness test reads the form as it was at mount, when the event is always empty. `GuestRegistration.Form.Loaded` therefore writes any non-empty next id.
- Neither client API defines `listEvents` or `getNextEvent`. With the shipped APIs, the guest wizard's list is empty and nothing is preselected.
- The real client parses every answer as JSON. The participant stubs answer with plain text, so the real client rejects their answers (`Response.body` is `None`).

## Model

| member | source | states |
|---|---|---|
| Events.ListedIsOrderedPermutation | api/src/events/events.service.ts:16-20 | `list` leaves the events ordered by (eventDate, eventTime) and is a permutation of them |
| Events.ListedIsStable | api/src/events/events.service.ts:17-19 | events at the same moment keep their insertion order |
| Events.SameKeySameSlot | api/src/events/events.service.ts:17-18 | two events have the same sort key iff they are at the same date and time |
| Sorting.SortSorted | api/src/events/events.service.ts:17-19 | the sort puts its input in non-decreasing key order |
| Sorting.SortStable | api/src/events/events.service.ts:17-19 | for each key, the elements with that key keep their relative order |
| Clock.MomentOrder | api/src/events/events.service.ts:47-49 | comparing (date, time) text lexicographically agrees with comparing the moments |
| Events.EventsService.List | api/src/events/events.service.ts:16-20 | sorts the store in place and returns it |
| Events.EventsService.Create | api/src/events/events.service.ts:22-30 | appends exactly one event with the body's fields; its id is the text of the new length and its `createdAt` the creation time, unless the body carries its own, which the spread lets win |
| Events.IdsRepeatAfterRemoval | api/src/events/events.service.ts:24 | create, create, remove "1", create leaves two events with id "2": ids are not unique |
| Events.MergeLaws | api/src/events/events.service.ts:35 | the empty patch changes nothing; merging a patch twice equals merging it once |
| Events.EventsService.Update | api/src/events/events.service.ts:32-37 | an unknown id changes nothing and returns undefined; otherwise the first event with the id is merged with the patch and returned |
| Events.WithoutSpec | api/src/events/events.service.ts:41 | the filtered store holds exactly the events with another id, in order, each as many times as before |
| Events.RemoveTwice | api/src/events/events.service.ts:39-43 | after a removal no event has the id, and removing it again changes nothing |
| Events.EventsService.Remove | api/src/events/events.service.ts:39-43 | returns true iff some event had the id, and the store loses exactly those events |
| Events.FirstUpcomingIsEarliest | api/src/events/events.service.ts:47-51 | on a sorted list, the first event at or after now is the earliest such event; it is null only when none exists |
| Events.NextIsEarliestUpcoming | api/src/events/events.service.ts:45-52 | `next` returns an event starting at or after now, and no upcoming event starts earlier; null iff none is upcoming |
| Events.EventsService.Next | api/src/events/events.service.ts:45-52 | sorts the store (as `list` does) and returns the first upcoming event |
| Settings.MergeLaws | api/src/settings/settings.service.ts:21-24 | the empty patch changes nothing; a patch is idempotent; two patches compose into one |
| Settings.Merge | api/src/settings/settings.service.ts:22 | fields present in the patch replace the old values and absent fields are kept |
| Settings.SettingsService.constructor | api/src/settings/settings.service.ts:11-15 | starts with 2024-08-20 at 19:00 and 7-minute rounds |
| Settings.SettingsService.Get | api/src/settings/settings.service.ts:17-19 | returns the stored settings and changes nothing |
| Settings.SettingsService.Update | api/src/settings/settings.service.ts:21-24 | replaces the settings with the patch merged over them and returns the result |
| Settings.GetAfterUpdate | api/src/settings/settings.service.ts:17-24 | `get` after `update(p)` shows every field that `p` sets |
| Participants.NewRecord | api/src/participants/participants.service.ts:11-16 | the record has every field of the body; its id is the generated one unless the body carries an id, which is spread after it; status REGISTERED and the creation time always come from the service |
| Participants.ParticipantsService.Create | api/src/participants/participants.service.ts:9-19 | appends exactly one record, generated with id = old length + 1; every status stays REGISTERED; for a body without an id the ids stay 1..n in insertion order |
| Participants.BodyIdDuplicates | api/src/participants/participants.service.ts:11-13 | a body carrying `id: 1` after one id-free registration gives two records with id 1 |
| Participants.ParticipantsService.FindAll | api/src/participants/participants.service.ts:21-23 | returns the whole store in insertion order |
| Participants.ParticipantsService.FindOne | api/src/participants/participants.service.ts:25-27 | returns only a message naming the id and does not look anything up |
| Participants.ParticipantsService.Update | api/src/participants/participants.service.ts:29-31 | returns only a message and leaves the store unchanged |
| Participants.ParticipantsService.Remove | api/src/participants/participants.service.ts:33-35 | returns only a message and leaves the store unchanged |
| Waitlist.Create | api/src/waitlist/waitlist.service.ts:25-49 | a new entry is not contacted and carries every submitted field, with the id and creation time it was stored with |
| Waitlist.FindAllSpec | api/src/waitlist/waitlist.service.ts:51-73 | holds exactly the entries of the city (all entries when the city is absent or empty), newest first, each entry as often as stored |
| Waitlist.SetContacted | api/src/waitlist/waitlist.service.ts:76 | every entry with the id gets the flag; the notes are replaced only when given; other entries are unchanged |
| Waitlist.UpdateContacted | api/src/waitlist/waitlist.service.ts:75-92 | the table after the update, and the re-read of the entry from that table |
| Waitlist.UpdateContactedSpec | api/src/waitlist/waitlist.service.ts:75-92 | null iff no entry has the id; otherwise the first entry with the id, with the new flag, the new notes when given and its stored notes when not |
| Waitlist.RemoveResult | api/src/waitlist/waitlist.service.ts:96 | true iff the affected count is known and positive |
| Waitlist.Delete | api/src/waitlist/waitlist.service.ts:95 | drops the entries with the id and reports how many went |
| Waitlist.RemoveReportsDeletion | api/src/waitlist/waitlist.service.ts:94-97 | `remove` is true iff an entry had the id; an unknown affected count is false |
| Waitlist.CityTallyStep | api/src/waitlist/waitlist.service.ts:110 | `byCity[city] = (byCity[city] \|\| 0) + 1` keeps the per-city map equal to the counts of the rows seen so far |
| Waitlist.GenderTallyStep | api/src/waitlist/waitlist.service.ts:113 | `byGender[gender] = (byGender[gender] \|\| 0) + 1` keeps the per-gender map equal to the counts of the rows seen so far |
| Waitlist.TalliesSum | api/src/waitlist/waitlist.service.ts:99-117 | with the two cities and two genders, each map's counts sum to the number of rows |
| Waitlist.GetStats | api/src/waitlist/waitlist.service.ts:99-117 | total = number of entries; a city or gender is a key iff it occurs, with its count as value; the per-city and per-gender counts each sum to the total |
| MockApi.SeedUsers | shared/api/mock.ts:5-9 | three seeded users with ids "1".."3" |
| MockApi.SeedParticipants | shared/api/mock.ts:11-17 | five seeded participants with ids "1".."5", registered at load time |
| MockApi.MockDatabase.constructor | shared/api/mock.ts:5-17 | the store starts with the seeds |
| MockApi.WithId | shared/api/mock.ts:27-30 | the new user is the submitted data plus the new id |
| MockApi.MockDatabase.RegisterUser | shared/api/mock.ts:25-34 | appends the new user with the random id and returns it |
| MockApi.FindUser | shared/api/mock.ts:36-41 | null iff no user has the id; otherwise the first user with it |
| MockApi.RegisteredUserIsFound | shared/api/mock.ts:25-41 | a user registered under a new id is found by it, and lookups of other ids are unaffected |
| MockApi.MockDatabase.GetParticipants | shared/api/mock.ts:44-48 | returns a copy of the list and changes nothing |
| MockApi.MergeMatching | shared/api/mock.ts:56-62 | every entry with the id is merged with the update; the others are kept |
| MockApi.LastMergedSpec | shared/api/mock.ts:55-64 | the answer is null iff no entry has the id; otherwise it is the merge of the last entry with the id |
| MockApi.MockDatabase.UpdateParticipant | shared/api/mock.ts:50-65 | the loop merges every matching entry and returns the last merged one |
| MockApi.MergeIdempotent | shared/api/mock.ts:58 | `{ ...{ ...p, ...u }, ...u }` equals `{ ...p, ...u }` |
| MockApi.MergeMatchingIdempotent | shared/api/mock.ts:50-65 | repeating an update that leaves the id alone changes nothing more |
| MockApi.MockDatabase.DeleteParticipant | shared/api/mock.ts:67-74 | drops every entry with the id; success iff some entry had it |
| RealApi.Fetcher | shared/api/real.ts:6-26 | a failed status throws "API call failed: " + status text; 204 resolves to null; otherwise the parsed body, and a body that is not JSON throws |
| RealApi.Prop | shared/api/real.ts:59-66 | reading a property throws iff the value is null or undefined |
| RealApi.GenderCode | shared/api/real.ts:34 | the code sent for a gender maps back to that gender |
| RealApi.RegisterUser | shared/api/real.ts:30-50 | rejects as `fetcher` does and rejects on a 204 (null body); resolves iff `fetcher` resolves to a non-null body, and then the user has `String(p.id)` of that body as id, every other field from the form, and no table |
| RealApi.RegisterRoundTrip | shared/api/real.ts:30-50 | against the backend's `create`, the stored record has the description as bio and the gender code, no name, status REGISTERED, and the id that comes back |
| RealApi.NameOf | shared/api/real.ts:61 | a missing or null name shows as "Участник"; a string name is kept |
| RealApi.FromBackend | shared/api/real.ts:59-66 | throws iff the element is null or undefined; otherwise the id as text, the name or "Участник", the gender, and the truthiness of `paid` and `ready` |
| RealApi.MapAll | shared/api/real.ts:58-67 | resolves iff no element is nullish; the result maps every element in order |
| RealApi.GetParticipants | shared/api/real.ts:57-68 | a `fetcher` error is passed on; a body that is not a list throws; a list body gives `MapAll` of its elements, which maps each element in order and throws iff one is nullish |
| RealApi.FromBackendOfRecord | shared/api/real.ts:59-66 | a stored record, serialised, maps to the participant the admin sees |
| RealApi.GetParticipantsOfStore | shared/api/real.ts:57-68 | listing the backend's store gives one participant per record, in order, each named "Участник" when it was registered through this client |
| RealApi.ClientViewKeepsIdsApart | shared/api/real.ts:60 | records with different ids are shown with different ids |
| RealApi.UpdatePayload | shared/api/real.ts:74-76 | only `ready` and `paid` are sent, and each only when it is a boolean |
| RealApi.UpdateParticipant | shared/api/real.ts:70-92 | a `fetcher` error is passed on; a falsy answer (null from a 204 included) gives null; otherwise the mapped participant |
| RealApi.GetUser | shared/api/real.ts:52-54 | rejects iff the status is not ok or a non-204 body is not JSON, with the status text when not ok; otherwise resolves to the parsed body unmapped, or null for a 204 |
| RealApi.DeleteParticipant | shared/api/real.ts:94-98 | rejects iff `fetcher` rejects; a null answer (204 included) is success; any other answer resolves to its truthiness, so false means a non-null falsy answer |
| AdminPanel.ToLower | features/admin/AdminPanel.tsx:60 | lowers the basic Latin capitals A–Z and the Russian alphabet (А–Я, Ё), one character for one, and keeps every other character |
| AdminPanel.ContainsEmpty | features/admin/AdminPanel.tsx:60 | an empty name filter matches every name |
| AdminPanel.FilteredSpec | features/admin/AdminPanel.tsx:58-69 | the filtered list keeps the order and holds exactly the rows that pass the name, gender and payment tests |
| AdminPanel.DefaultFiltersShowAll | features/admin/AdminPanel.tsx:39-41 | with the initial filters, every row is shown |
| AdminPanel.CountsSpec | features/admin/AdminPanel.tsx:73-75 | men + women = present; tables = min(men, women) ≤ half the present; the unpaired count is the difference, positive iff the counts differ |
| AdminPanel.ReplaceAll | features/admin/AdminPanel.tsx:90 | every row with the id becomes the answer; the others are kept |
| AdminPanel.TogglePatchFlips | features/admin/AdminPanel.tsx:88 | merging the patch flips the row's presence and keeps its id |
| AdminPanel.ToggleMovesPresentCount | features/admin/AdminPanel.tsx:84-92 | with distinct ids, flipping one row's presence moves the present count by exactly one |
| AdminPanel.Panel.constructor | features/admin/AdminPanel.tsx:38-44 | loading, no rows, default filters, "registered" tab |
| AdminPanel.Panel.Loaded | features/admin/AdminPanel.tsx:46-54 | the loaded list is stored and loading ends |
| AdminPanel.Panel.HandleDeleteParticipant | features/admin/AdminPanel.tsx:77-82 | on success, every row with the id goes; otherwise nothing changes |
| AdminPanel.Panel.RequestToggle | features/admin/AdminPanel.tsx:84-88 | no request for an unknown id; otherwise the patch flips `ready` of the matching row that no earlier row's id matches, as `find` picks it |
| AdminPanel.Panel.ApplyToggleResult | features/admin/AdminPanel.tsx:89-91 | a non-null answer replaces every row with the id; null changes nothing |
| AdminPage.SlotsSpec | app/admin/page.tsx:195-196 | the slot count is the largest whole number of places within the percentage |
| AdminPage.SlotsShareTheMaximum | app/admin/page.tsx:245-249 | with shares summing to 100, the two slot counts fill the event to within one place and never exceed it |
| AdminPage.RequestFor | app/admin/page.tsx:426-482 | no request iff the date and time are not in the future; "new" creates; any other id updates; the form is sent unchanged (a creation adds three fixed fields, which are not part of the request value: the title "IT Speed Dating " plus the date, the city SAINT_PETERSBURG and `isActive: true`) |
| AdminPage.AcceptedEventIsUpcoming | app/admin/page.tsx:67-71 | an event that passes the guard, once stored, makes the event store's `next(now)` find an event no later than it |
| AdminPage.MergeForm | app/admin/page.tsx:479 | `{ ...selectedEvent, ...editForm }` takes every form field and keeps the rest |
| AdminPage.Page.constructor | app/admin/page.tsx:24-38 | the list view, nothing selected, the default form |
| AdminPage.Page.OpenNewEvent | app/admin/page.tsx:129-153 | edits a new event: today at 19:00, 20 places, 50/50, 7-minute rounds; the edit came from the list |
| AdminPage.Page.SelectEvent | app/admin/page.tsx:173-176 | selects the event and shows its detail |
| AdminPage.Page.EditSelected | app/admin/page.tsx:308-318 | edits the selected event with its values in the form; the edit came from the detail view |
| AdminPage.Page.SetMalePercentage | app/admin/page.tsx:391-395 | sets the male share and the female share to the rest of 100 |
| AdminPage.Page.SaveClicked | app/admin/page.tsx:426-476 | the click changes nothing; it sends no request for a refused form, a creation for "new" and an update otherwise, and captures the selected event and the form as the closure does; while only a selected event can be edited (`EditsSelection`), an update always captures a selection |
| AdminPage.Page.SaveAnswered | app/admin/page.tsx:457-480 | whenever the answer arrives: an accepted creation shows the list; an accepted update shows the detail of the captured form merged into the captured selection; a refused form or a failed request changes nothing; it keeps `EditsSelection` |
| AdminPage.SaveAnswerOverridesCancel | app/admin/page.tsx:426-509 | leaving the edit while an update is out does not stop the answer from switching the page back to the detail view |
| AdminPage.Page.Cancel | app/admin/page.tsx:488 | always shows the detail view |
| AdminPage.CancelNewEventShowsNothing | app/admin/page.tsx:488-526 | opening a new event and cancelling with nothing selected renders nothing below the header |
| AdminPage.Page.CancelToOrigin | app/admin/page.tsx:488 | returns to the view whose button opened the edit (the list for a new event, the detail view for an edited one), and the page keeps rendering |
| AdminPage.CancelNewEventToOrigin | app/admin/page.tsx:488-526 | the same steps with this cancel show the list |
| AdminPage.CancelReturnsWhereEditBegan | app/admin/page.tsx:129-318 | with an event selected but the list showing, a new event and this cancel return to the list, and editing the selected event and this cancel return to its detail view |
| AdminPage.Page.Back | app/admin/page.tsx:509 | goes home from the list and to the list from the other views |
| WaitingRoom.DecomposeSpec | features/guest/WaitingRoom.tsx:40-43 | hours in 0..23, minutes and seconds in 0..59, and diff = days·86400000 + hours·3600000 + minutes·60000 + seconds·1000 + r with 0 ≤ r < 1000 |
| WaitingRoom.CountdownBands | features/guest/WaitingRoom.tsx:34-51 | started iff diff ≤ 0; days form iff at least a day is left; hours form iff 1 h ≤ diff < 1 day; otherwise minutes and seconds |
| WaitingRoom.Countdowner.constructor | features/guest/WaitingRoom.tsx:27-30 | no interval runs without a start time |
| WaitingRoom.Countdowner.ChangeStart | features/guest/WaitingRoom.tsx:27-55 | a new start time replaces the interval; null stops it |
| WaitingRoom.Countdowner.Tick | features/guest/WaitingRoom.tsx:30-52 | shows the countdown text; once the start has passed, shows "Событие началось!" and stops |
| RegistrationSteps.TrimEmpty | features/guest/RegistrationForm.tsx:67 | a trimmed text is empty iff the text is all white space |
| RegistrationSteps.CanProceed | features/guest/RegistrationForm.tsx:64-77 | step 1 needs a name that is not all white space; step 2 a gender; step 3 nothing; step 4 a description that is not all white space; any other step is false |
| GuestRegistration.EventChoice | features/guest/RegistrationForm.tsx:57 | an empty event choice is sent as undefined, any other as itself |
| GuestRegistration.Form.constructor | features/guest/RegistrationForm.tsx:23-33 | step 1, an empty form, no events, not submitting |
| GuestRegistration.Form.Loaded | features/guest/RegistrationForm.tsx:36-46 | stores the list when it is an array; writes a non-empty next id whatever is chosen |
| GuestRegistration.Form.SetName | features/guest/RegistrationForm.tsx:122 | sets the name on step 1 |
| GuestRegistration.Form.SelectEvent | features/guest/RegistrationForm.tsx:128-136 | sets the event to "" or to a listed event's id |
| GuestRegistration.Form.SetGender | features/guest/RegistrationForm.tsx:147 | sets the gender on step 2 |
| GuestRegistration.Form.SetDescription | features/guest/RegistrationForm.tsx:187 | sets the description on step 4 |
| GuestRegistration.Form.Back | features/guest/RegistrationForm.tsx:195-199 | one step back from step 2 or later; the step stays in 1..4 |
| GuestRegistration.Form.Next | features/guest/RegistrationForm.tsx:201-204 | one step on, only before step 4 and when the step's rule holds |
| GuestRegistration.Form.BeginSubmit | features/guest/RegistrationForm.tsx:48-58 | calls `onComplete` iff name, gender and description are non-empty (untrimmed), with exactly the form's fields; the enabled button on the last step always gets through |
| GuestRegistration.Form.FinishSubmit | features/guest/RegistrationForm.tsx:59-61 | `submitting` returns to false whether `onComplete` resolved or threw; a throw is passed on |
| RegistrationWizard.Wizard.constructor | components/registration-form.tsx:23-31 | step 1 and an empty form |
| RegistrationWizard.Wizard.SetName | components/registration-form.tsx:102 | sets the name on step 1 |
| RegistrationWizard.Wizard.SetGender | components/registration-form.tsx:111 | sets the gender on step 2 |
| RegistrationWizard.Wizard.SetDescription | components/registration-form.tsx:153 | sets the description on step 4 |
| RegistrationWizard.Wizard.Back | components/registration-form.tsx:161-165 | one step back from step 2 or later; the step stays in 1..4 |
| RegistrationWizard.Wizard.Next | components/registration-form.tsx:167-170 | one step on, only before step 4 and when the step's rule holds |
| RegistrationWizard.Wizard.Submit | components/registration-form.tsx:33-42 | calls `onComplete` iff name, gender and description are non-empty, with exactly the form's name, gender, photo and description |
| WelcomeChat.TypingDelay | components/anna-welcome-chat.tsx:55 | 1000 ms before the first message, 1500 ms before the others |
| WelcomeChat.Armed | components/anna-welcome-chat.tsx:32-65 | one effect run arms a typing pause while messages remain, and the 2000 ms completion timer at 5 when `onComplete` is given |
| WelcomeChat.Chat.constructor | components/anna-welcome-chat.tsx:19-36 | mounts empty, typing, with the first pause of 1000 ms |
| WelcomeChat.Chat.FireNext | components/anna-welcome-chat.tsx:31-66 | fires the timer due first; an append adds message (index, welcomeMessages[index]) and moves the index on; the index never passes 5; `onComplete` fires at most once, at 5; the typing dots come back on after each pause |
| WelcomeChat.Chat.FireNextStableDeps | components/anna-welcome-chat.tsx:31-66 | the same steps with the dots on exactly while a pause runs |
| WelcomeChat.Transcript | components/anna-welcome-chat.tsx:23-29 | message i has id i and the i-th welcome text |
| WelcomeChat.RunAsWritten | components/anna-welcome-chat.tsx:31-66 | running every timer gives the five messages in order, `onComplete` once when given, and the dots still on |
| WelcomeChat.RunWithStableDeps | components/anna-welcome-chat.tsx:31-66 | the same transcript and completion, with the dots off at the end |
| SpeedDatingRoom.Opposite | components/speed-dating-room.tsx:45 | the partner's gender differs from the guest's |
| SpeedDatingRoom.PartnerIdsDistinct | components/speed-dating-room.tsx:112 | partners of different rounds have different ids, so each vote has its own key |
| SpeedDatingRoom.JsRem | components/speed-dating-room.tsx:90 | JavaScript's `%`: truncated division, with the remainder taking the dividend's sign |
| SpeedDatingRoom.FormatTimeRoundTrip | components/speed-dating-room.tsx:88-92 | for a non-negative count, the text reads back as the same minutes and seconds, with two-digit seconds |
| SpeedDatingRoom.FormatTimeInjective | components/speed-dating-room.tsx:88-92 | different non-negative counts are shown differently |
| SpeedDatingRoom.Room.constructor | components/speed-dating-room.tsx:34-49 | round 1, the full countdown, nobody ready, partner "Алексей" of the other gender |
| SpeedDatingRoom.Room.HandleReady | components/speed-dating-room.tsx:94-96 | the guest is ready; nothing else changes |
| SpeedDatingRoom.Room.PartnerReadyTimer | components/speed-dating-room.tsx:52-62 | the partner becomes ready only after the guest is |
| SpeedDatingRoom.Room.StartRound | components/speed-dating-room.tsx:65-69 | the round starts when both are ready, whatever the voting card shows |
| SpeedDatingRoom.Room.StartRoundGuarded | components/speed-dating-room.tsx:65-69 | the round starts when both are ready, no vote is shown and the countdown has time left; round and vote never overlap, and a running round always has time left |
| SpeedDatingRoom.Room.Tick | components/speed-dating-room.tsx:71-86 | counts down one second; at 1 or less it stops at 0, ends the round and shows the vote |
| SpeedDatingRoom.Room.HandleVote | components/speed-dating-room.tsx:98-130 | the vote is stored under the partner's id, the card hides, and a hand-over (or the end after round 5) is scheduled |
| SpeedDatingRoom.Room.FireTimer | components/speed-dating-room.tsx:104-128 | a hand-over moves to the next round with a fresh countdown, cleared flags and the next partner; the round never goes back; the end calls `onBack` and, like an empty queue, leaves the countdown, the flags and the partner as they were; a running round keeps time left |
| SpeedDatingRoom.VotingLeaksIntoNextRound | components/speed-dating-room.tsx:65-86 | with the start guard as written, round 2 opens on the voting card before either side is ready |
| SpeedDatingRoom.GuardedRoundTwoOpensReady | components/speed-dating-room.tsx:65-130 | with the corrected guard, the same steps open round 2 on the ready button with a full countdown and the first vote stored |

## Left out

- The network, `fetch` rejections, JSON parsing and `JSON.stringify` text: answers are values given as parameters.
- Time zones and the parsing of ISO dates (`new Date(string)`, `toISOString`): these are the parameters `parseIso` and `iso`.
- Locale formatting (`toLocaleDateString`, `toLocaleTimeString`): the waiting room's start label and the chat's time stamps.
- `console.log`, toasts, `alert`, `router.push` (only recorded as a flag), the mock API's delays, and the random partner delay, table number and participant id.
- The progress bar, percentages and other display text: partner descriptions, avatars and animation delays.
- The admin page's loaders (`loadEvents`, `loadEventParticipants`), `updateEvent`'s reload, and `startEvent`, which only shows a toast.
- Participants.CreateParticipantDto: an `id` in the request body is modelled as a natural number. A body id of another JSON type (a string, say) would be stored as it is, and the record type does not hold it.
- The plain input handlers for the date, time, maximum and round length on the admin page, and for the panel's filters and tab. Each sets one field.
- api/src/participants/dto/update-participant.dto.ts is not part of this model; the stubs ignore the patch.
- The waitlist's database is a sequence of rows. TypeORM's query building, `save` and the database's order among equal `createdAt` values are not modelled. `Waitlist.FindAllSpec` states the descending order, not the order within ties.
- RealApi.ToStr: `String(v)` is modelled for integers, strings, booleans, null, undefined and arrays. Objects give "[object Object]" and floating-point numbers are not modelled.
- RealApi.NameOf: `p.name ?? "Участник"` passes a non-null name of any JSON type through unchanged. The backend does not validate `name`, so a record created with `"name": 5` reaches the panel as the number 5, and the panel's `name.toLowerCase()` throws. The model's `Participant.name` is text, so it shows "5" and filters normally.
- AdminPage.Page.SetMalePercentage: the admin form's numbers (maximum, both percentages, round length) come from `Number(e.target.value)` and can be fractional, such as "12.5". `AdminPage.EditForm` holds integers, so a fractional product floored by `AdminPage.Slots` is not modelled.
- Settings.Merge: with no validation pipe, a field sent as JSON `null` is stored as null by the spread. The patch's absent/present fields cannot express a null value.
- Events.Merge: the same holds for the event patch. A field sent as `null` replaces the stored value with null, which the model cannot express.
- AdminPanel.ToLower (through AdminPanel.LowerChar): `toLowerCase` is modelled for the basic Latin A–Z and the Russian alphabet only. Other capitals ('É', 'Ä', 'І', 'Є', 'Ђ' and so on) are kept although JavaScript lowers them, and 'İ', which JavaScript lowers to two characters, is kept as one.
- SpeedDatingRoom.Room.FireTimer: the 1500 ms hand-over delay is not modelled, only the order of callbacks. All of them have the same delay, so they fire in the order they were scheduled.
- WelcomeChat.Chat.FireNext: an effect re-run that changes nothing (the second render after the typing flag flips) is merged with the run before it. The component runs that re-run at the same moment, and it arms the same timer.
- GuestRegistration.Form: no control sets the photo, so it stays empty in both wizards (and in RegistrationWizard.Wizard).

## Findings

| source | as written | input that shows it | evidently intended | confidence | as-written member | corrected member |
|---|---|---|---|---|---|---|
| components/speed-dating-room.tsx:65-69 | the start effect tests only that both sides are ready and the round is not running | both ready, a round runs out: the round restarts at 0 s, the next tick shows the vote again, and after voting round 2 opens on the voting card | a round starts once per countdown: not while the vote is shown and not on a countdown that has run out, so each round opens on the ready button | not executed | SpeedDatingRoom.VotingLeaksIntoNextRound | SpeedDatingRoom.Room.StartRoundGuarded |
| app/admin/page.tsx:488 | "Отмена" always switches to the event detail view | "Создать событие" with no event selected, then "Отмена": the detail view has no event and nothing is rendered | cancel returns to the view whose button opened the edit: the list for "Создать событие", the detail view for "Редактировать событие" | not executed | AdminPage.CancelNewEventShowsNothing | AdminPage.Page.CancelToOrigin |
| components/anna-welcome-chat.tsx:66 | the effect depends on `welcomeMessages`, a new array on every render, so it runs again after every render | any mount: when a typing pause ends, the render turns the dots back on, and after the fifth message they stay on | the dots show only during a typing pause | not executed | WelcomeChat.RunAsWritten | WelcomeChat.Chat.FireNextStableDeps |
