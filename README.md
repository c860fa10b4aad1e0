# GiveGo mock store, modelled in Dafny

GiveGo is a volunteer/NGO coordination demo whose only backend is an in-memory
store, `mockService`. The store holds four collections for the length of a
session:

- the events, seeded with three fixed events;
- the applications volunteers make to events;
- the certificates issued to volunteers;
- one append-only chat log per event id.

It offers appends, filtered queries, an application status change that
announces accepted volunteers in the event's chat, and lazily opened chat
channels.

The model has four modules:

- `Wrappers` (`wrappers.dfy`): the `Option` type, which stands for the source's `undefined` result.
- `Types` (`types.dfy`): the records of `types.ts`, namely `Event`, `ApplicationStatus`, `Application`, `ChatMessage` and `Certificate`.
- `Seqs` (`seqs.dfy`): `filter` and `map` as functions on sequences. It proves that being an in-order subsequence with the right multiplicities determines the result of `Filter`, that filtering distributes over appending, and that filtering commutes with a map that does not change selection.
- `MockService` (`mock_service.dfy`): the seed events, the messages the store writes itself, and the class `MockStore`. Its `seq` fields `events`, `applications` and `certificates` and its `map` field `chats` are the module state of the source. Its methods change that state and state the whole new state. Its queries are functions over the fields.

`MockStore.Valid()` is the invariant every operation keeps. The seed events
stay at the front of `events`, and every open chat channel is non-empty.

The source wraps every result in an already-resolved promise. Here the
operations return their results directly. The source reads the clock with
`Date.now()`; each reading is a parameter here. `clock: nat` is the reading
whose decimal rendering becomes a message id. `now: int` is the reading used
as a timestamp.

Two behaviours of the store are worth knowing, and the model keeps both:

- The store accepts any status on any application. When an application is accepted again, the store announces the volunteer again (services/mockService.ts:82-98).
- The store appends a second application for the same (event, volunteer) pair. Only the volunteer screen prevents it (components/VolunteerDashboard.tsx:126-128). `ApplyToEvent` appends duplicates too.

## Model

| member | source | states |
|---|---|---|
| `MockService.MockStore.constructor` | services/mockService.ts:51-54 | a session starts with exactly the three seed events, no applications, no certificates and no chat channels |
| `MockService.MockStore.GetEvents` | services/mockService.ts:58 | a function over the state: the stored events in insertion order; the seed events always come first |
| `MockService.MockStore.CreateEvent` | services/mockService.ts:60-63 | appends the event as given and returns it; no other collection changes; the application view of every NGO other than the event's owner is unchanged |
| `MockService.MockStore.ApplyToEvent` | services/mockService.ts:66-69 | appends the application as given, duplicates included, and returns it; no other collection changes; each volunteer's and each NGO's view grows by exactly this application when it is theirs, and is otherwise unchanged |
| `MockService.MockStore.GetApplicationsForNgo` | services/mockService.ts:71-76 | an in-order subsequence of the applications; an application is in it iff some stored event with its event id belongs to the NGO; it occurs as often as it is stored, so applications against other NGOs' events never appear |
| `MockService.MockStore.GetVolunteerApplications` | services/mockService.ts:78-80 | an in-order subsequence of the applications holding exactly those with the volunteer's id, each as often as it is stored |
| `MockService.MockStore.UpdateApplicationStatus` | services/mockService.ts:82-101 | an unknown id changes nothing and returns None; otherwise only the first application with that id gets the new status, all its other fields and all other applications are unchanged, and it is returned; on Accepted exactly one join message is appended to that event's channel (the channel is opened if absent), other channels untouched; on Pending or Rejected the chats are unchanged; with unique ids, every NGO and volunteer view is the old view with that application's status patched |
| `MockService.MockStore.GetChatMessages` | services/mockService.ts:104-111 | an absent channel is opened holding only the welcome message; an open channel is returned unchanged, so a second call returns the same log; the log is never empty |
| `MockService.MockStore.SendMessage` | services/mockService.ts:113-117 | appends the message at the end of the event's channel, opening an empty one first if absent; other channels and collections unchanged |
| `MockService.MockStore.IssueCertificate` | services/mockService.ts:120-123 | appends the certificate and returns it; no other collection changes; the volunteer's certificate view grows by exactly it |
| `MockService.MockStore.GetMyCertificates` | services/mockService.ts:125-127 | an in-order subsequence of the certificates holding exactly those with the volunteer's id, each as often as it is stored |
| `MockService.SeedEvents` | services/mockService.ts:4-48 | the three seed events `e1`, `e2` and `e3` with their fields as in the source; their ids are distinct, each is owned by "ngo1" or "ngo2", and "ngo1" owns two |
| `MockService.Channel` | services/mockService.ts:96 | the stored log of an open channel, and the empty log for a channel never opened |
| `MockService.IsSystemMessage` | services/mockService.ts:90-94 | a message from sender "system", shown as "SYSTEM", flagged as a system message; a message that satisfies it carries the flag the chat panel reads |
| `MockService.PatchChangesOnlyStatus` | components/NGODashboard.tsx:79 | the dashboard's local patch `WithStatusFor` gives the new status to applications with the id and changes nothing else of any application |
| `MockService.ViewsAfterStatusPatch` | components/NGODashboard.tsx:77-80 | with unique ids, the patch keeps ids unique and patches every NGO's and every volunteer's view in place |
| `Seqs.Map` | services/mockService.ts:74 | `map` keeps the length and applies the function at every position |
| `MockService.FindById` | services/mockService.ts:83 | `find` by id: the index of the first application with the id, with no earlier match; None exactly when no application has the id |
| `MockService.EventIdsOf` | services/mockService.ts:74 | an id is among the NGO's event ids iff some stored event with that id has the NGO as owner |
| `MockService.EventIdsOfAppendOther` | services/mockService.ts:74 | adding an event owned by another NGO leaves an NGO's event ids unchanged |
| `MockService.NgoViewAfterAppend` | services/mockService.ts:75 | appending an application extends an NGO's view by it exactly when it is against an event the NGO owns |
| `MockService.VolunteerViewAfterAppend` | services/mockService.ts:79 | appending an application extends a volunteer's view by it exactly when it is theirs |
| `MockService.CertificatesAfterAppend` | services/mockService.ts:126 | issuing a certificate extends a volunteer's certificates by it exactly when it is theirs |
| `MockService.StatusUpdateAsPatch` | services/mockService.ts:83-85 | with unique ids, setting the status of the first match equals patching every application with that id, which is how the NGO dashboard patches its local copy |
| `MockService.ViewAfterStatusPatch` | components/NGODashboard.tsx:77-80 | a status patch adds no application to and removes none from a filtered view; it patches the view in place |
| `MockService.AppendToChannel` | services/mockService.ts:113-115 | the channel becomes its old log (empty if absent) plus the message; the set of channels gains at most this one; every other channel is unchanged |
| `MockService.WelcomeMessage` | services/mockService.ts:107 | the opening message is a system message with id "1", dated before the current time |
| `MockService.JoinMessage` | services/mockService.ts:88-95 | the join message is a system message stamped with the current time; its id is a digit string that reads back as the clock value; its text is the volunteer's name followed by " has joined the operation.", so equal texts mean equal names |
| `MockService.DecimalString` | services/mockService.ts:89 | a clock reading renders as a non-empty string of decimal digits with no leading zero |
| `MockService.DecimalRoundTrip` | services/mockService.ts:89 | reading the rendered id back gives the clock reading, so different readings give different ids |
| `Seqs.Filter` | services/mockService.ts:75 | `filter` returns an in-order subsequence of its input, no longer than it, whose every element satisfies the predicate |
| `Seqs.FilterMultiplicity` | services/mockService.ts:75 | `filter` keeps an element iff it is in the input and satisfies the predicate, and keeps it exactly as often as it occurs there |
| `Seqs.FilterUnique` | services/mockService.ts:79 | the contract of `Filter` determines its result, so the query contracts above pin their results down |
| `Seqs.FilterAppend` | services/mockService.ts:67 | filtering a list with an element appended is the old filtered list followed by the filtered element |

## Left out

- `User` and `UserRole` (types.ts:1-21): the store never stores or reads users.
- Promises: every operation is modelled as synchronous, because the source resolves each one immediately.
- Aliasing: the model works on values. In the source, `getEvents` and `getChatMessages` return the store's live arrays. A later `createEvent` or `sendMessage` therefore also changes an array a caller already holds. Likewise, `updateApplicationStatus` mutates the application object the caller passed to `applyToEvent`. The model does not capture this sharing.
- Chat logs are keyed by a plain JavaScript object. Keys inherited from its prototype, such as `"constructor"`, are not modelled. Event ids in the application are `e1`-style or clock-derived strings.
- Floating point: coordinates and certificate hours are `real` and never computed with. Timestamps are integers in milliseconds.
- `MockService.DecimalString`: does not model the exponent notation that `Number.prototype.toString` uses for clock values of 10^21 and above, because clock readings in milliseconds stay far below that.
- The screens, the map, the chat panel's polling, event creation's random coordinates and the text-generation helper: these are presentation, a foreign library, timing or an external service, not the store.
