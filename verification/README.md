# ticket-front, modelled in Dafny

ticket-front is the browser front-end of a virtual queue service.

- **Ticket holders** open a queue's page. There they take a numbered ticket, follow their place in the queue live, get called and may cancel.
- **Professionals** log in and manage their queues. They serve the current ticket, mark it absent, call the next one and switch remote booking on or off. They also show a waiting-room display board, read an overview of today's figures, and manage their profile, password and account.

This project models the two shared stores of the application:

- the **session store**, which holds the token and profile, mirrored in `localStorage`;
- the **queue store**, which holds the queue snapshot and the held ticket, the ticket mirrored in `localStorage`.

It also models the event handlers and display logic of the nine pages built on them.

## How the model is organised

Each source file is one module. Modules that model files which change state in place are classes with `modifies` clauses. The pure decisions are functions. Each class method is proved against a function that states its effect. The properties promised by the design are lemmas about those functions.

| module | file | models |
|---|---|---|
| `Wrappers`, `Entities` | `wrappers.dfy`, `entities.dfy` | the data exchanged with the backend: tickets, queue snapshots, profiles, statistics, real-time messages, request outcomes, notifications, navigation |
| `Json`, `Codec` | `json.dfy`, `codec.dfy` | `JSON.stringify`/`JSON.parse` of the persisted profile and ticket, with their round trip |
| `Storage` | `storage.dfy` | `localStorage` as a class over a `map<string, string>` |
| `AuthStore` | `auth_store.dfy` | `src/stores/authStore.ts` |
| `QueueStore` | `queue_store.dfy` | `src/stores/queueStore.ts` |
| `ApiClient` | `api_client.dfy` | how a rejected request becomes a thrown error (`src/api/client.ts`) |
| `QueuePage`, `TicketPage` | `queue_page.dfy`, `ticket_page.dfy` | the ticket holder's pages |
| `QueueDashboardPage`, `DisplayPage`, `DashboardPage`, `QueuesListPage` | the files of the same names | the professional's queue pages |
| `SettingsPage`, `RegisterPage`, `ResetPasswordPage` | the files of the same names | the account pages |

Conventions:

- A request to the backend is an `Outcome<T>` parameter, `Ok(value)` or `Err(failure)`. A handler is therefore one synchronous step that already knows how its awaited calls ended.
- The toast a handler shows is returned as a `Notice`. Where the browser goes is returned as a `Navigation`.
- `Number(...)` and `parseInt(...)` results are `NumberValue` inputs (`NaN` or an integer). Their truthiness (`NaN` and `0` are falsy) is written out.
- JavaScript numbers that are counts or ids are `int`. The fractional figures (rates, durations) are `real`.
- The clock is a parameter in milliseconds.

## Model

| member | source | states |
|---|---|---|
| `Entities.Merge` | src/stores/queueStore.ts:36-39 | `{ ...s, ...d }`: every member present in the delta overwrites, every absent member keeps its old value |
| `Entities.MergeIdempotent` | src/stores/queueStore.ts:36-39 | spreading the same delta twice equals spreading it once |
| `Entities.MergeAssociative` | src/stores/queueStore.ts:36-39 | two deltas spread in turn act as their own merge spread once |
| `Entities.MergeNoFields` | src/pages/client/TicketPage.tsx:49-52 | spreading over `{}` gives the delta; spreading `{}` changes nothing |
| `Entities.MergeKeepsComplete` | src/api/queue.ts:6-16 | a merge never loses a member, so a snapshot with its required members keeps them |
| `Entities.FieldsDetermine` | src/api/queue.ts:6-16 | two snapshots with the same members are equal |
| `Json.DigitsValueOfNatToString` | src/stores/queueStore.ts:29 | the decimal digits written for a number read back as that number |
| `Json.ParseIntOf` | src/stores/queueStore.ts:50 | an integer's JSON text, followed by any non-digit, reads back as that integer and the rest |
| `Json.ParseStringBodyOf` | src/stores/queueStore.ts:50 | an escaped string followed by its closing quote reads back as the string |
| `Json.ParseValueOf` | src/stores/queueStore.ts:50 | every scalar's text reads back as the scalar |
| `Json.ParseMemberOf` | src/stores/queueStore.ts:50 | every `"name":value` member reads back as itself |
| `Json.ParseMembersOf` | src/stores/queueStore.ts:50 | a non-empty member list followed by `}` reads back as the list |
| `Json.Stringify` | src/stores/queueStore.ts:29 | the text of an object starts with `{` |
| `Json.ParseStringify` | src/stores/authStore.ts:37 | `JSON.parse(JSON.stringify(o))` gives back `o` for every flat object |
| `Json.LookupFindsLast` | src/stores/authStore.ts:37 | a member is absent exactly when no member has that name; otherwise it is the last member with that name |
| `Json.LookupUnique` | src/stores/authStore.ts:37 | a member whose name is unique is the one found |
| `Json.LookupAppend` | src/stores/authStore.ts:37 | a member added last hides the earlier members of its name and no other |
| `Codec.PlanOf` | src/api/auth.ts:3 | a plan is read only from its own name |
| `Codec.StatusOf` | src/api/queue.ts:4 | a status is read only from its own name |
| `Codec.StatusOfName` | src/api/queue.ts:4 | every status's name reads back as that status |
| `Codec.SerializeProfessional` | src/stores/authStore.ts:22 | the stored profile text is never empty, so it is truthy when read back |
| `Codec.ProfessionalOfMembers` | src/api/auth.ts:5-10 | a profile's members read back as the profile |
| `Codec.ParseSerializeProfessional` | src/stores/authStore.ts:22 | the profile `setAuth` stores parses back as that profile |
| `Codec.SerializeTicket` | src/stores/queueStore.ts:29 | the stored ticket text is never empty |
| `Codec.TicketMembersLookups` | src/api/queue.ts:34-41 | each member of a ticket's object holds that ticket member, null for an absent optional one |
| `Codec.TicketOfMembers` | src/api/queue.ts:34-41 | a ticket's members read back as the ticket |
| `Codec.ParseSerializeTicket` | src/stores/queueStore.ts:29 | the ticket `setMyTicket` stores parses back as that ticket |
| `Storage.LocalStorage.constructor` | src/stores/authStore.ts:33-34 | storage starts with the given contents |
| `Storage.LocalStorage.GetItem` | src/stores/authStore.ts:33-34 | `getItem` returns the stored value, or nothing for a missing key |
| `Storage.LocalStorage.SetItem` | src/stores/authStore.ts:21-22 | `setItem` stores the value under the key and changes nothing else |
| `Storage.LocalStorage.RemoveItem` | src/stores/authStore.ts:27-28 | `removeItem` deletes exactly that key |
| `AuthStore.AfterSetAuth` | src/stores/authStore.ts:20-24 | logged in with that token and profile; `isInitialized` unchanged; storage holds the token and a profile text that parses back to the profile; other keys untouched |
| `AuthStore.AfterLogout` | src/stores/authStore.ts:26-30 | logged out with neither value; both keys removed; `isInitialized` unchanged; other keys untouched |
| `AuthStore.AfterLoad` | src/stores/authStore.ts:32-62 | always initialised and consistent; a logged-out result holds neither token nor profile; authenticated exactly when both keys are non-empty and the profile parses, then with the stored token and parsed profile; both keys removed exactly when they are present but the profile does not parse |
| `AuthStore.ReloadAfterSetAuth` | src/stores/authStore.ts:20-62 | after logging in, a reload restores the same session exactly when the token is non-empty |
| `AuthStore.ReloadAfterLogout` | src/stores/authStore.ts:26-62 | after logging out, a reload finds no session and leaves storage alone |
| `AuthStore.LoadIdempotent` | src/stores/authStore.ts:32-62 | loading twice gives what loading once gives |
| `AuthStore.AuthStore.constructor` | src/stores/authStore.ts:14-18 | the store starts logged out, not initialised, consistent |
| `AuthStore.AuthStore.SetAuth` | src/stores/authStore.ts:20-24 | the new state and storage are `AfterSetAuth` of the old; the store stays consistent |
| `AuthStore.AuthStore.Logout` | src/stores/authStore.ts:26-30 | the new state and storage are `AfterLogout` of the old |
| `AuthStore.AuthStore.LoadFromStorage` | src/stores/authStore.ts:32-62 | the new state and storage are `AfterLoad` of the old |
| `QueueStore.StoreMyTicket` | src/stores/queueStore.ts:27-34 | the `myTicket` key is present exactly when a ticket is given; it holds non-empty text that parses back to the ticket; other keys untouched |
| `QueueStore.UpdatedInfo` | src/stores/queueStore.ts:36-39 | a held snapshot takes each member present in the delta and keeps the others; no snapshot stays none |
| `QueueStore.UpdatedInfoIdempotent` | src/stores/queueStore.ts:36-39 | the same update applied twice equals applying it once |
| `QueueStore.LoadTicket` | src/stores/queueStore.ts:46-56 | a missing or empty slot gives no ticket and leaves storage alone; otherwise the parsed ticket, and an unparsable slot is removed |
| `QueueStore.LoadAfterStore` | src/stores/queueStore.ts:27-56 | what `setMyTicket` stored, `loadTicketFromStorage` returns, with storage unchanged |
| `QueueStore.LoadTicketIdempotent` | src/stores/queueStore.ts:46-56 | a second load gives the same result as the first |
| `QueueStore.LoadWhenSynced` | src/stores/queueStore.ts:27-56 | while the slot mirrors the held ticket, a load returns the held ticket |
| `QueueStore.QueueStore.constructor` | src/stores/queueStore.ts:19-23 | the store starts with no snapshot, no ticket, nobody served and an empty waiting list |
| `QueueStore.QueueStore.SetQueueInfo` | src/stores/queueStore.ts:25 | replaces the snapshot only |
| `QueueStore.QueueStore.SetMyTicket` | src/stores/queueStore.ts:27-34 | replaces the held ticket only; storage becomes `StoreMyTicket` of the old; the slot then mirrors the held ticket |
| `QueueStore.QueueStore.UpdateFromWs` | src/stores/queueStore.ts:36-39 | replaces the snapshot by `UpdatedInfo` of the old, nothing else |
| `QueueStore.QueueStore.SetCurrentTicket` | src/stores/queueStore.ts:41 | replaces the served ticket only |
| `QueueStore.QueueStore.SetWaitingTickets` | src/stores/queueStore.ts:42 | replaces the waiting list only |
| `QueueStore.LoadTicketFromStorage` | src/stores/queueStore.ts:46-56 | returns the ticket, and leaves storage as `LoadTicket` of the old storage says |
| `ApiClient.RejectionMessage` | src/api/client.ts:30-33 | the thrown message is the body's non-empty `error`, else "Request failed"; never empty |
| `ApiClient.RejectionAsWritten` | src/api/client.ts:30-33 | the thrown value is an `Error` with that message and never carries `upgrade` |
| `ApiClient.Rejection` | src/pages/pro/QueuesListPage.tsx:135-140 | the error carries `upgrade` exactly when the body does (corrected, see Findings) |
| `QueuePage.NewPosition` | src/pages/client/QueuePage.tsx:81-84 | the position is `number - currentNumber` when positive, else 1; never below 1 or below the difference |
| `QueuePage.React` | src/pages/client/QueuePage.tsx:72-107 | only a `queue:update` with a payload yields a delta, and that delta is the payload; a written ticket keeps the held ticket's id, number, queue and estimate; no payload or an unknown kind yields no reaction |
| `QueuePage.QueueUpdateOnTicket` | src/pages/client/QueuePage.tsx:74-88 | `queue:update` never changes a status or a non-waiting ticket; a waiting ticket gets the clamped position exactly when `currentNumber` is truthy |
| `QueuePage.QueueUpdateOnSnapshot` | src/pages/client/QueuePage.tsx:74-75 | `queue:update` applies exactly the store's `updateFromWs` |
| `QueuePage.TicketCalledOnTicket` | src/pages/client/QueuePage.tsx:89-98 | `ticket:called` naming the held ticket makes it current with no position; any other id changes nothing; the snapshot is untouched |
| `QueuePage.TicketCompletedOnTicket` | src/pages/client/QueuePage.tsx:99-104 | `ticket:completed` naming the held ticket makes it completed, position kept; otherwise nothing changes |
| `QueuePage.ReactIdempotent` | src/pages/client/QueuePage.tsx:72-107 | a message delivered twice has the effect of one delivery, on the ticket and on the snapshot |
| `QueuePage.Reconcile` | src/pages/client/QueuePage.tsx:46-60 | a stored ticket of another queue, or none, is ignored; otherwise it is cleared exactly when the lookup fails or reports it finished, and replaced by the server's copy in every other case |
| `QueuePage.Decided` | src/pages/client/QueuePage.tsx:50-58 | the held ticket after the decision: the server's copy, none, or unchanged |
| `QueuePage.ReconcileNeverHoldsFinished` | src/pages/client/QueuePage.tsx:46-60 | after a reconciliation, no completed, no-show or cancelled ticket is held |
| `QueuePage.SectionOf` | src/pages/client/QueuePage.tsx:183-189 | each section is shown exactly when its render condition holds (called, waiting, done, take-a-ticket), so exactly one shows |
| `QueuePage.ScreenOf` | src/pages/client/QueuePage.tsx:159-189 | spinner exactly while loading; "not found" exactly without a snapshot; otherwise the ticket section |
| `QueuePage.QueuePage.constructor` | src/pages/client/QueuePage.tsx:25-29 | the page starts loading, with no queue id and nothing in progress |
| `QueuePage.QueuePage.Load` | src/pages/client/QueuePage.tsx:33-67 | without slug and id nothing changes; a failed lookup shows "File introuvable"; otherwise the snapshot and queue id are set, the stored ticket is loaded and reconciled, storage follows; loading ends |
| `QueuePage.QueuePage.HandleWsMessage` | src/pages/client/QueuePage.tsx:72-107 | the store's snapshot, held ticket and storage become what `React` decides for the held ticket; the slot keeps mirroring the held ticket |
| `QueuePage.QueuePage.HandleTakeTicket` | src/pages/client/QueuePage.tsx:116-134 | a request is sent exactly with a truthy queue id; success holds and stores the new ticket with "Ticket n°N obtenu !"; failure changes nothing; `taking` ends false |
| `QueuePage.QueuePage.HandleCancel` | src/pages/client/QueuePage.tsx:137-151 | sent exactly with a truthy queue id and a held ticket; success drops the ticket and its slot and closes the confirmation; failure keeps all |
| `QueuePage.QueuePage.HandleNewTicket` | src/pages/client/QueuePage.tsx:154-157 | drops the ticket and its slot and closes the confirmation |
| `TicketPage.React` | src/pages/client/TicketPage.tsx:45-77 | as on the queue page for `queue:update`; `ticket:called` is matched against the route's ticket id; nothing else reacts |
| `TicketPage.QueueUpdateWithoutSnapshot` | src/pages/client/TicketPage.tsx:47-52 | a `queue:update` before any snapshot leaves the payload itself as the snapshot |
| `TicketPage.TicketCalledMatchesRoute` | src/pages/client/TicketPage.tsx:65-74 | a held ticket becomes current exactly when the payload names the route's id, whatever the held ticket's own id |
| `TicketPage.TicketCompletedIgnored` | src/pages/client/TicketPage.tsx:45-77 | `ticket:completed` changes nothing on this page |
| `TicketPage.AgreesWithQueuePage` | src/pages/client/TicketPage.tsx:45-77 | with a snapshot held and the route naming the held ticket, `queue:update` and `ticket:called` act as on the queue page |
| `TicketPage.ViewOf` | src/pages/client/TicketPage.tsx:84-165 | spinner while loading; "not found" without a ticket; called card for current; done card for completed or no-show; the number card otherwise, cancelled included |
| `TicketPage.CancelledShowsNumberCard` | src/pages/client/TicketPage.tsx:114-116 | a cancelled ticket, finished on the queue page, gets the number card here |
| `TicketPage.TicketPage.constructor` | src/pages/client/TicketPage.tsx:17-21 | the page keeps the route's numbers and starts loading |
| `TicketPage.TicketPage.Load` | src/pages/client/TicketPage.tsx:25-40 | ticket and snapshot are stored only when both requests succeed; otherwise neither, "Ticket introuvable" and back to the queue; loading ends |
| `TicketPage.TicketPage.HandleWsMessage` | src/pages/client/TicketPage.tsx:45-77 | the store and storage become what `React` decides for the snapshot and held ticket read when the message arrives |
| `TicketPage.TicketPage.NewTicket` | src/pages/client/TicketPage.tsx:232-241 | drops the ticket and its slot and goes back to the queue |
| `QueueDashboardPage.NaNNeverReloads` | src/pages/pro/QueueDashboardPage.tsx:162-169 | a route id that is not a number never matches a message |
| `QueueDashboardPage.AuthRedirect` | src/pages/pro/QueueDashboardPage.tsx:133-137 | the login redirect happens exactly without authentication |
| `QueueDashboardPage.ActionFailure` | src/pages/pro/QueueDashboardPage.tsx:189 | an `Error`'s message, else "Erreur" |
| `QueueDashboardPage.ServedAfter` | src/pages/pro/QueueDashboardPage.tsx:184-185 | an absent `currentTicket` keeps the served ticket; a present one, null included, replaces it |
| `QueueDashboardPage.ControlsOf` | src/pages/pro/QueueDashboardPage.tsx:330-356 | complete and no-show are offered exactly while someone is served, enabled unless an action runs; "call next" otherwise, enabled only with no action running and someone waiting |
| `QueueDashboardPage.CallNextNeedsWaiting` | src/pages/pro/QueueDashboardPage.tsx:354-356 | an enabled "call next" implies a non-empty waiting list and no running action |
| `QueueDashboardPage.ScreenOf` | src/pages/pro/QueueDashboardPage.tsx:220-356 | spinner exactly while loading; "not found" exactly without a queue; otherwise the controls |
| `QueueDashboardPage.QueueDashboardPage.constructor` | src/pages/pro/QueueDashboardPage.tsx:123-131 | the page starts loading with nothing loaded |
| `QueueDashboardPage.QueueDashboardPage.LoadData` | src/pages/pro/QueueDashboardPage.tsx:139-156 | a request is sent exactly for a numeric id; success replaces queue, served ticket and list together; failure keeps them and reports; loading ends |
| `QueueDashboardPage.QueueDashboardPage.HandleWsMessage` | src/pages/pro/QueueDashboardPage.tsx:162-169 | reloads exactly when the payload's `queueId` is the page's id, with `LoadData`'s effect; otherwise nothing changes |
| `QueueDashboardPage.QueueDashboardPage.HandleAction` | src/pages/pro/QueueDashboardPage.tsx:176-198 | sent exactly for a numeric id; success notifies and reloads (on a failed reload the served ticket is `ServedAfter` the result); failure reports `ActionFailure`; `actionLoading` ends false |
| `QueueDashboardPage.QueueDashboardPage.HandleToggleRemoteBooking` | src/pages/pro/QueueDashboardPage.tsx:200-213 | sent exactly for a numeric id; only success sets remote booking to the negation, other queue members unchanged |
| `DisplayPage.CountersOf` | src/pages/pro/DisplayPage.tsx:33-40 | the served number is null exactly without a served ticket or for number 0; next is the first waiting number, null for an empty list; the count is the list's length |
| `DisplayPage.Shown` | src/pages/pro/DisplayPage.tsx:100-110 | the board writes "-" exactly for null and 0 |
| `DisplayPage.ServedZeroShowsDash` | src/pages/pro/DisplayPage.tsx:34 | serving number 0 looks like serving nobody |
| `DisplayPage.DisplayPage.constructor` | src/pages/pro/DisplayPage.tsx:11-15 | empty name, no numbers, no id, count 0 |
| `DisplayPage.DisplayPage.Mount` | src/pages/pro/DisplayPage.tsx:17-46 | without login to the login page, without parameter to the dashboard, neither fetching; otherwise the parsed id is kept and a successful fetch sets name and `CountersOf` |
| `DisplayPage.DisplayPage.HandleWsMessage` | src/pages/pro/DisplayPage.tsx:49-65 | refreshes exactly on `queue:update` or `ticket:called` with a truthy id; success sets `CountersOf`; the name never changes |
| `DashboardPage.Ago` | src/pages/pro/DashboardPage.tsx:32-35 | the text is "il y a ", then digits that read back as the elapsed count, then the unit; so never "à l'instant" |
| `DashboardPage.OneUnitAgo` | src/pages/pro/DashboardPage.tsx:31-34 | "il y a 1 min" and "il y a 1h" are the general wording for a count of one |
| `DashboardPage.TimeAgo` | src/pages/pro/DashboardPage.tsx:27-36 | "à l'instant" exactly below one elapsed minute; one minute; whole minutes up to 59; one hour; whole hours, by elapsed milliseconds |
| `DashboardPage.TimeAgoLeavesJustNow` | src/pages/pro/DashboardPage.tsx:27-36 | once past "à l'instant", a later clock never returns to it |
| `DashboardPage.SumCons` | src/pages/pro/DashboardPage.tsx:110-114 | the reference sum splits off its first element |
| `DashboardPage.ReduceSumIsSum` | src/pages/pro/DashboardPage.tsx:110-114 | the page's left-fold `reduce` computes the sum |
| `DashboardPage.ReduceRatesBounds` | src/pages/pro/DashboardPage.tsx:118 | folding percentage rates adds between 0 and 100 per queue |
| `DashboardPage.Round` | src/pages/pro/DashboardPage.tsx:117 | `Math.round`: the integer within half a unit, halves up |
| `DashboardPage.AggregatesOf` | src/pages/pro/DashboardPage.tsx:109-121 | the queue count, the sums of today's and waiting tickets, and the mean no-show rate rounded half up (0 without queues) |
| `DashboardPage.AvgNoShowRateIsPercentage` | src/pages/pro/DashboardPage.tsx:115-121 | with percentage rates, the average is between 0 and 100 |
| `DashboardPage.TotalZeroIffNoTickets` | src/pages/pro/DashboardPage.tsx:110-113 | with non-negative counts, today's total is non-negative and is 0 exactly when no queue had a ticket today |
| `DashboardPage.ChartOf` | src/pages/pro/DashboardPage.tsx:202 | "Aucun ticket aujourd'hui" exactly when today's total is 0 |
| `DashboardPage.Slice` | src/pages/pro/DashboardPage.tsx:281 | `slice(0, n)`: the first `min(n, length)` queues, in order |
| `DashboardPage.RecentActivityStartsQuickList` | src/pages/pro/DashboardPage.tsx:326 | recent activity (three) is a prefix of the quick list (five) |
| `QueuesListPage.TrimStart` | src/pages/pro/QueuesListPage.tsx:128 | empty exactly for a blank string; otherwise starts with non-white space; a suffix of the input |
| `QueuesListPage.TrimEnd` | src/pages/pro/QueuesListPage.tsx:128 | empty exactly for a blank string; a prefix of the input |
| `QueuesListPage.Trim` | src/pages/pro/QueuesListPage.tsx:128 | `trim()` is empty exactly when the name is blank |
| `QueuesListPage.CreateFailureMessage` | src/pages/pro/QueuesListPage.tsx:135-140 | the upgrade hint exactly for an error carrying `upgrade`, else "Erreur de création" |
| `QueuesListPage.QueuesListPage.constructor` | src/pages/pro/QueuesListPage.tsx:98-101 | loading, no queues, input hidden and empty |
| `QueuesListPage.QueuesListPage.LoadQueues` | src/pages/pro/QueuesListPage.tsx:109-119 | success replaces the list; failure reports; loading ends |
| `QueuesListPage.QueuesListPage.Mount` | src/pages/pro/QueuesListPage.tsx:103-125 | without login to the login page and nothing loaded; with login the list is loaded: success replaces it silently, failure keeps it and reports "Erreur de chargement des files d'attente."; loading ends false |
| `QueuesListPage.QueuesListPage.ToggleNewQueueInput` | src/pages/pro/QueuesListPage.tsx:157 | flips the input's visibility only |
| `QueuesListPage.QueuesListPage.HandleCreateQueue` | src/pages/pro/QueuesListPage.tsx:127-142 | sent exactly for a non-blank name, untrimmed; success clears and hides the input and reloads; failure keeps the form and reports `CreateFailureMessage` |
| `QueuesListPage.UpgradeHintUnreachableAsWritten` | src/pages/pro/QueuesListPage.tsx:135-140 | with the client as written, no error body ever leads to the upgrade hint |
| `QueuesListPage.UpgradeHintWithRejection` | src/pages/pro/QueuesListPage.tsx:135-140 | with the flag carried over, the hint shows exactly for a body asking for an upgrade |
| `QueuesListPage.UpgradeBodyExample` | src/api/client.ts:30-33 | the body `{"error":"Limite atteinte","upgrade":true}` gives "Erreur de création" as written and the hint when corrected |
| `SettingsPage.SettingsPage.constructor` | src/pages/pro/SettingsPage.tsx:16-29 | the profile form starts from the logged-in profile (empty without one); everything else empty or off |
| `SettingsPage.SettingsPage.HandleUpdateProfile` | src/pages/pro/SettingsPage.tsx:31-43 | sends the name and e-mail; success hands the returned profile to `updateProfessional`; failure reports; `savingProfile` ends false |
| `SettingsPage.SettingsPage.HandleChangePassword` | src/pages/pro/SettingsPage.tsx:45-63 | sent exactly when the confirmation matches; success empties the three fields; failure keeps them; a mismatch changes nothing |
| `SettingsPage.SettingsPage.OpenDeleteConfirm` | src/pages/pro/SettingsPage.tsx:191-198 | shows the confirmation; the profile and password forms are unchanged |
| `SettingsPage.SettingsPage.TypeDeleteText` | src/pages/pro/SettingsPage.tsx:205-210 | records the typed text; the profile and password forms are unchanged |
| `SettingsPage.SettingsPage.CancelDelete` | src/pages/pro/SettingsPage.tsx:214-217 | hides the confirmation and forgets the text; the profile and password forms are unchanged |
| `SettingsPage.SettingsPage.HandleDeleteAccount` | src/pages/pro/SettingsPage.tsx:65-77 | success logs out (the session store becomes `AfterLogout`) and goes to the login page with "Compte supprimé"; failure keeps the session and reports the error's message or "Erreur lors de la suppression"; `deleting` ends false; the forms and the confirmation are unchanged |
| `SettingsPage.SettingsPage.ClickConfirmDelete` | src/pages/pro/SettingsPage.tsx:220-225 | a deletion is requested exactly when "SUPPRIMER" is typed as is and none runs; otherwise nothing changes and nothing is shown; a requested deletion ends as `HandleDeleteAccount` does, notice included; the forms are unchanged |
| `RegisterPage.FailureMessage` | src/pages/pro/RegisterPage.tsx:29-31 | an `Error`'s message, else "Erreur lors de l'inscription" |
| `RegisterPage.RegisterPage.constructor` | src/pages/pro/RegisterPage.tsx:13-14 | not loading, empty form |
| `RegisterPage.RegisterPage.HandleSubmit` | src/pages/pro/RegisterPage.tsx:16-35 | sent exactly with a password of at least 6 characters; success logs in (`AfterSetAuth`) and goes to the dashboard; failure keeps the session |
| `ResetPasswordPage.ViewOf` | src/pages/pro/ResetPasswordPage.tsx:35-73 | the invalid-link view exactly without a token; then the success view once done, else the form |
| `ResetPasswordPage.ResetPasswordPage.constructor` | src/pages/pro/ResetPasswordPage.tsx:11-16 | the token is the query value or ""; the form starts empty |
| `ResetPasswordPage.ResetPasswordPage.HandleSubmit` | src/pages/pro/ResetPasswordPage.tsx:18-33 | sent exactly when the confirmation matches, with the page's token; success sets done; failure reports the message or "Lien invalide ou expiré" |

## Left out

- Rendering, styling, icons, QR codes, the fullscreen toggle, `navigator.vibrate`, `console.error`, push-notification permission and subscription. They have no effect on the modelled state.
- The WebSocket hook (connection, reconnection, subscription). A message reaches a page's `HandleWsMessage` as a value.
- The hourly chart data of the overview, its `refreshing` flag, `lastUpdated`, and its periodic reload. `DashboardPage` is modelled only through the figures and lists it computes from the fetched queues.
- `estimatedEndTime` of the queue statistics, and the ticket members the pages never read (`clientIp`, `createdAt`, `calledAt`, `completedAt`).
- `QueueWithStats` extends the queue snapshot in the source. The model nests the snapshot in a `queue` member.
- `updateProfessional` is called by the settings page, but the session store's interface (src/stores/authStore.ts:4-12) does not define it. The model returns the profile handed to it (`handedOver`) and does not change the session.
- TicketPage.React: a `ticket:called` for the route's id with no ticket held spreads `null` into a partial ticket in the source. The model keeps the slot empty in that case, but still shows the notification.
- TicketPage.NextInfo: `queueInfo!` of a missing snapshot spreads nothing, so the snapshot becomes the payload alone. This is modelled. The cast that pretends the result is a full snapshot is not.
- The `queueId` member of a `queue:update` payload is spread into the snapshot in the source. The snapshot type has no such member, so the model does not carry it.
- AuthStore.AfterLoad: the model's session is always consistent (authenticated exactly when a token and a profile are held). The program does not keep this: a stored profile `null`, or any JSON text that is not a profile object, is adopted with `isAuthenticated` true (src/stores/authStore.ts:37-43). The stricter reader below turns such text into a parse failure, so the model logs out where the program stays logged in with no usable profile.
- Codec.ParseProfessional, Codec.ParseTicket: `JSON.parse` accepts any JSON text. The model's reader accepts the compact flat-object text that the writer produces, and rejects everything else. A stored value that is valid JSON but not such an object counts as a parse failure in the model. In the source it would be adopted as is.
- `String.length` counts UTF-16 code units. The model counts characters, which differs only outside the Basic Multilingual Plane.
- The `cancelled` status is compared against by the queue page but missing from the status union in src/api/queue.ts:4. The model includes it.
- Requests run to completion in one step. Two handlers interleaving while a request is pending (for example a real-time message arriving during `load`) is not modelled. Each handler reads the store once, when it starts, as its closure does.
- QueuesListPage.QueuesListPage.HandleCreateQueue: the reload after a creation is not awaited in the source. The model completes it before the handler returns.
- DisplayPage.DisplayPage.HandleWsMessage: a failed refresh is an unhandled promise rejection in the source. The model changes nothing for it.
- The HTTP layer (headers, bearer token, URLs) and the API functions that only forward a request are not part of this model. Their results are the `Outcome` parameters.

## Findings

| source | as written | input that shows it | evidently intended | confidence | as-written member | corrected member |
|---|---|---|---|---|---|---|
| src/api/client.ts:30-33 | a rejected request throws an `Error` whose message is the body's `error` member (or "Request failed"), dropping the body's `upgrade` flag, so the upgrade hint at src/pages/pro/QueuesListPage.tsx:136-137 is never shown | a create-queue response with body `{"error":"Limite atteinte","upgrade":true}` shows "Erreur de création" | the thrown error carries the body's `upgrade` flag, so that body shows "Passez au plan Pro pour créer plus de files" | not executed | `QueuesListPage.UpgradeHintUnreachableAsWritten` | `QueuesListPage.UpgradeHintWithRejection` |
