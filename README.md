# SunCube-AI core logic in Dafny

This project models the decision logic of the SunCube-AI solar-operations app and proves properties of it. The app has a React frontend and a Fastify backend. The model covers:

- **CSV export** (`Csv`): the backend serialiser `toCSV`. It quotes fields by the rules of section 2 of RFC 4180, uses LF line ends and never escapes header names. A quote-aware decoder is its partner, and the round trip is proved.
- **Mock backend** (`MockData`, `Preferences`, `MockApi`): the frontend's in-memory store of tickets, maintenance alerts, invoices, sessions, notifications, payouts, ledger records, preferences and realtime subscribers.
  - `MockData` holds the records and the pure reads and table rewrites.
  - `Preferences` holds the preferences tree and its recursive deep merge.
  - `MockApi.MockStore` is the store as a class whose methods reassign its tables.
- **Dashboard settings** (`Dashboard`): the optimistic update of one dotted preference path, the one-path partial sent to the API, the per-path debounce entries with their revert snapshots, the audit rule for the two billing settings, and the unread-notification count.
- **Authentication** (`AuthService`, `AuthAdapter`, `AppRouter`):
  - the simulated login backend over the seeded demo users, and the demo-credential lookup;
  - the one-slot client auth store with its expiry check;
  - the mount-time redirect guard and the path-to-view router.
- **UI decision logic**:
  - `TicketDrawer`: the ticket drawer's list.
  - `ToggleSwitch`: the switch's click and key rules.
  - `MapCluster`: the cluster map's load-status machine, view mode and zoom transform.
- **Payment routes** (`Payments`): the draft-invoice, invoice-URL and payout-request handlers. The database is modelled as a map of payments, an audit sequence and a job-queue sequence.

Shared modules:
- `Wrappers`: `Option` and `Result`.
- `Text`: `join`/`split` with their round trip, and decimal digits.
- `Seqs`: `filter`, `find`, `findIndex`, `indexOf` and splice-out, over sequences.

State the source changes in place is modelled as classes: `MockStore`, `SettingsPanel`, `AuthStore`, `App`, `Drawer`, `Map` and `PaymentsService`. Their methods state the new state in terms of pure functions of the old one, and the lemmas are proved about those functions.

Clocks, random draws and foreign encoders are parameters:
- `now` and ISO timestamps are passed in;
- the 5% rejection draw of `createTicket` is the `rejected` flag;
- `btoa(JSON.stringify(..))` is the `encode` function;
- the storage URL signer is `sign`;
- an API failure is `apiFails`.

Where the code and its description differ, the model follows the code. In particular, `getTransform` treats an empty active-cluster id as no cluster, because `!activeCluster` is true for `''`.

## Model

| member | source | states |
|---|---|---|
| Csv.EncodeField | suncube-backend/src/services/csv.ts:10-17 | a null/undefined value is written as ""; a value without ',', '"' or LF is written verbatim; any other value is enclosed in double quotes around its quote-escaped text |
| Csv.EscapeQuotes | suncube-backend/src/services/csv.ts:15 | a text without quotes is unchanged; each quote lengthens the text |
| Csv.EscapeQuotesAppend | suncube-backend/src/services/csv.ts:15 | the global replace works character by character: escaping distributes over concatenation |
| Csv.RowCells | suncube-backend/src/services/csv.ts:9-10 | the cells of a record are the row's values in `columns` order, a missing column reading as undefined |
| Csv.ToCsv | suncube-backend/src/services/csv.ts:2-21 | the output always starts with the comma-joined column names; for null or empty data it is exactly that header and one LF |
| Csv.DecodeToCsv | suncube-backend/src/services/csv.ts:7-21 | round trip: with at least one row, at least one column and plain column names, decoding the output gives the column names, then one record per row in input order holding the row's field strings in column order (inner quotes un-doubled, so no trailing LF and no extra record) |
| Csv.HeaderNotEscaped | suncube-backend/src/services/csv.ts:7 | a header name containing ',' is written unquoted and reads back as two column names |
| Csv.EmptyAndBlankRowCollide | suncube-backend/src/services/csv.ts:3-21 | with one column, one all-null row and no rows at all produce the same text |
| Seqs.RemoveFirst | services/mockApi.ts:699-700 | `indexOf` + `splice(i, 1)`: an absent value leaves the list as it is; for a present one exactly its first occurrence is cut out, the rest keeping their order |
| Seqs.RemoveFirstAfterAppend | services/mockApi.ts:697-700 | removing a callback just pushed onto a list that did not hold it restores the list |
| Seqs.RemoveFirstTwice | services/mockApi.ts:698-701 | when the callback was registered at most once, a second unsubscribe changes nothing |
| MockData.OrDefault | services/mockApi.ts:289-292 | `x \|\| fallback` on an optional string: a missing or empty value gives the fallback, any other the value |
| MockData.NewTicket | services/mockApi.ts:287-299 | the new ticket has a non-empty title, priority and category (the draft's when non-empty, else 'Untitled Ticket' / 'Medium' / 'General'), id 't' followed by the digits of the clock reading, status 'Open', assignee 'Support Team', the given creation time, and the draft's optional fields |
| MockData.Acknowledged | services/mockApi.ts:366 | same length, only `acknowledged` can change, and it becomes true exactly on alerts with that id |
| MockData.AcknowledgedIdempotent | services/mockApi.ts:366 | acknowledging twice equals acknowledging once |
| MockData.Settled | services/mockApi.ts:637 | invoices with that id get status 'Paid'; every other invoice is unchanged; length unchanged |
| MockData.SettledIdempotent | services/mockApi.ts:637 | settling twice equals settling once |
| MockData.MarkedRead | services/mockApi.ts:343 | every notification is read and otherwise unchanged |
| MockData.WithoutSession | services/mockApi.ts:650 | no session with that id remains, every other session remains, nothing new appears |
| MockData.WithoutSessionAbsent | services/mockApi.ts:650 | deleting an id no session has leaves the list unchanged |
| MockData.WithoutSessionAppend | services/mockApi.ts:650 | removal works piecewise over concatenation, so the remaining sessions keep their order |
| MockData.WithoutSessionIdempotent | services/mockApi.ts:650 | deleting twice equals deleting once |
| MockData.SiteNameFor | services/mockApi.ts:238 | 'S-B' selects 'Sector B', every other site id 'Sector A' |
| MockData.TransactionsForSite | services/mockApi.ts:232-247 | a missing or empty site id returns all payouts; otherwise exactly the payouts of that site's sector |
| MockData.InvoicesForSite | services/mockApi.ts:249-259 | a missing or empty site id returns all invoices; otherwise exactly the invoices of that site |
| MockData.Settlement | services/mockApi.ts:262-270 | the first payout with the id is returned when one exists, else the first payout; nothing only when there are no payouts |
| MockData.VerifyLedger | services/mockApi.ts:571-592 | verified iff the first record with that txId exists and is verified; then confirmations and block height are that first record's, with 0 replaced by 10 / 180000; otherwise both are 0 |
| MockData.SeedLedgerChecks | services/mockApi.ts:122-139 | on the seeded ledger a confirmed transaction reports 128 confirmations at block 18452301; the pending and unknown ones are unverified |
| Preferences.Merge | services/mockApi.ts:316-325 | a completed merge has the union of keys; keys absent from the partial keep their value; primitive or new keys of the partial are copied |
| Preferences.MergeChild | services/mockApi.ts:318-320 | a primitive or a new key is copied; only an object over an existing key can throw |
| Preferences.MergeDefined | services/mockApi.ts:316-325 | the merge throws (the `in` test on a stored primitive) exactly when an object of the partial holding an object lands on a stored primitive |
| Preferences.MergeOverwrites | services/mockApi.ts:316-325 | every leaf of the partial is at its path in the merged tree |
| Preferences.MergeKeeps | services/mockApi.ts:316-325 | every path that leaves the partial reads the same node before and after the merge |
| Preferences.SeedPreferences | services/mockApi.ts:36-67 | the seeded billing settings are autoSettleSmallPayouts true and consolidatedMonthlyInvoice false |
| MockApi.MockStore.constructor | services/mockApi.ts:15-139 | the store starts with the seeded tables and no subscribers |
| MockApi.MockStore.CreateTicket | services/mockApi.ts:280-304 | on the 5% draw it fails with 'Network Error' and changes nothing; otherwise it returns the new ticket and the tickets become that ticket followed by the old list, all else unchanged |
| MockApi.MockStore.AcknowledgeAlert | services/mockApi.ts:363-370 | resolves true; only the alert table changes, to `Acknowledged` of the old one |
| MockApi.MockStore.AdminSettleInvoice | services/mockApi.ts:635-640 | resolves true; only the invoice table changes, to `Settled` of the old one |
| MockApi.MockStore.DeleteUserSession | services/mockApi.ts:648-653 | only the session table changes, to `WithoutSession` of the old one |
| MockApi.MockStore.MarkNotificationsRead | services/mockApi.ts:342-344 | only the notifications change, all to read |
| MockApi.MockStore.UpdateUserPreferences | services/mockApi.ts:312-329 | resolves iff the partial is compatible; then the stored preferences are the merge result and are returned; a throwing merge never resolves and changes nothing |
| MockApi.MockStore.Subscribe | services/mockApi.ts:696-697 | the callback is appended to the registry |
| MockApi.MockStore.Unsubscribe | services/mockApi.ts:698-701 | the first occurrence of the callback is spliced out; an absent callback is a no-op |
| Seqs.RemoveFirstAfterAppendMultiset | services/mockApi.ts:697-700 | appending a value and then splicing out its first occurrence keeps the same multiset of values, whether or not it was present before |
| MockApi.SubscribeThenUnsubscribe | services/mockApi.ts:696-702 | a subscribe followed by its unsubscribe keeps every callback registered the same number of times, also when the callback was already registered; nothing else in the store changes |
| MockApi.SubscribeThenUnsubscribeTwice | services/mockApi.ts:696-702 | subscribing a new callback, then unsubscribing it twice, restores the store |
| Dashboard.SetAt | components/Dashboard.tsx:282-286 | a completed optimistic update puts the new value as a leaf at the dotted path |
| Dashboard.SetAtDefined | components/Dashboard.tsx:283-286 | the walk throws exactly when some step before the last key is not an object |
| Dashboard.SetAtElsewhere | components/Dashboard.tsx:283-288 | every path neither a prefix nor an extension of the dotted path reads the same node after the update |
| Dashboard.SetAtLeaves | components/Dashboard.tsx:283-288 | every leaf not at or below the path keeps its value, and every leaf of the new tree away from the path was there before |
| Dashboard.Chain | components/Dashboard.tsx:298-304 | the partial is an object whose only key is the first path segment |
| Dashboard.ChainLeaf | components/Dashboard.tsx:298-304 | the partial holds exactly one leaf, the new value, at exactly the dotted path |
| Dashboard.MergeChainIsSetAt | components/Dashboard.tsx:298-306 | merging the partial into the same stored tree gives the optimistic local tree |
| Dashboard.UnreadCount | components/Dashboard.tsx:371 | the count is the number of notifications with `read == false`, and zero iff all are read |
| Dashboard.UnreadCountAppend | components/Dashboard.tsx:371 | the count adds up over concatenated lists |
| Dashboard.MarkedReadUnread | components/Dashboard.tsx:371 | after marking all notifications read the count is zero |
| Dashboard.AuditUserId | components/Dashboard.tsx:311 | the audit user id is the current user's id when non-empty, else 'unknown' |
| Dashboard.SettingsPanel.constructor | components/Dashboard.tsx:211-223 | no preferences, no pending saves, no audit events |
| Dashboard.SettingsPanel.Load | components/Dashboard.tsx:255-258 | the fetched preferences are installed |
| Dashboard.SettingsPanel.HandlePrefChange | components/Dashboard.tsx:276-295 | no preferences: nothing changes; a throwing walk: nothing changes; otherwise the local tree becomes `SetAt` of the old one and the path's pending entry is replaced by one holding the keys, the value and the old tree; every entry's keys are its path split on '.' |
| Dashboard.SettingsPanel.FlushPending | components/Dashboard.tsx:295-323 | on save failure the tree reverts to the snapshot; otherwise the store merges the one-path partial and no other table of the store changes; an audit event is appended iff the save completed and the path is one of the two billing settings; a settled callback deletes its entry, a hung one keeps it |
| Dashboard.ChangeThenSave | components/Dashboard.tsx:276-323 | starting from a store that holds the panel's tree, a scheduled change followed by its save leaves the store holding the panel's new tree, with the entry deleted |
| AuthService.Redirect | src/services/authService.ts:83-85 | '/technician-dashboard' for Technician, '/admin-dashboard' for Admin, '/customer-dashboard' otherwise |
| AuthService.MockBackendLogin | src/services/authService.ts:51-94 | fails with 'Invalid credentials' iff no seeded user has the email or the first such user's password differs; on success the user is that first match, the role and redirect are the requested role's, the token is built from that user and role, and the expiry is one hour after issue |
| AuthService.TokenParts | src/services/authService.ts:74-77 | with an encoder that never emits '.', the token splits into header, payload and the literal 'dummy_signature_hash' |
| AuthService.SeededUserLogsIn | src/services/authService.ts:54-58 | every seeded user's own email and password log in, as that user (the seeded emails are distinct) |
| AuthService.GetDemoCredentials | src/services/authService.ts:96-99 | the first seeded user with that role gives its email and password; an unknown role gives two empty strings |
| AuthService.DemoCredentialsLogIn | src/services/authService.ts:96-98 | the demo credentials of a role log in iff the role is Customer, Technician or Admin, as the seeded user of that role |
| AuthAdapter.AuthStore.constructor | src/lib/authAdapter.ts:20 | the slot holds what the browser storage held |
| AuthAdapter.AuthStore.GetAuth | src/lib/authAdapter.ts:18-27 | none when nothing is stored or the stored text does not parse; otherwise the stored state |
| AuthAdapter.AuthStore.GetToken | src/lib/authAdapter.ts:29-32 | absent exactly when `GetAuth` is; otherwise the state's token |
| AuthAdapter.AuthStore.GetRole | src/lib/authAdapter.ts:34-37 | absent exactly when `GetAuth` is; otherwise the state's role |
| AuthAdapter.AuthStore.IsAuthenticated | src/lib/authAdapter.ts:47-54 | holds iff a state is readable and now is strictly before its expiry; false at the exact expiry |
| AuthAdapter.AuthStore.SetAuth | src/lib/authAdapter.ts:39-41 | afterwards the state, its token and its role read back |
| AuthAdapter.AuthStore.ClearAuth | src/lib/authAdapter.ts:43-45 | afterwards state, token and role are absent and no clock reading is authenticated |
| AuthAdapter.ExpiryIsFinal | src/lib/authAdapter.ts:47-54 | once not authenticated, no later clock reading is authenticated |
| AppRouter.DashboardPath | src/App.tsx:22-32 | Technician and Admin roles get their dashboards, every other role (or none) the customer dashboard |
| AppRouter.GuardTarget | src/App.tsx:20-41 | on '/' or '' redirect by role when authenticated and to '/login' otherwise; on other paths redirect to '/login' iff unauthenticated and not already there; never redirect to the root |
| AppRouter.Route | src/App.tsx:47-64 | the four known paths render their screen whatever the authentication or role; any other path renders the dashboard iff authenticated, else the login screen |
| AppRouter.GuardIdempotent | src/App.tsx:20-41 | the guard never redirects its own target |
| AppRouter.UnauthenticatedSeesLogin | src/App.tsx:33-48 | after the guard an unauthenticated user always sees the login screen |
| AppRouter.RootLandsOnRoleScreen | src/App.tsx:20-61 | from the root an authenticated user lands on the screen of their role |
| AppRouter.App.constructor | src/App.tsx:10 | the current path starts as the location |
| AppRouter.App.InitialGuard | src/App.tsx:12-41 | location and current path become the guard's result; an unauthenticated user then renders the login screen; an authenticated user off the root is not moved |
| AppRouter.App.PopState | src/App.tsx:13-14 | browser navigation sets the current path without re-running the guard |
| TicketDrawer.DrawerList | components/TicketDrawer.tsx:25 | without a new ticket the list is the fetched data; with one it comes first, no other element has its id, every other element is fetched, and every fetched ticket with a different id is kept |
| TicketDrawer.DrawerListRest | components/TicketDrawer.tsx:25 | the kept fetched tickets are a subsequence of the data, and the length is 1 plus the number of fetched tickets with a different id |
| TicketDrawer.DrawerListIdempotent | components/TicketDrawer.tsx:25 | re-inserting the same new ticket into the result changes nothing |
| TicketDrawer.Drawer.constructor | components/TicketDrawer.tsx:18-19 | no tickets and not loading |
| TicketDrawer.Drawer.Open | components/TicketDrawer.tsx:22-23 | loading while the fetch runs |
| TicketDrawer.Drawer.Fetched | components/TicketDrawer.tsx:24-27 | the list is `DrawerList` of the data and loading is over |
| ToggleSwitch.OnClick | components/ToggleSwitch.tsx:45 | a click calls `onChange(!checked)` iff enabled |
| ToggleSwitch.OnKeyDown | components/ToggleSwitch.tsx:22-28 | a key calls `onChange(!checked)` iff enabled and the key is Enter or Space |
| ToggleSwitch.AriaChecked | components/ToggleSwitch.tsx:40 | `aria-checked` is "true" iff checked |
| ToggleSwitch.KeyCallsCount | components/ToggleSwitch.tsx:22-28 | a run of key presses calls `onChange` once per Enter or Space when enabled, never when disabled, always with `!checked` |
| ToggleSwitch.EnterThenSpace | tests/unit/ToggleSwitch.test.tsx:30-41 | Enter then Space on an enabled unchecked switch calls `onChange(true)` twice |
| MapCluster.TransformFor | components/MapCluster.tsx:81-94 | the identity unless in markers mode with a non-empty active id that some cluster has; then the first such cluster is centred with offsets (50-x)*3, (50-y)*3 and scale 3 |
| MapCluster.Map.constructor | components/MapCluster.tsx:16-22 | cluster mode, no active cluster, no clusters, status idle, no error |
| MapCluster.Map.StartLoad | components/MapCluster.tsx:25-26 | status loading and the error cleared, nothing else changed |
| MapCluster.Map.FinishLoad | components/MapCluster.tsx:27-40 | no or empty data: empty with no clusters; data: ready with exactly that data; failure: error with the retry message and the clusters kept |
| MapCluster.Map.LoadData | components/MapCluster.tsx:24-41 | a fetch with non-empty data ends ready holding exactly that data; null or empty data ends empty with no clusters; both clear the error; a failure ends in error with the retry message and the clusters kept |
| MapCluster.Map.HandleClusterClick | components/MapCluster.tsx:60-62 | markers mode with that cluster active |
| MapCluster.Map.ResetView | components/MapCluster.tsx:76-79 | cluster mode, no active cluster, identity transform |
| MapCluster.Map.SubPointsShown | components/MapCluster.tsx:191 | sub-points render only for the active cluster in markers mode, and then all of them |
| MapCluster.ClickThenReset | components/MapCluster.tsx:60-79 | a click on a loaded cluster followed by a reset returns to the overview with the identity transform |
| Payments.DraftIdFor | suncube-backend/src/routes/payments.ts:42 | 'DRAFT-' followed by the digits of the clock reading |
| Payments.InvoicePathParts | suncube-backend/src/routes/payments.ts:43 | for a customer id without '/', the path splits into 'invoices', the customer id and the draft's '.pdf' file name |
| Payments.PaymentsService.GenerateInvoice | suncube-backend/src/routes/payments.ts:34-66 | an unknown payment is a 404 with nothing changed; otherwise only that payment changes (draft id, invoice path, status 'Draft'), one audit row and one 'generate_pdf' job are appended, and the reply repeats the written draft id and path |
| Payments.PaymentsService.InvoiceUrl | suncube-backend/src/routes/payments.ts:69-78 | 404 iff the payment is missing or has no invoice path; otherwise the signed URL of the path |
| Payments.PaymentsService.RequestPayout | suncube-backend/src/routes/payments.ts:81-95 | 403 with no audit row unless the role is admin or customer; otherwise one REQUEST_PAYOUT row and status 'queued' |
| Payments.GenerateThenFetch | suncube-backend/src/routes/payments.ts:46-73 | after a draft is generated, the invoice URL of that payment is served for the new path |
| Payments.GenerateTwice | suncube-backend/src/routes/payments.ts:46-58 | generating twice queues two jobs and two audit rows and keeps the second draft id |

## Left out

- Timers and latency: the `setTimeout` wrappers of the mock API, the 5-second realtime broadcaster, the 500 ms debounce delay and toast timers are not modelled. Each call is the state change its callback makes, and a pending debounce entry stands for a running timer.
- Interleaving of asynchronous callbacks is not modelled. A caller sequences the methods explicitly, as `LoadData` does with `StartLoad` then `FinishLoad`.
- Randomness and clocks are parameters: the 5% rejection draw, `Date.now()`, ISO timestamps and the random map sub-point coordinates.
- Floating-point money and energy values, and the record fields only the UI displays, are not modelled.
- MapCluster: cluster coordinates are taken as integers (percent of the map). Fractional coordinates, and the fractional offsets they would give, are not modelled.
- MockData.NewTicket: `createdAt` is taken as given; its ISO rendering of the clock is not modelled.
- Preferences.Merge: assumes no partial key names an `Object.prototype` property (`__proto__`, `constructor`, ...), because `key in target` also sees inherited properties.
- Preferences.Merge: a stored string under a partial object holding only primitives is replaced by that object. The character-index keys `Object.assign` would copy from the string are not modelled.
- Preferences.Merge: the mutation of the caller's partial is not modelled, because the model works on values.
- Preferences.Merge: a merge that throws is modelled as changing nothing. A multi-key partial could already have updated earlier sibling subtrees in place. The one-path partials the dashboard sends have no siblings.
- MockApi.MockStore.UpdateUserPreferences: requires the partial to be an object. A primitive partial is not modelled; the dashboard always sends an object.
- Dashboard.SettingsPanel.HandlePrefChange: values are primitive leaves, as the settings controls send. Reading a character out of a stored string during the walk is treated as reaching a primitive.
- Dashboard.SettingsPanel.FlushPending: a failed audit call is not modelled separately. A failed save is the `apiFails` flag; a rejected audit call takes the same revert path in the code.
- AuthService: the branch taken when `DUMMY_ACCEPT_ALL` is true is not modelled; the constant is false, so that code never runs.
- AuthService.MockBackendLogin: the expiry is the issue time plus 3 600 000 ms. `setHours(getHours() + 1)` differs from that across a daylight-saving change, and the ISO rendering is not modelled.
- AuthService: the token encoder `btoa(JSON.stringify(..))` is the `encode` parameter.
- AuthAdapter: `localStorage` is one optional slot, and JSON parsing is either the serialised state or unparseable text. Text that parses to a non-object, and an `expiresAt` that is not a valid date, are not modelled.
- AppRouter: React rendering is reduced to the view chosen, and `history.replaceState` to the `location` field.
- Rendering, GSAP animations, charts and every modal and drawer body are not modelled; they hold no decision logic beyond what is above.
- Payments: the zod body validation (400), the `authenticate` hook (401), the database engine, the S3 signer (the `sign` parameter) and the BullMQ queue (a sequence of jobs) are not modelled.
- Payments.PaymentsService.GenerateInvoice and RequestPayout: `writeAuditLog` swallows insert errors. The model always appends the audit row.
- The route `GET /customers/:customerId/payments` is not modelled; it is a plain query.
- The other backend routes, the serverless stubs, the job worker, the seeded AI/device/site data and the legacy mock endpoints are not modelled; they are constant stubs or query construction.
