# Report log: the App component's state machine

This project models the client-side logic of a small expense-report web app. Users sign in against a hosted authentication service and log dated amounts with a description. An administrator (the fixed address `admin@example.com`) sees everyone's reports. A regular user sees only their own.

The code being modelled is the single React component `App` in `src/App.jsx`. Its state has six fields:
- `session` and `user`;
- the local `reports` list, a cache of table rows;
- the `form` object;
- `editing`, the row being edited;
- `alert`, a kind and a message.

Each handler is one atomic transition of that state. Every backend call the handler awaits is an input to it: a reply that is either `Ok(data)` or `Failed(message)`.

Files, one module each:
- `js.dfy` (`Js`): JavaScript values as the component sees them (`undefined`, `null`, strings, numbers), their truthiness, the `||` operator, and a nullable `Option`.
- `reports.dfy` (`Reports`): the entities, plus the pure helpers:
  - the insert payload and the update patch;
  - the admin e-mail test and the choice of query;
  - the owner-only edit/delete affordance and the owner-e-mail label;
  - the prepend and the filter-by-id list updates, with their order and round-trip lemmas.
- `transitions.dfy` (`Transitions`): the state as a value. It has one step function per handler, whose `ensures` state the handler's observable behaviour. A step returns the new state, the backend request sent (if any) and whether a new list fetch was triggered. It also covers traces of handler invocations (`Run`) and the invariants that hold over any trace.
- `app.dfy` (`AppComponent`): the component as a class. The fields are updated one setter after another, as in the source. Every method is proved to produce exactly the step function's new state and request.

Design decisions:
- The form is a `map<string, Value>`, because `handleChange` writes whatever field name the input carries.
- `amount` is kept as the raw value (`form.amount || 0`). It is never parsed to a number.
- Date conversions are opaque strings handed in by the caller:
  - `new Date(form.report_at).toISOString()`;
  - `new Date().toISOString()`;
  - `dayjs(item.report_at).format(...)`.
- The `confirm()` dialog is a boolean input of `remove`.
- The component as a whole (`Step`, `Run` and the class `App`) follows the listener as written (`AuthChangeStepAsWritten`). The intended listener is `AuthChangeStep`, with its own properties and a lemma showing where the two differ.
- The fixed Persian alert texts are symbolic `Message` constructors:
  - `SignInFirst`: "sign in first";
  - `AccountCreated`: "account created, confirmation mail sent if enabled";
  - `SignedIn`, `SignedOut`, `Updated` and `Inserted`;
  - `Deleted`.
- A fetch triggered by a step is reported as `refetch` and runs as its own `FetchStep`. The source reaches a fetch in two places:
  - `createOrUpdate` after a success;
  - the effect on `[user]`, which fires whenever `user` is set to a present user.
  
  The listener's own `fetchReports()` call (line 32) is never reached as written; see Findings.
- The auth listener receives the session itself, or null, as the library passes it. The body reads `.session` of that argument, which is `undefined` for a session object; the model writes that `undefined` as `None`, like null.

Behaviour of the code that a reader might expect to be otherwise (the model follows the code):
- `signOut` sets `session` and `user` to null and sets the alert. It leaves `reports`, `form` and `editing` as they were. The signed-out listener event does not clear `reports` either, because the listener as written throws on a null session.
- The listener as written treats a present session as a sign-out: `user` becomes null and the list is emptied (see Findings).
- The edit/delete affordance is shown only to the row's owner. Admin status gives no mutate affordance.
- `amount` is not coerced to a number. `"abc"` is sent as `"abc"`, and only a falsy amount becomes `0`.
- A successful update does not change the local list itself. The list is refreshed only by the fetch it triggers.
- Sorting by `created_at` and filtering by `user_id` are done by the backend. The model records only which query was chosen and that a successful fetch makes the list `data ?? []`.

## Model

| member | source | states |
|---|---|---|
| Js.Truthy | src/App.jsx:107-109 | exactly `undefined`, `null`, `''` and `0` are falsy, as the tests at lines 107-109 and 211 use them |
| Js.Or | src/App.jsx:108-109 | the logical-or returns the value itself when it is truthy and the fallback otherwise, so the result is truthy exactly when one of them is |
| Reports.BuildPayload | src/App.jsx:105-110 | the owner is always the current user's id; `report_at` is the form's instant unless that field is falsy, in which case it is "now"; amount and description keep truthy form values, otherwise they are `0` and `''` |
| Reports.PayloadIgnoresOtherFields | src/App.jsx:105-110 | writing any other form field, `user_id` included, leaves the payload unchanged |
| Reports.IsAdmin | src/App.jsx:73 | the admin test is plain equality of the user's e-mail with `admin@example.com`; no role or flag is consulted |
| Reports.QueryFor | src/App.jsx:73-89 | the all-rows query is chosen iff the user is the admin; otherwise the query is filtered by the user's own id |
| Reports.AdminIsEmailOnly | src/App.jsx:73 | two users with the same e-mail get the same admin verdict and the same query kind, whatever their ids |
| Reports.CanMutate | src/App.jsx:219 | edit/delete is shown iff a user is present and owns the row; its meaning is stated by `NoUserNoMutateRight`, `MutateRightIsOwnership` and `EditOfGatedRowUpdatesOwnRow` |
| Reports.NoUserNoMutateRight | src/App.jsx:219 | with no user no row shows edit/delete |
| Reports.MutateRightIsOwnership | src/App.jsx:219 | for a signed-in user edit/delete is shown iff the row's owner is the user's id; the e-mail (and so admin status) plays no part |
| Reports.AdminGetsNoMutateRight | src/App.jsx:219 | the admin is offered no edit/delete on a row owned by someone else |
| Reports.ShowsOwnerEmail | src/App.jsx:211 | the owner e-mail label is shown only to the admin and only for a row with a truthy joined e-mail; with no user it is false |
| Reports.ShowsOwnerEmailAsWritten | src/App.jsx:211 | the label as written is defined only when a user is present, and there it agrees with `ShowsOwnerEmail` |
| Reports.Prepend | src/App.jsx:131 | the new list has the inserted row at its head and exactly the previous list as its tail |
| Reports.Without | src/App.jsx:150 | the filtered list is never longer; a row is in it iff it was in the list and its id differs from the deleted id; every other row keeps exactly its number of copies and rows with that id keep none |
| Reports.WithoutKeepsOrder | src/App.jsx:150 | the remaining rows keep their relative order (the result is a subsequence of the old list) |
| Reports.WithoutAbsentId | src/App.jsx:150 | deleting an id that no row carries leaves the list exactly as it was |
| Reports.InsertThenDelete | src/App.jsx:131-150 | prepending a row with a fresh id and then filtering that id out gives back the previous list |
| Transitions.UserOf | src/App.jsx:26 | `session?.user ?? null` is present iff the session is, and it is then the session's user |
| Transitions.RestoreStep | src/App.jsx:24-27 | the restored session sets `session` and `user` and nothing else; a present user triggers a fetch |
| Transitions.AuthChangeStepAsWritten | src/App.jsx:29-34 | as written: a present session leaves `session` and `user` null, empties the list and triggers no fetch; a null session throws before any setter, so nothing changes |
| Transitions.AuthChangeStep | src/App.jsx:29-34 | the intended listener: session and user follow the event; a null session sets `user` to null and clears `reports`; a present session keeps the list and asks for a fetch |
| Transitions.ListenerAsWrittenInvertsIntended | src/App.jsx:29-34 | on a signed-in state the two listeners disagree for both kinds of event: as written a new session drops the user and the list, and a null session keeps them |
| Transitions.SignUpStep | src/App.jsx:42-48 | only the alert changes; it is an error alert iff the backend failed |
| Transitions.SignInStep | src/App.jsx:50-58 | on an error only the alert changes; on success session and user become the returned ones and the alert is a success |
| Transitions.SignOutStep | src/App.jsx:60-65 | whatever the resolved reply, `session` and `user` end null and only the alert also changes |
| Transitions.SignOutIdempotent | src/App.jsx:60-65 | signing out twice ends in the same state as signing out once, and the resolved reply makes no difference |
| Transitions.FetchStep | src/App.jsx:67-95 | with no user nothing changes and nothing is sent; otherwise the admin-dependent query is sent; an error keeps the list and sets an error alert; success makes the list `data ?? []` |
| Transitions.SubmitStep | src/App.jsx:102-136 | with no user only an error alert is set. Otherwise an insert carries the current user's id, and an update targets the edited row's id with the payload's columns. On an error only the alert changes, so `editing` stays set after a failed update. A successful update clears `editing` and the form. A successful insert prepends the returned row and clears the form. |
| Transitions.RemoveStep | src/App.jsx:144-152 | an unconfirmed dialog changes nothing. Otherwise a delete by id is sent. An error only sets the alert. On success the list is exactly `Without(list, id)`: no row keeps the id, every other row stays with its number of copies. The list never grows and keeps its order. |
| Transitions.ChangeStep | src/App.jsx:98-100 | only the named form field changes, and it now holds the new value |
| Transitions.StartEditStep | src/App.jsx:138-142 | the row becomes the edited one; the form holds exactly its three columns, with `report_at` in input format |
| Transitions.CancelStep | src/App.jsx:190 | no row is being edited and the form is the empty triple |
| Transitions.Step | src/App.jsx:15-21 | every transition keeps the form complete, and puts into the list only rows that were already in it or came in a reply |
| Transitions.CacheHoldsOnlyDeliveredRows | src/App.jsx:17 | after any sequence of handlers, every listed row was there at the start or was returned by a fetch or an insert the component actually sent (a reply to a call a step does not make delivers nothing) |
| Transitions.FormStaysComplete | src/App.jsx:19 | after any sequence of handlers, the form still holds `report_at`, `amount` and `description` |
| Transitions.EditOfGatedRowUpdatesOwnRow | src/App.jsx:219-221 | a row whose edit button is shown is the user's own, and editing then submitting it sends an update of exactly that row's id with the row's amount and description (falsy ones normalised) and the edited instant |
| Transitions.InsertThenRemoveRestoresList | src/App.jsx:131-150 | a successful insert of a row with a fresh id and a confirmed, successful delete of it leave the list as before |
| Transitions.ListRenderDefinedAsWritten | src/App.jsx:207-211 | rendering the row list as written is defined only when the list is empty or a user is present |
| Transitions.RenderDefinedIffEveryLabelDefined | src/App.jsx:207-211 | the list rendering is defined iff the precondition of `ShowsOwnerEmailAsWritten` holds for every listed row |
| Transitions.SignOutLeavesRowsWithoutUser | src/App.jsx:60-65 | restore, a fetch of one row, a sign-out with any resolved reply and then the signed-out event: `user` is null while the row is still listed |
| Transitions.RefreshEventDropsUser | src/App.jsx:29-34 | on a restored user whose list was fetched, an event with a present session that no handler causes (a token refresh) ends with no session, no user and an empty list |
| Transitions.SignInEventOrder | src/App.jsx:29-34 | a successful sign-in and the event for its session: event first, the sign-in's setters leave session and user set, the list empty and a fetch pending; event last, no session, no user and an empty list |
| AppComponent.App.constructor | src/App.jsx:15-21 | the mounted component has no session, no user, no rows, the empty form, no edit and no alert |
| AppComponent.App.RestoreSession | src/App.jsx:24-27 | the fields change exactly as `RestoreStep` says |
| AppComponent.App.OnAuthStateChange | src/App.jsx:29-34 | the fields change exactly as `AuthChangeStepAsWritten` says: a present session leaves no user and no rows, a null one changes nothing |
| AppComponent.App.SignUp | src/App.jsx:42-48 | the fields and the request are exactly those of `SignUpStep` |
| AppComponent.App.SignIn | src/App.jsx:50-58 | the fields and the request are those of `SignInStep`; an error keeps session and user |
| AppComponent.App.SignOut | src/App.jsx:60-65 | the fields are those of `SignOutStep`; session and user are null afterwards |
| AppComponent.App.FetchReports | src/App.jsx:67-95 | the fields and the query are those of `FetchStep`; with no user no field changes |
| AppComponent.App.HandleChange | src/App.jsx:98-100 | the form is the old form with only the named field replaced |
| AppComponent.App.CreateOrUpdate | src/App.jsx:102-136 | the fields, the request and the refetch are those of `SubmitStep`; an insert's owner is the current user |
| AppComponent.App.StartEdit | src/App.jsx:138-142 | the fields are those of `StartEditStep` |
| AppComponent.App.Cancel | src/App.jsx:190 | the fields are those of `CancelStep` |
| AppComponent.App.Remove | src/App.jsx:144-152 | the fields and the request are those of `RemoveStep`; no row appears that was not there before |

## Left out

- Supabase client construction and the `VITE_SUPABASE_*` environment variables (src/App.jsx:10-12): foreign calls.
- What the queries mean (ordering by `created_at`, the `eq('user_id', …)` filter, the owner-e-mail join), and row-level authorisation: all are done by the remote backend. The model records only which query and which request was sent.
- The `loading` flag, and which fetch response arrives last when the listener, the `[user]` effect and `createOrUpdate` start fetches that overlap. These are asynchronous interleavings. Every step here runs to completion before the next one starts.
- Awaited calls that reject instead of resolving with `{ error }`: no handler has a `try`/`catch` (src/App.jsx:42-152), so a rejection ends the handler at that `await` and none of the later setters run. For example, a rejected `signOut()` keeps `session` and `user`. `Reply` models only resolved replies, so every step's contract is stated for a resolved reply.
- React compares `user` by object identity when deciding whether the `[user]` effect runs. The model has no object identity, so it treats every setter call that stores a present user as a change.
- Date handling: `Date`/`toISOString`, `dayjs` formatting and relative time, and `Number(...).toLocaleString()`. The converted strings are inputs. The `RangeError` that `toISOString` throws on an invalid date is not modelled.
- NaN among numeric values: `Value` has no NaN, which JavaScript treats as falsy.
- The browser's `required` validation on the date and amount inputs, which can block a submit before the handler runs. The model admits the empty fields the handler itself handles.
- `e.preventDefault()`, `window.scrollTo`, all JSX rendering and styling, and the `AuthPanel` sign-in/sign-up toggle (src/App.jsx:240-257): UI. The two display predicates at lines 211 and 219 are modelled.
- The `.then` of the mount-time `getSession` call when that promise rejects: then no state changes, and the model has no step for it.
- The auth library's own events run as separate `AuthChanged` steps. The model does not capture that the library calls the listener from inside `signInWithPassword` and `signOut` (and on subscribing), before those calls resolve, nor that the listener's throw on a null session (line 30) can make `signOut()` reject. `SignInEventOrder` states both orders for a sign-in; a rejected `signOut()` is a rejected await, as above.
- The listener's unsubscribe on unmount (src/App.jsx:35): component lifecycle.
- src/main.jsx: React root mounting and service-worker registration.

## Findings

| source | as written | input that shows it | evidently intended | confidence | as-written member | corrected member |
|---|---|---|---|---|---|---|
| src/App.jsx:211 | each listed row's label reads `user.email` with no null check. `signOut` (lines 60-65) sets `user` to null but does not clear `reports`, and the signed-out event does not clear them either, because the listener throws on it. | sign in, fetch a list with one row, then sign out with a `signOut()` call that resolves. `user` is null and the row is still rendered, so `user.email` throws. | guard the label as line 219 guards the buttons (`user && …`), so that it is false with no user | not executed; low (the library calls the listener inside `signOut()`; should the listener's throw make that call reject then the setters at lines 62-64 never run and `user` stays set) | Reports.ShowsOwnerEmailAsWritten, Transitions.SignOutLeavesRowsWithoutUser | Reports.ShowsOwnerEmail |
| src/App.jsx:29-33 | the listener reads `data.session` of its second argument. The auth library passes the session itself (or null) there, not an object with a `session` field. | an event with a present session that no handler causes (a token refresh) makes `user` null and empties the list, with no fetch. A signed-out event (null) throws at line 30 and changes nothing. At a sign-in the outcome depends on when the event arrives. | name the argument `session` and use it directly, so that session and user follow the event, a null session clears the list and a present one fetches | not executed; high | Transitions.AuthChangeStepAsWritten, Transitions.RefreshEventDropsUser, Transitions.SignInEventOrder | Transitions.AuthChangeStep |
