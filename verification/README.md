# cardio-logger client: session and sync controller in Dafny

This project models the session/sync controller of the cardio-logger web client
(`js/app.js`). The client logs a user in against the cardio-logger API with an
API key and a user id kept in `localStorage`. It then polls the API every five
seconds for the user's connection status and for their cardio totals of the
current day and week.

The model has two layers.

- **`Session`** (session.dfy) is the controller as a state machine over values.
  `State` holds the credential store, the module-level `user`, `fetchingUpdate`
  and `userUpdateInterval`, the intervals the runtime has armed, and an abstract
  rendered `View`. Every `await` of the client is a step boundary. A transition
  runs the synchronous code up to the next request and returns what is then in
  flight. The response enters the next transition as a `Reply`. A run of
  `updateUserTotals` is a `Cycle` value that the caller holds: `BeginCycle`,
  `ReceiveConnected`, `ReceiveDayTotals`, `ReceiveWeekTotals`, and `EndCycle`
  (the `finally`). So a cycle's steps can interleave with logouts and logins.
- **`Controller.App`** (controller.dfy) is the client as written. It is a class
  whose fields are those variables, with one method per handler that updates
  them in place. Each method is proved to end in exactly the state that the
  matching `Session` transition gives, and to keep the invariant `Session.Inv`:
  a non-null `user` has a usable id, exactly the interval `userUpdateInterval`
  names is armed, the authenticated view shows iff `loggedIn()`, and
  `userUpdateInterval` is set exactly while `user` is.

Supporting modules:

- `Credentials`: `getStoredCredentials` and the `key`/`user` slots.
- `Api`: the credential precondition of `apiCall`, and its rule that a response
  with an `error` field is a failure.
- `Forms`: `arrayToDict` and how the login form's fields are read.
- `Flight`: composes the transitions into interleaved runs of events.

The model follows the code where it differs from the design one might expect.
The lemmas in `Flight` show what that means.

- The `fetchingUpdate` guard gives single flight only between logouts.
  `logOut` forces the flag to false even while a cycle is in flight. So a logout
  followed by a new login starts a second cycle beside the first
  (`Flight.LogOutThenLoginRunsTwoCycles`). Without logouts, single flight holds
  for every interleaving (`Flight.SingleFlightWithoutLogOut`). There, a
  "logout" is a logout click, a login with an empty field, or a failed or
  unusable user fetch; a cycle or a user fetch that finds no key still logs
  out, but only from within the one cycle in flight.
- Nothing discards a stale result. A cycle waiting for its week totals when the
  user logs out still renders them (`Flight.StaleTotalsRenderedAfterLogOut`).
- The fetched user is never compared with the stored user id.
- A logout during a `/users/{id}` request does not prevent a successful response
  from logging the user in with an empty store. The first cycle then finds no
  key and logs out again (`Flight.LogOutDuringUserFetch`).
- `handleLoggedIn` arms the interval before it starts the first cycle.
- `apiCall` without a key runs `logOut` as well as failing.
- A credential holding the empty string reads as absent.
- A form field that is missing or undefined is stored as the string
  `"undefined"`, because `setItem` converts its argument to a string.

Representation choices:

- JavaScript `null` is `Option.None`.
- A string field of a JSON body that is absent or falsy is `""`.
- The response to a request is `Reply<T>`: either `TransportError`, or
  `Response(error, data)`.
- Interval handles are natural numbers handed out by a counter, starting at 1.
- The page is assumed to show the login view before the first transition.

## Model

| member | source | states |
|---|---|---|
| `Credentials.GetStoredCredentials` | js/app.js:85-90 | each slot is null iff it is missing or holds "", and otherwise is the stored string |
| `Credentials.SaveThenGet` | js/app.js:85-90 | after the two `setItem` calls, the credentials read back are the saved strings, with "" read as null |
| `Credentials.ClearedStoreHasNoCredentials` | js/app.js:93 | after `clear()` both credentials are null |
| `Credentials.OnlyCredentialSlotsAreRead` | js/app.js:85-90 | writing or removing any slot other than `key` and `user` leaves the credentials read unchanged |
| `Credentials.Save` | js/app.js:164-165 | the store afterwards has both credential slots, holding the submitted key and user; every other slot keeps its value |
| `Api.Settle` | js/app.js:32-38 | the call resolves with the payload iff the transport succeeded and the body has no `error` field; otherwise it rejects |
| `Api.HasApiKey` | js/app.js:19-23 | `apiCall` goes ahead iff the `key` slot is present and non-empty |
| `Api.ErrorFieldRejects` | js/app.js:34-37 | a body with an `error` field rejects, whatever else it carries |
| `Forms.ArrayToDict` | js/app.js:169-171 | the mapping has no more keys than there are elements |
| `Forms.ArrayToDictKeys` | js/app.js:169-171 | a key is in the result iff some element carries it as a truthy key property; elements with a falsy key are dropped |
| `Forms.ArrayToDictLastWins` | js/app.js:169-171 | each key maps to the value property of the last element that carries it, so a later duplicate overrides an earlier one |
| `Forms.FormField` | js/app.js:164-165 | the submitted field is stored as its value, or as "undefined" when it is missing or undefined |
| `Forms.FormFieldIsLastControl` | js/app.js:173-177 | a submitted field equals the `value` of the last form control with that `name` |
| `Session.TimeZoneOf` | js/app.js:52 | the zone is the user's timezone when it has one, otherwise "UTC", and is never empty |
| `Session.Refresh` | js/app.js:114-125 | hides the logging-in indicator and shows the view that matches `loggedIn()`; nothing else changes |
| `Session.LogOut` | js/app.js:92-101 | empties the store, clears `user`, cancels and drops the interval, clears the guard and shows the login view; the connection panel and totals stay as rendered |
| `Session.Arm` | js/app.js:106-109 | cancels the previous interval, arms a new one under the next unused handle and names it in `userUpdateInterval`; keeps the timer invariant; nothing else changes |
| `Session.HandleLoggedIn` | js/app.js:103-112 | the previous interval is cancelled; unless the guard is set a cycle begins; a cycle left waiting runs under the new interval with the flag set and the authenticated view shown |
| `Session.EndCycle` | js/app.js:56-58 | the guard is released and nothing else changes |
| `Session.BeginCycle` | js/app.js:44-49 | `/connected/{id}` is requested, for the current user id, iff the guard is clear, the session is logged in and a key is stored; a failed start is exactly the logOut state |
| `Session.ReceiveConnected` | js/app.js:49-53 | the day totals are requested iff the status call resolved, `user` is still set and a key is stored, for the current user id and `TimeZoneOf` its zone, with the flag untouched; otherwise the cycle fails |
| `Session.ReceiveDayTotals` | js/app.js:53-54 | the week totals are requested iff the day call resolved, `user` is still set and a key is stored, with the same zone and the day body carried along and the state unchanged; otherwise the cycle fails |
| `Session.ReceiveWeekTotals` | js/app.js:54-58 | the cycle completes iff the week call resolved; either way the flag is released and user, store and interval are untouched |
| `Session.AttemptFetchUser` | js/app.js:142-151 | the stored user id is requested iff both credentials are usable, with the logging-in indicator shown and `user` untouched; otherwise the result is exactly the logOut state |
| `Session.ReceiveUser` | js/app.js:151-161 | a logged-in result always holds the fetched record; a rejected request is exactly the logOut state; a cycle left waiting asks for the fetched user's id |
| `Session.HandleLoginFormSubmit` | js/app.js:163-167 | when a request is made, the credentials read from the store are the submitted key and user; otherwise the store is empty and there is no user |
| `Session.Connect` | js/app.js:80-81 | `/connect/{id}` is requested iff a user is set and a key is stored, for that user's id and with no state change; without a key the result is the logOut state; without a user nothing changes |
| `Session.ReceiveConnectAck` | js/app.js:81-82 | a cycle's first request goes out iff the acknowledgement resolved, the guard is clear, the session is logged in and a key is stored; a rejection changes nothing |
| `Session.InitialInv` | js/app.js:12-15 | the page-load state (no user, no interval, guard clear) satisfies the invariant |
| `Session.LoggedInIffUser` | js/app.js:127-129 | under the invariant, `loggedIn()` holds iff `user` is non-null, and the authenticated view shows iff `user` is non-null |
| `Session.AtMostOneTimer` | js/app.js:106-109 | at most one interval is ever armed |
| `Session.OneTimerIffLoggedIn` | js/app.js:92-112 | under the invariant exactly one interval runs while the session is logged in, and none while it is not: `user` and `userUpdateInterval` are set and cleared together |
| `Session.LogOutKeepsInv` | js/app.js:92-101 | logOut re-establishes the invariant: no user, no armed interval, login view shown |
| `Session.ArmKeepsInv` | js/app.js:104-109 | for a logged-in user, re-rendering and re-arming leaves exactly the new interval armed, under a fresh handle |
| `Session.BeginCycleKeepsInv` | js/app.js:44-49 | the first step of updateUserTotals keeps the invariant |
| `Session.HandleLoggedInKeepsInv` | js/app.js:103-112 | handleLoggedIn on a logged-in user establishes the invariant |
| `Session.ReceiveKeepsInv` | js/app.js:49-58 | each response step of a cycle, and both steps of connect, keep the invariant |
| `Session.FetchUserKeepsInv` | js/app.js:142-167 | attemptFetchUser, its response step and handleLoginFormSubmit keep the invariant |
| `Session.LogOutResets` | js/app.js:92-101 | after logOut: the store is empty, there is no user, no interval, the guard is clear, `loggedIn()` is false, the login view shows, and no timer runs; a second logOut changes nothing |
| `Session.AttemptWithoutCredentials` | js/app.js:143-147 | with either credential missing, no request is made and the state is exactly the logOut state |
| `Session.AttemptWithCredentials` | js/app.js:149-151 | with both credentials stored, `/users/{id}` is requested for the stored id, and only the logging-in indicator changes |
| `Session.ReceiveUserFailure` | js/app.js:151-160 | a rejected fetch, or a fetched user with no usable id, ends in exactly the logOut state, with no cycle |
| `Session.ReceiveUserSuccess` | js/app.js:103-112 | a usable fetched user becomes `user` and the session is logged in. Exactly one fresh interval runs and the previous one is cancelled. A cycle starts unless one is already flagged; if that cycle finds no key it logs out again |
| `Session.SubmitStoresThenAttempts` | js/app.js:163-167 | both submitted fields are stored before attemptFetchUser reads them. The submitted user id is requested iff both fields are non-empty; otherwise the store ends empty |
| `Session.GuardRefuses` | js/app.js:45 | a set flag or a logged-out session makes updateUserTotals a no-op |
| `Session.GuardTaken` | js/app.js:46-49 | past the guard, the flag is set while `/connected/{id}` is in flight. Without a key the call logs out, makes no request and releases the flag |
| `Session.GuardReleased` | js/app.js:56-58 | every step that finishes a cycle releases the flag; a step that still awaits leaves it as it was |
| `Session.TotalsOnlyAfterBothFetches` | js/app.js:49-55 | the connection status is rendered once its call succeeds. The totals change only at the week-totals response, and only when it succeeds, to the day and week bodies |
| `Session.MissingKeyLogsOut` | js/app.js:19-23 | in the middle of a cycle, a call that finds no key logs out and ends the cycle without a request |
| `Flight.StepKeepsSingleFlight` | js/app.js:44-46 | a tick, a response, or a successful login step keeps at most one cycle in flight, with the guard set while one is |
| `Flight.SingleFlightWithoutLogOut` | js/app.js:44-58 | over any interleaving of events other than logout clicks, logins with an empty field and failed or unusable user fetches, at most one cycle is ever in flight |
| `Flight.LogOutThenLoginRunsTwoCycles` | js/app.js:92-101 | tick, logout, login and a successful user fetch leave two cycles in flight at once, because logOut clears the guard |
| `Flight.StaleTotalsRenderedAfterLogOut` | js/app.js:54-55 | a cycle waiting for the week totals still renders them after a logout |
| `Flight.UninterruptedCycle` | js/app.js:44-59 | an uninterrupted cycle releases the guard and renders the connection status iff its call succeeds. It replaces the totals iff all three calls succeed, and leaves user and store alone |
| `Flight.LogOutDuringUserFetch` | js/app.js:142-161 | a logout during the user fetch, followed by a successful response, ends with no user, an empty store, no interval and the guard clear |
| `Controller.App.ClearInterval` | js/app.js:96 | `clearInterval` removes exactly that handle from the armed intervals |
| `Controller.App.SetInterval` | js/app.js:109 | `setInterval` arms one interval under a handle never used before |
| `Controller.App.RefreshLoggedInState` | js/app.js:114-125 | updates the view in place exactly as `Session.Refresh` |
| `Controller.App.constructor` | js/app.js:12-15 | page load: the persisted store, no user, no interval, guard clear; the invariant holds |
| `Controller.App.LogOut` | js/app.js:92-101 | clears the store and user, cancels and drops the interval, clears the guard and re-renders, exactly as `Session.LogOut` |
| `Controller.App.HandleLoggedIn` | js/app.js:103-112 | re-renders, cancels any old interval, arms a new one, then begins a cycle, exactly as `Session.HandleLoggedIn`; establishes the invariant |
| `Controller.App.UpdateUserTotals` | js/app.js:44-49 | the guard, the flag and the keyed `/connected/{id}` request, exactly as `Session.BeginCycle` |
| `Controller.App.ReceiveConnected` | js/app.js:49-53 | renders the status, reads the zone and requests the day totals, exactly as `Session.ReceiveConnected` |
| `Controller.App.ReceiveDayTotals` | js/app.js:53-54 | keeps the day totals and requests the week totals, exactly as `Session.ReceiveDayTotals` |
| `Controller.App.ReceiveWeekTotals` | js/app.js:54-58 | renders both totals on success and always releases the guard, exactly as `Session.ReceiveWeekTotals` |
| `Controller.App.AttemptFetchUser` | js/app.js:142-151 | logs out without both credentials, otherwise requests the stored user id, exactly as `Session.AttemptFetchUser` |
| `Controller.App.ReceiveUser` | js/app.js:151-160 | assigns `user`, then calls handleLoggedIn or logOut, exactly as `Session.ReceiveUser` |
| `Controller.App.HandleLoginFormSubmit` | js/app.js:163-167 | writes `key`, then `user`, then runs attemptFetchUser, exactly as `Session.HandleLoginFormSubmit` |
| `Controller.App.Connect` | js/app.js:80-81 | requests `/connect/{id}` for a user that has a key, exactly as `Session.Connect` |
| `Controller.App.ReceiveConnectAck` | js/app.js:81-82 | a resolved acknowledgement runs updateUserTotals, exactly as `Session.ReceiveConnectAck` |

## Left out

- HTTP transport (js/app.js:25-41): the request, its headers and JSON parsing are a foreign call. Its result is an input `Reply`.
- Bodies that are not objects: a JSON `null` body is not modelled. With one, reading a field would throw at different points.
- Field types: ids, timezones and `error` fields that are not strings are not modelled. Remote user fields other than `id` and `timezone` are not kept.
- DOM rendering (js/app.js:61-78, 114-140): only the abstract `View` is kept. It records which view is shown, the logging-in indicator, the connection flag and the raw totals.
- Display arithmetic (js/app.js:73-77): `Math.floor` of points and of `active_seconds / 60.0` is floating-point arithmetic.
- Calendar logic (js/app.js:52-54): luxon's year, week number and weekday are not modelled. Only the zone handed to the clock is kept, and both totals requests reuse it.
- Timer timing: the 5000 ms period (js/app.js:8) is not modelled. An armed interval is a handle, and its firing is the `Tick` event of `Flight`.
- Runtime plumbing: `console.error` and the jQuery wiring in `setUpFormSubmissionHandler`, `docLoaded` and `$(document).ready` (js/app.js:173-187) are not modelled. Page load is `Session.Initial`, followed by `AttemptFetchUser`.
- Promise semantics: microtask order and the event loop are not modelled. Only the step boundaries at each request are kept.
