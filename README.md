# School activities page script, modelled in Dafny

The page script `src/static/app.js` is the browser client of a school-activity
signup service. It keeps a teacher session (a bearer token
held in memory and in the storage entry `authToken`, and an `isAuthenticated`
flag), restores that session on load, logs teachers in and out, lets a signed-in
teacher sign a student up for an activity or withdraw one, and rebuilds the
activities list (one card per activity, with the remaining spots, the
participants and, when signed in, a delete button per participant) from
`GET /activities`.

The model has four modules:

- `Roster` (`roster.dfy`): what one activities snapshot renders to. A card is a
  record of what the page shows: name, description, schedule, the unclamped
  remaining capacity, and either the "No participants yet" notice or the list of
  participants with a flag per line for the delete button.
- `PageState` (`page_state.dfy`): the script's whole state as a value and one
  transition function per event. Each async handler is split where it first
  waits: the event that issues the request is one transition, and the request's
  completion, with the network's answer as a parameter, is another. Each handler
  awaits twice, first `fetch` and then `response.json()`; both are folded into
  the one completion, since no handler changes any state between them. Pending
  5-second hide timers are a count; each one hides whatever message shows when
  it fires.
- `PageScript` (`page_script.dfy`): the closure of the `DOMContentLoaded` handler
  as the class `Page`, whose fields the handlers update in place. Each method
  except the two view helpers (`ShowAuthenticatedState` and
  `ShowUnauthenticatedState`, which the events call) is one event and promises
  that the new state is the matching transition of the old one. `CompleteFetch`
  rebuilds the list entry by entry in a loop, as the `forEach` does.
- `PageProperties` (`page_properties.dfy`): what the script promises, proved over
  the transitions: the session state machine, the gate on mutations, the status
  line and its timers, the roster rebuild, and the interleavings that the
  handlers allow.

Behaviour of the script worth knowing:

- A hide timer hides whatever message shows when it fires, not only the one
  that scheduled it (`StaleTimerHidesNewerMessage`).
- `fetchActivities` never looks at the response status. Any non-null JSON body
  is rendered, so an error body such as `{"detail": ...}` makes rendering throw
  and shows the failure notice (`FetchRebuilds`, `FetchFails`). A `null` body
  throws at `Object.entries` and shows the same notice.
- A restore succeeds on any 2xx answer with a non-null JSON body; the `name`
  field is not checked. A `null` body throws at `userData.name` and the restore
  fails, like a body that is not JSON.
- `if (authToken)` treats the empty string as no token, so a stored empty token
  issues no identity check (`InitialRequests`).
- Every fetch whose body parses adds one option per entry, up to the first entry
  that throws. Nothing ever clears the select, so its options only grow
  (`OptionsOnlyGrow`, `RepeatedFetches`).

## Model

| member | source | states |
|---|---|---|
| PageScript.Page.constructor | src/static/app.js:21-23 | On load the token comes from storage, the page is not authenticated, and `checkAuth()` then `fetchActivities()` run. |
| PageScript.Page.ShowAuthenticatedState | src/static/app.js:51-57 | The teacher view shows with the given name, and the session is left alone. |
| PageScript.Page.ShowUnauthenticatedState | src/static/app.js:59-65 | The signed-out view shows and `isAuthenticated` becomes false. The token is left alone. |
| PageScript.Page.CheckAuth | src/static/app.js:26-48 | With a non-empty token the identity check goes out carrying it. Otherwise the signed-out view shows. |
| PageScript.Page.CompleteCheckAuth | src/static/app.js:32-45 | A 2xx answer with a non-null JSON body authenticates under the returned name. Any other answer removes the token from memory and storage and signs out. |
| PageScript.Page.SubmitLogin | src/static/app.js:100-110 | Exactly one login request goes out with the form's username and password. |
| PageScript.Page.CompleteLogin | src/static/app.js:112-131 | On success the token is stored in memory and storage, the page is authenticated and the login message hides. On failure the session is untouched and the login message shows the server's detail, "Login failed", or the retry text. |
| PageScript.Page.Logout | src/static/app.js:135-140 | The token is removed from memory and storage and the page signs out. No request is issued and the rendered list is left alone. |
| PageScript.Page.FetchActivities | src/static/app.js:143-145 | One `GET /activities` goes out. |
| PageScript.Page.CompleteFetch | src/static/app.js:146-202 | The list is rebuilt in a loop, one card and one appended option per entry, as `FetchCompleted` states. An entry that throws puts up the failure notice and keeps the options already appended. |
| PageScript.Page.SubmitSignup | src/static/app.js:257-279 | Signed out, the fixed refusal shows and nothing is sent. Signed in, the signup request goes out with the current token. |
| PageScript.Page.CompleteSignup | src/static/app.js:281-306 | The three ways a signup ends (success, rejection, failure), with the matching message, form reset, refetch and timer, as `SignupCompleted` states. |
| PageScript.Page.ClickDelete | src/static/app.js:206-227 | A click on a rendered delete button refuses when signed out. Signed in, it sends the withdrawal for that card's activity and that participant's email. |
| PageScript.Page.CompleteUnregister | src/static/app.js:229-253 | The three ways a withdrawal ends, as `UnregisterCompleted` states. |
| PageScript.Page.FireTimer | src/static/app.js:244-300 | A pending hide timer, from a withdrawal (lines 244-247) or a signup (lines 297-300), hides the message that shows now and is used up. |
| PageProperties.InitialRequests | src/static/app.js:22-48 | Page load is unauthenticated. It issues the identity check if and only if a non-empty token is stored, and always ends with the activities fetch. |
| PageProperties.RestoreOutcome | src/static/app.js:32-45 | Authenticated and teacher view if and only if the answer is a 2xx with a non-null JSON body. Failure clears the token in memory and storage. Requests, list and status line are unchanged. |
| PageProperties.RejectedRestoreThenReload | src/static/app.js:37-44 | After a failed restore, the next load behaves exactly like a load with no stored token. |
| PageProperties.LoginOutcome | src/static/app.js:112-131 | Success stores the token and authenticates under the teacher's name. Every failure leaves the session as it was and shows the detail, "Login failed" or the retry text as an error. |
| PageProperties.LogoutClears | src/static/app.js:135-140 | Logout forgets the token everywhere and signs out. Requests, list, options and status line are unchanged. |
| PageProperties.StaleDeleteButton | src/static/app.js:135-216 | Delete buttons rendered while signed in survive logout. Clicking one afterwards sends nothing and shows the unregister refusal. |
| PageProperties.SignedOutMutationsRefused | src/static/app.js:211-216 | Signed out, neither signup nor withdrawal sends anything or schedules a timer. Each shows its own refusal text. |
| PageProperties.SignedInMutationsIssued | src/static/app.js:218-227 | Signed in, signup and withdrawal each add exactly their request, with the current token. The status line is unchanged until the answer. |
| PageProperties.SignupOutcome | src/static/app.js:281-306 | Success: the server's message as success, exactly one refetch, one timer, one form reset. Rejection: the detail or "An error occurred", one timer, no refetch. Failure: the fixed text, no timer, no refetch. Session and list are unchanged. |
| PageProperties.UnregisterOutcome | src/static/app.js:229-253 | The same three endings with the unregister failure text and no form reset. A rejected withdrawal leaves the list as it was. |
| PageProperties.StaleTimerHidesNewerMessage | src/static/app.js:298-300 | A timer left from an earlier message hides a newer success message while that message's own timer is still pending. |
| PageProperties.RefusalHiddenByEarlierTimer | src/static/app.js:260-264 | The signed-out refusal schedules no timer, yet an earlier pending timer hides it. |
| PageProperties.FetchRebuilds | src/static/app.js:143-192 | A readable snapshot gives one card per entry in order, rendered with the flag as it is at completion time, and appends one option per entry. The result does not depend on the response status. |
| PageProperties.FetchFails | src/static/app.js:198-202 | An unreadable answer or an entry that throws shows the failure notice. Only the options of the entries before the throw are appended. |
| PageProperties.LastFetchWins | src/static/app.js:149 | With two fetches in flight, whichever answer is applied last decides the list. |
| PageProperties.RepeatedFetches | src/static/app.js:187-191 | After k fetches of the same snapshot the select holds k more copies of its names, and the list holds the snapshot's cards once. |
| PageProperties.SelectAccumulates | src/static/app.js:149-191 | With distinct names, each name appears k more times among the options after k fetches, while exactly one card carries it. |
| PageProperties.LogoutDuringRestore | src/static/app.js:26-49 | A logout while the identity check is pending does not stick. A 2xx answer then authenticates a page with no token, and the next signup goes out with no bearer token. |
| PageProperties.LoginUndoneByStaleRestore | src/static/app.js:36-45 | A login made while a stale identity check is pending is undone when that check fails. The fresh token leaves memory and storage. |
| PageProperties.SessionOnlyBySessionEvents | src/static/app.js:143-307 | The token in memory and in storage and the authentication flag are kept by every event other than a completed login, a completed identity check and logout: the identity check being issued, a login being submitted, fetches, signups, withdrawals and timers, whatever their outcome. |
| PageProperties.OptionsOnlyGrow | src/static/app.js:149-191 | No event ever clears the activity select: restore, login, logout, fetch, signup, withdrawal and timer each keep the old options as a prefix. |
| PageState.Initial | src/static/app.js:309-311 | Load (with the token read at line 22) starts unauthenticated with the stored token. The requests are the identity check, sent only for a non-empty token, followed by the activities fetch. |
| PageState.CheckAuthStarted | src/static/app.js:26-48 | A non-empty token sends one identity check carrying it and leaves the session and the stored token alone. Otherwise nothing is sent and the page signs out. |
| PageState.RestoreCompleted | src/static/app.js:32-45 | Authenticated if and only if the answer is Ok. Success keeps the token, failure removes it from memory and storage. Requests, roster and status line are unchanged. |
| PageState.LoginCompleted | src/static/app.js:112-131 | Success sets the session to the new token, authenticated, stores the token and hides the login message. Failure keeps session and storage and shows an error in the login form. |
| PageState.LoggedOut | src/static/app.js:135-140 | No token in memory or storage, signed out. Network, roster and status line are unchanged. |
| PageState.MutationStarted | src/static/app.js:206-227 | The first half of both mutations (the signup form's is lines 257-279). Signed in, exactly the given request is added and one more handler waits. Signed out, nothing is sent and the refusal shows as an error with the timer count unchanged. Only the status line and the network change: session, stored token and roster stay. |
| PageState.MutationCompleted | src/static/app.js:229-253 | The second half of both mutations (the signup form's is lines 281-306). The message shows, as success exactly on Ok. One refetch exactly on Ok, one timer exactly on Ok or a rejection, one form reset exactly on an Ok signup. Only the status line, the reset count and the network change: session, stored token and roster stay. |
| PageState.FetchCompleted | src/static/app.js:146-202 | The list holds cards if and only if the reply was read and every entry renders. The old options stay as a prefix. Only the roster and the pending count change: requests, session, stored token and status line stay. |
| PageState.TimerFired | src/static/app.js:244-247 | Either hide timer (the signup form's is lines 297-300) fires: the current message hides, with its text and class kept, and one pending timer is used up. Nothing else changes. |
| Roster.SpotsLeft | src/static/app.js:156-157 | Spots left plus the enrolment equals `max_participants`, so the value is negative exactly when the activity is overfull. |
| Roster.RenderCard | src/static/app.js:156-183 | The card shows the name, description, schedule and spots left. "No participants yet" shows if and only if nobody is enrolled, otherwise every email in order with a delete button exactly when authenticated. |
| Roster.RenderCards | src/static/app.js:152-185 | One card per entry. |
| Roster.Names | src/static/app.js:187-191 | One option per entry. |
| Roster.FirstMalformedAt | src/static/app.js:152-157 | Rendering throws at the first entry without a participants array, and nowhere earlier. |
| Roster.ParticipantItems | src/static/app.js:165-170 | One participant line per email, in order, each with a delete button exactly when the page is authenticated. |
| Roster.FirstMalformed | src/static/app.js:152-157 | The position where rendering throws: every entry before it renders, and the entry at it has no participants array. |
| Roster.RenderCardsAt | src/static/app.js:152-185 | The i-th card is rendered from the i-th entry alone, and there are as many cards as entries. |
| Roster.RosterCard | src/static/app.js:156-183 | A card shows the entry's name, description and schedule and `max_participants` minus the enrolment, without clamping. "No participants yet" shows if and only if nobody is enrolled. Otherwise every email shows in order, with a delete button if and only if authenticated. |
| Roster.CardsFollowEntries | src/static/app.js:152-185 | One card per entry, in entry order. |
| Roster.NamesAt | src/static/app.js:187-191 | The i-th option appended is the i-th entry's name. |
| Roster.NamesOnce | src/static/app.js:187-191 | With distinct entry names, each name appears exactly once among one fetch's options. |
| Roster.RepeatCount | src/static/app.js:187-191 | k repetitions of the options hold every name k times as often. |

## Left out

- DOM look-ups and element plumbing (lines 2-19), the user dropdown and the
  login modal's open and close handlers (lines 67-97): they change only what is
  visible, never the session, the requests or the roster.
- The login form's reset and the login modal's hiding after a successful login
  (lines 119-120): presentation only. The signup form's reset is kept as a count.
- The HTML markup of a card, and the fact that names and emails are interpolated
  into it unescaped: the model records what each card shows, not its markup.
- `encodeURIComponent` and the form encoding of the login body: a request
  records the raw activity, email, username and password.
- `fetch`, JSON parsing and `localStorage` are not modelled as APIs. Their
  results become parameters: an `Outcome` per answer, an `ActivitiesReply` for
  the activities answer, and the stored token passed to the constructor.
- The event loop and `setTimeout`: a handler's two awaits form one completion
  event, and a 5-second timer is a pending count with no clock.
- `console.error` logging.
- Body shapes beyond what is modelled: a success body whose `message`,
  `access_token`, `teacher_name` or `name` is missing, and a non-numeric
  `max_participants`, are not distinguished. Only a missing participants array
  makes an entry throw. A JSON `null` body is not a case of its own: reading a
  field of it throws into the same `catch` as a body that is not JSON, so it is
  passed as `MalformedBody` (or `Unreadable` for the activities answer).
- The markup's initial visibility before `checkAuth` runs: the model starts
  from the signed-out view with an empty status line and the "Loading" placeholder.
- The delete-button listeners attached after each rebuild: a click is modelled
  as `ClickDelete` on a button present in the current list.
- The server's behaviour is not part of this model. Its answers are inputs.
