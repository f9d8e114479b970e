# FinanceAI chat exchange, modelled in Dafny

This project models the question/answer exchange of the FinanceAI web
application. A user types a finance question into a chat view. The browser
sends the trimmed question to a relay service (`POST /api/finance`). The relay
forwards it to an external Agent and answers with either `{reply}` or a
generic error. The chat view appends the user's question before the request
and exactly one assistant message after it settles. That message holds the
reply, or a fixed fallback text when the request fails.

Modules, one per source component:

- `JsString` (js_string.dfy): `String.prototype.trim` as defined by ECMA-262.
  It strips the WhiteSpace code points
  (section 12.2) and the LineTerminator code points (section 12.3) at both
  ends. Trim is proved unique: any blank text around a string that starts and
  ends with non-white-space characters trims back to exactly that string.
- `Chat` and `Wrappers` (chat.dfy, wrappers.dfy): the sender enumeration, the
  way the awaited `axios.post` settles, and an Option type for `undefined`.
- `ChatPage` (chat_page.dfy): the mounted chat view. It is a class `Page`
  with the three state cells `userInput`, `messages` and `loading`.
  `handleSendMessage` is split at its only `await` into `Begin` and
  `Complete`. Each method is tied to a pure step function (`BeginStep`,
  `CompleteStep`), and the lemmas are stated about those functions.
  `Date.now()` is a clock argument.
- `ChatInput` (chat_input.dfy): the send button's `disabled` predicate.
- `Session` (session.dfy): a browser session as a sequence of events. The
  user types, submits (only through the enabled button) and a request
  settles. The invariant `Valid` says that `loading` is on exactly while one
  request is in flight. It also says that the history alternates question and
  reply, and that an unanswered question is always the last message. Every
  event preserves it.
- `ChatBox` (chat_box.dfy): the older, unmounted chat component, modelled as
  written (class `Box`), next to a corrected completion.
- `Relay` (relay.dfy): the Express handlers in `backend/app.js` as pure
  functions from the Agent's outcome to one `(status, body)` response, plus
  the two configuration defaults.
- `Exchange` (exchange.dfy): the composition of the relay's response, the
  HTTP client's settlement and what each chat component shows.

Assumptions. The HTTP client is axios with its default status check: a 2xx
status resolves and anything else rejects. The clock is assumed not to go back
between a question and its reply, and only the id lemmas rely on that. The
Agent (`callAgent` in `backend/agent.js`) is not part of this model. It
appears only as the way its call settles: `Relay.AgentOutcome`, and on the
client side `Chat.Outcome`.

The relay's `{reply}` object omits the field when the Agent's reply is
undefined, as JSON serialisation does. The chat page then shows
"No response". The chat box instead stores an undefined text, because it has
no default. An empty reply string is not nullish, so the chat page shows an
empty assistant message for it. `ChatPage.ReplyText` proves that this is the
only way such a message can arise.

The single-request-in-flight property rests on the send button, not on the
handler. `Session.HandlerAloneAdmitsSecondRequest` shows what happens if a
submit reaches the handler while a request is in flight: it is accepted, two
questions end up back to back, and the first settlement clears `loading`
while the second request is still outstanding.

## Model

| member | source | states |
|---|---|---|
| `JsString.Trim` | frontend/src/pages/ChatPage.jsx:43 | the trimmed text is empty exactly when the input is blank; otherwise it starts and ends with a non-white-space character |
| `JsString.TrimCuts` | frontend/src/pages/ChatPage.jsx:43 | trimming keeps one contiguous slice of the input and cuts only blank text on either side |
| `JsString.TrimUnique` | frontend/src/pages/ChatPage.jsx:43 | blank text around a string that starts and ends with non-white-space characters trims back to exactly that string |
| `JsString.TrimIdempotent` | frontend/src/pages/ChatPage.jsx:43 | trimming the trimmed question changes nothing |
| `JsString.TrimDecomposes` | frontend/src/pages/ChatPage.jsx:43 | every input is its trimmed text surrounded by blank text |
| `ChatPage.ReplyText` | frontend/src/pages/ChatPage.jsx:51-58 | a present reply is shown verbatim, an absent reply as "No response", a failure as the fixed fallback; an empty text arises only from an empty reply |
| `ChatPage.BeginStep` | frontend/src/pages/ChatPage.jsx:43-50 | blank input changes nothing, not even the whitespace in the input; otherwise the trimmed question is appended as a user message stamped with the clock, the input is cleared, `loading` is set, and the trimmed text is what is sent |
| `ChatPage.CompleteStep` | frontend/src/pages/ChatPage.jsx:51-64 | exactly one assistant message is appended; `loading` is false on both paths; the input is untouched |
| `ChatPage.Page.constructor` | frontend/src/pages/ChatPage.jsx:14-16 | the page mounts with an empty input, an empty history and `loading` off |
| `ChatPage.Page.SetUserInput` | frontend/src/pages/ChatPage.jsx:14 | the input becomes the given value; history and `loading` are unchanged |
| `ChatPage.Page.Begin` | frontend/src/pages/ChatPage.jsx:41-50 | a request is sent exactly when the input is not blank; if not, nothing changes; if so, the history gains the question and the input is cleared with `loading` on |
| `ChatPage.Page.Complete` | frontend/src/pages/ChatPage.jsx:50-64 | the history gains exactly the reply message stamped `now + 1`; `loading` ends false whatever the outcome |
| `ChatPage.FirstExchange` | frontend/src/pages/ChatPage.jsx:41-65 | from mount, a blank question leaves everything as typed; a real one ends with exactly the question and one reply, `loading` off and the input empty |
| `ChatPage.CycleAppendsQuestionThenReply` | frontend/src/pages/ChatPage.jsx:45-61 | an accepted cycle adds exactly two messages, user question before reply, and keeps every earlier message |
| `ChatPage.ReplyIdExceedsQuestionId` | frontend/src/pages/ChatPage.jsx:45-57 | within one cycle the reply's id exceeds the question's id when the clock did not go back |
| `ChatPage.BeginIgnoresLoading` | frontend/src/pages/ChatPage.jsx:41-48 | the handler's result does not depend on `loading` |
| `ChatInput.SendDisabled` | frontend/src/components/Chat/ChatInput.jsx:33 | send is disabled exactly while a reply is awaited or the input is blank |
| `Session.Step` | frontend/src/components/Chat/ChatInput.jsx:20-33 | one event (typing, a submit through the button, a settlement) adds at most one message and keeps every earlier one |
| `Session.Run` | frontend/src/pages/ChatPage.jsx:41-65 | a sequence of events adds at most one message per event |
| `Session.SubmitRunsHandlerOnlyWhenEnabled` | frontend/src/components/Chat/ChatInput.jsx:20-33 | a submit while the button is disabled changes nothing; an enabled one gives the handler's new state and sends the trimmed input stamped with the clock |
| `Session.SettleCompletesOnlyInFlight` | frontend/src/pages/ChatPage.jsx:50-64 | a settlement runs the continuation of the request in flight and leaves nothing in flight; with nothing in flight it changes nothing |
| `Session.StartIsValid` | frontend/src/pages/ChatPage.jsx:14-16 | the page as mounted satisfies the session invariant |
| `Session.EnabledSendIsAccepted` | frontend/src/components/Chat/ChatInput.jsx:33 | whenever send is enabled, nothing is in flight and the handler's guard passes and sends the trimmed input |
| `Session.TypingForwardsRawValue` | frontend/src/components/Chat/ChatInput.jsx:26 | typing stores the raw value, untrimmed, and changes nothing else |
| `Session.IndicatorShownWhileInFlight` | frontend/src/components/Chat/ChatHistory.jsx:54-58 | the typing indicator is shown exactly while a request is in flight |
| `Session.StepKeepsValid` | frontend/src/pages/ChatPage.jsx:41-65 | every event keeps the session invariant: `loading` iff one request in flight, strict question/reply alternation, and the pending question last |
| `Session.RunKeepsValid` | frontend/src/pages/ChatPage.jsx:41-65 | the invariant holds after any sequence of events, so every accepted question gets exactly one reply |
| `Session.RunOnlyAppends` | frontend/src/pages/ChatPage.jsx:46-61 | over any sequence of events, earlier messages are never removed or altered |
| `Session.HandlerAloneAdmitsSecondRequest` | frontend/src/pages/ChatPage.jsx:41-48 | the disabled button is what blocks a second submit; the handler would accept it and `loading` would clear while a request is still outstanding |
| `Session.IdsCollideAcrossCycles` | frontend/src/pages/ChatPage.jsx:45-57 | as written, a reply settled at clock t and the next question at clock t + 1 get the same id, so ids are not increasing |
| `Session.FreshId` | frontend/src/pages/ChatPage.jsx:45 | the corrected id is at least the clock reading and above every earlier id |
| `Session.CorrectedStep` | frontend/src/pages/ChatPage.jsx:45-57 | corrected stamping shows the same texts from the same senders, with the same input and `loading`, as the code as written, and keeps ids strictly increasing |
| `Session.CorrectedRun` | frontend/src/components/Chat/ChatHistory.jsx:39 | over any sequence of events, corrected stamping keeps ids strictly increasing, so list keys stay unique |
| `Session.CorrectedRunKeepsValid` | frontend/src/pages/ChatPage.jsx:41-65 | with corrected ids, the session invariant and increasing ids hold after any sequence of events from a valid state |
| `Session.CorrectedStepKeepsIdsIncreasing` | frontend/src/components/Chat/ChatHistory.jsx:39 | with corrected ids, every event keeps ids strictly increasing (unique keys) and the session invariant |
| `ChatBox.ReplyEntry` | frontend/src/components/ChatBox.jsx:56-68 | the reply entry is from the assistant; its text is the reply exactly as received, possibly undefined, and is undefined only for an undefined reply; a failure gives the fixed fallback with the typographic apostrophe |
| `ChatBox.SendDisabled` | frontend/src/components/ChatBox.jsx:119 | the button is disabled exactly while `loading`; it is the chat page's button without the blank-input check |
| `ChatBox.BeginStep` | frontend/src/components/ChatBox.jsx:46-52 | blank input changes nothing; otherwise the trimmed question is appended, the input cleared and `loading` set |
| `ChatBox.CompleteStep` | frontend/src/components/ChatBox.jsx:54-71 | as written, the continuation appends the captured question again and then the reply; `loading` is false on both paths |
| `ChatBox.CorrectedCompleteStep` | frontend/src/components/ChatBox.jsx:58 | corrected, the continuation appends the reply only |
| `ChatBox.Box.constructor` | frontend/src/components/ChatBox.jsx:15-17 | the box mounts empty with `loading` off |
| `ChatBox.Box.SetUserInput` | frontend/src/components/ChatBox.jsx:114 | the input becomes the raw value typed |
| `ChatBox.Box.Begin` | frontend/src/components/ChatBox.jsx:44-52 | a request is sent exactly when the input is not blank; if so, the history gains the question |
| `ChatBox.Box.Complete` | frontend/src/components/ChatBox.jsx:54-71 | the history gains the captured question and the reply; `loading` ends false |
| `ChatBox.FirstExchange` | frontend/src/components/ChatBox.jsx:44-72 | from mount, a real question ends as question, question, reply |
| `ChatBox.CycleDuplicatesQuestion` | frontend/src/components/ChatBox.jsx:50-63 | as written, an accepted cycle appends the question twice and then the reply, whatever the outcome |
| `ChatBox.BeginCountsOneQuestion` | frontend/src/components/ChatBox.jsx:49-50 | the synchronous part adds one user entry |
| `ChatBox.CompleteCountsQuestionAgain` | frontend/src/components/ChatBox.jsx:58 | as written, the continuation adds a second user entry for the same question |
| `ChatBox.CorrectedCycleAppendsQuestionThenReply` | frontend/src/components/ChatBox.jsx:50-58 | corrected, a cycle appends exactly the question then the reply and keeps earlier entries |
| `ChatBox.CorrectedCompleteCountsNoQuestion` | frontend/src/components/ChatBox.jsx:58 | corrected, the continuation adds no user entry |
| `ChatBox.BlankSubmitReachesHandlerAndIsIgnored` | frontend/src/components/ChatBox.jsx:119 | the button ignores the input, so a blank submit reaches the handler, whose guard leaves everything unchanged |
| `ChatBox.BeginIgnoresLoading` | frontend/src/components/ChatBox.jsx:44-52 | the handler's result does not depend on `loading` |
| `Relay.GetRoot` | backend/app.js:32-34 | GET `/` always answers 200 with the same fixed liveness text |
| `Relay.ReplyBody` | backend/app.js:43 | the `{reply}` object holds at most the `reply` field, and holds it exactly when the reply is defined |
| `Relay.QuestionOf` | backend/app.js:37 | the question forwarded is the request's field exactly as sent, or undefined when missing |
| `Relay.PostFinance` | backend/app.js:36-48 | status 200 with `{reply}` exactly when the Agent resolved; status 500 with `{error: 'Error processing request'}` exactly when it threw; the detail goes to the log only |
| `Relay.ErrorResponseIgnoresDetail` | backend/app.js:44-46 | two different failures produce the same response, whose only field is `error` |
| `Relay.Port` | backend/app.js:16 | the port is `PORT` when set and non-empty, else 3000 |
| `Relay.AllowedOrigin` | backend/app.js:22 | the CORS origin is `FRONTEND_URL` when set and non-empty, else `*`; never empty |
| `Exchange.ReplyField` | frontend/src/pages/ChatPage.jsx:51 | the client reads the `reply` field of a JSON body, and undefined for anything else |
| `Exchange.Settle` | frontend/src/pages/ChatPage.jsx:50 | the request resolves exactly for a delivered 2xx response, carrying the body's reply field |
| `Exchange.ReplySurvivesRelay` | backend/app.js:41-43 | the Agent's reply, defined or not, comes back out of the relay's response unchanged |
| `Exchange.ServerFailureLooksLikeUnreachable` | backend/app.js:44-46 | a server-side failure settles on the client exactly like an unreachable server |
| `Exchange.ChatPageShowsAgentOutcome` | frontend/src/pages/ChatPage.jsx:50-61 | end to end, the page shows the Agent's reply, "No response" for an undefined reply, or the fallback for a failure |
| `Exchange.ChatBoxShowsAgentOutcome` | frontend/src/components/ChatBox.jsx:56-68 | end to end, the box shows the Agent's reply as received, or its fallback for a failure |
| `Exchange.FallbacksDifferOnlyInApostrophe` | frontend/src/components/ChatBox.jsx:65 | the two fallback texts are the same length and differ only in the apostrophe of "Can't" |

## Findings

| source | as written | input that shows it | evidently intended | confidence | as-written member | corrected member |
|---|---|---|---|---|---|---|
| frontend/src/components/ChatBox.jsx:58 | the continuation's update `[...prev, newMessage, reply]` runs on a `prev` that already ends with `newMessage` (appended at :50); the failure update at :61-63 does the same | any non-blank question, e.g. "hi", whatever the outcome: the history ends "hi", "hi", reply | `[...prev, reply]`: one question, one reply | high (not executed) | `ChatBox.CycleDuplicatesQuestion` | `ChatBox.CorrectedCycleAppendsQuestionThenReply` |
| frontend/src/pages/ChatPage.jsx:45-57 | the question's id is `Date.now()` and the reply's is `Date.now() + 1`, so consecutive cycles can share an id; ChatHistory keys its list on `id` (frontend/src/components/Chat/ChatHistory.jsx:39) | a reply settled at clock 0 (id 1), then the next question submitted at clock 1 (id 1) | ids unique and increasing across the session | medium (not executed) | `Session.IdsCollideAcrossCycles` | `Session.CorrectedRunKeepsValid` |

## Left out

- The Agent (`callAgent` in `backend/agent.js`): backend/agent.js is not part of this model. Its call appears only as the outcome it settles with, and an undefined reply is the one non-string reply modelled.
- The network, axios, Express, CORS, body parsing, `serverless-http` and `app.listen`: they are I/O. The relay is modelled from its input to its single response. The browser sees that response, or nothing.
- `console.error` output is modelled only as the relay's log entry. The clients' log calls are left out.
- Real interleaving of overlapping requests: this is concurrency. The session model lets a submit reach the handler only through the enabled button. `Session.HandlerAloneAdmitsSecondRequest` shows what the handler alone would allow.
- `Date.now()` is a clock argument rather than a real clock. That the clock does not go back is a hypothesis of the id lemmas only.
- JavaScript strings are sequences of UTF-16 code units, and here they are sequences of Unicode scalar values. Every character `trim` removes is a single code unit, so trimming is unaffected.
- Request bodies are modelled as maps from field names to strings, so a non-string `question` value is not modelled.
- The typing indicator's animation (GSAP timelines) and the tearing down of its repeating task when the view unmounts are animation, not data flow. Only "shown exactly while `loading`" is modelled.
- Page layout, scrolling, message animations, routing, the landing-page sections and the unused database connection in `backend/db_connection.js` are presentation or dead configuration.
