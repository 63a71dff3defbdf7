# Support chat with Teams handoff — a Dafny model of its session logic

The application is a customer-support chat. A React client (`frontend/src/App.js`)
first runs a scripted decision-tree bot. When the user asks for a person, the
client files a support ticket with a Flask backend (`backend/app.py`). The backend
opens a Microsoft Teams group chat for the ticket and relays agents' replies back
over a socket.io channel.

This project models the two pieces of sequential state behind that flow.

**The client session** (module `ChatClient`, class `ChatSession`). The React state
variables become the object's fields:

- the two append-only logs, `chatHistory` (the bot transcript) and `messages` (the ticket thread);
- the offered options and the `chatbotActive`, `endChat` and `isLoading` flags;
- `requestId`, the user's identity and the simulated profile.

The browser's `sessionStorage` is a map field. The socket becomes three fields:

- `connected`;
- `boundTo`, the `requestId` the current socket's handlers captured when the effect created them;
- `outbox`, every `register`/`unregister` the client emitted.

A `setTimeout` bot reply is an entry of the `pending` queue, delivered by an
explicit step. Every handler is a method that changes exactly the fields its
`modifies` clause names, and its `ensures` states the whole new value of each.

The scripted bot is a pure table (module `Dialogue`). Its two sentinel checks come
before the `switch`, and its last two writes follow it. The messages and the chat
summary sent with a new ticket are in module `Transcript`.

**The backend request table** (module `SupportBackend`, class `Backend`). The
module-level dictionary `active_requests` is a `map` field, and each entry is a
`Request` record with its status machine (`Pending`, `Responded`, `Aborted`) and
its `processed_messages` set. Each HTTP endpoint and socket handler that reads or
writes the table is a method. What Microsoft Graph, MSAL or `uuid4` would have
answered is a parameter. The webhook's duplicate suppression is stated two ways:

- as a function (`Process`) with a lemma over any sequence of notifications;
- as the class invariant `Valid()` over a ghost history of relayed messages, which the webhook handlers only ever extend, by exactly the (request, message) pairs they relay, in order: every relayed message is recorded as processed, and no message of a request was relayed twice.

Module `ClientScenarios` runs whole conversations on a fresh `ChatSession`, in the
order React and the socket call the handlers. Each one states the resulting state:
what the page shows, the logs it keeps and what the client emitted.

Where the code and its design description differ, the model follows the code:

- The design says the agent-connect sentinel clears the offered options. The code
  (`frontend/src/App.js:81-93`) only appends the reply and hands off. The menu that
  was showing stays as it was (`TalkToAgentKeepsMenu`).
- The design asks that a delayed bot reply be discarded after a reset. The code has
  no such guard. The model does not add one, and `LateReplyCrossesReset` shows the
  late reply landing in the new transcript and emptying its fresh menu.
- The design asks that at most one ticket id be registered at a time. The socket
  effect's cleanup (`frontend/src/App.js:546-555`) unregisters whatever id storage
  holds when it runs. When a ticket has just been created, storage already holds
  the new id (line 405). So the cleanup unregisters the new ticket, and the
  backend's `unregister` handler then marks that brand-new ticket `aborted`
  (`backend/app.py:633-634`); the new socket registers it again, but nothing sets
  it back to pending. On a page load that restores a stored ticket, the first
  socket's cleanup likewise emits `unregister` for that ticket, on a socket that
  has not connected yet (`StaleReplyAfterReset`). This is modelled as written and
  shown by `TicketThenRebind`, not corrected.
- The design reads storage at startup to resume a prior conversation. The storage-restore effect
  (`frontend/src/App.js:464-480`) brings back the ticket id, the name and the
  e-mail, but not human mode: `chatbotActive` keeps its initial `true`. So the
  page keeps showing the bot transcript, replies for the ticket go to a thread
  that is not rendered, and typed text goes to the bot
  (`ReplyForCurrentTicket`).
- After a reconnect the client re-registers only the id its handlers captured
  (`OnConnect`). That matches the code.

## Model

| member | source | states |
|---|---|---|
| Common.Or | frontend/src/App.js:67 | `a \|\| b` on strings is `a` when `a` is non-empty and `b` otherwise, so it is empty only when both are |
| Dialogue.LabelsDistinct | frontend/src/App.js:111-273 | two option buttons carry the same text exactly when they are the same option, so matching a choice is matching the exact text the `switch` compares |
| Dialogue.Table | frontend/src/App.js:111-273 | only the 'another question' and 'that's all' arms write the option list themselves; the arms for 'Talk to a support agent', 'Still having problems' and 'Connect me to an agent' hand off with empty `newOptions`; only 'that's all' ends the chat; every other option gets the default arm |
| Dialogue.Respond | frontend/src/App.js:76-277 | only the two handoff sentinels keep the option list; the bot hands off exactly on those and on 'Still having problems'/'Connect me to an agent'; the chat ends exactly on the end sentinel and 'No, that's all for now', with nothing offered; a reply that keeps the bot replaces the list, empty only for 'Yes, I have another question'; any option outside the table gets the default reply and the agent/decline pair |
| Dialogue.TalkToAgentArmUnreachable | frontend/src/App.js:81-149 | the sentinel answers 'Talk to a support agent' before the `switch`, so the arm at 140, which would have cleared the options, never decides the reply |
| Dialogue.AnotherQuestionOffersNothing | frontend/src/App.js:199-276 | the 'another question' arm writes the five-item menu, but the write at 276 replaces it with its empty `newOptions` |
| Dialogue.HandoffPaths | frontend/src/App.js:81-197 | the two sentinels hand off keeping the menu; the two escalation options hand off with empty options |
| Dialogue.MenuPaths | frontend/src/App.js:123-276 | 'Issues with my VM' offers exactly the four VM items plus 'Talk to a support agent' and keeps the bot; 'Issue resolved' offers the another-question/that's-all pair; 'Service outage' gets the default reply |
| Dialogue.TroubleshootingPaths | frontend/src/App.js:151-173 | 'VM won't start' offers troubleshooting steps or an agent, and 'Show troubleshooting steps' offers resolved or still-having-problems, both keeping the bot |
| Dialogue.Deflect | frontend/src/App.js:300-311 | typed text gets the fixed reply with the agent/decline pair and the bot stays; no option's reply equals it, so the text is never answered from the table |
| Dialogue.EndingPaths | frontend/src/App.js:96-226 | both ending options end the chat with an empty option list and their own goodbye text |
| Transcript.ErrorNotice | frontend/src/App.js:345-358 | an error message is a system and error message whose text is `Error: ` followed by the detail, or by the fallback when the detail is empty |
| Transcript.AgentMessage | frontend/src/App.js:510-518 | a relayed reply is shown under the responder's name, or 'Support Team' when none is given, with the relayed text, as neither a user, system nor error message |
| Transcript.Summary | frontend/src/App.js:380-382 | the summary is empty exactly for an empty transcript and starts with the first message's line |
| Transcript.Lines | frontend/src/App.js:381 | one `sender: text` line per transcript message, in order |
| Transcript.SummaryAppend | frontend/src/App.js:380-382 | appending a message to the transcript appends exactly its line to the summary, after a newline unless the transcript was empty |
| Transcript.SummaryRoundTrip | frontend/src/App.js:380-382 | when no line holds a newline, splitting the summary at newlines gives back exactly the transcript's lines |
| ChatClient.ChatSession.SenderName | frontend/src/App.js:67 | the user's messages are shown under the typed name, else the profile's name, else 'You', and never under an empty name |
| ChatClient.ChatSession.constructor | frontend/src/App.js:12-27 | the initial state: empty logs and options, bot active, not ended, not busy, no ticket, socket not bound |
| ChatClient.ChatSession.SeedGreeting | frontend/src/App.js:30-61 | an active bot with an empty transcript gets the greeting, the five initial options and the profile; otherwise nothing changes |
| ChatClient.ChatSession.RestoreFromStorage | frontend/src/App.js:464-480 | truthy stored ticket id, name and e-mail replace the current ones; a session with no ticket ends in step with storage |
| ChatClient.ChatSession.SelectOption | frontend/src/App.js:64-76 | only an offered option can be clicked, and only while the bot is active and the chat has not ended; the selection is appended to the transcript as a user message under `userName \|\| profile name \|\| 'You'` and its reply is scheduled; `messages` is not touched |
| ChatClient.ChatSession.DeliverBotReply | frontend/src/App.js:76-277 | the oldest scheduled reply appends exactly one bot message, applies its option update and effect, and is dequeued; nothing checks for a reset in between |
| ChatClient.ChatSession.Submit | frontend/src/App.js:281-461 | blank text changes nothing; with the bot active the text goes to the transcript, the fixed deflection is scheduled and no request is made; in human mode the message joins the thread, followed by the follow-up or new-ticket behaviour below; a session in step with storage stays in step |
| ChatClient.ChatSession.TypeToBot | frontend/src/App.js:288-311 | typed text is appended to the transcript and the deflection, never a table lookup, is scheduled |
| ChatClient.ChatSession.PostFollowup | frontend/src/App.js:313-359 | the follow-up request names the live ticket; a failed answer or a thrown error appends exactly one error message and clears the busy flag, and a success keeps the client busy |
| ChatClient.ChatSession.StoreIdentity | frontend/src/App.js:364-377 | a typed name or e-mail is stored; failing that the profile's is stored and adopted |
| ChatClient.ChatSession.OpenTicket | frontend/src/App.js:360-400 | the ticket request carries the text, the identity from before the storage writes, and the bot transcript for the summary; the outcome is applied as in RecordTicket |
| ChatClient.ChatSession.RecordTicket | frontend/src/App.js:402-456 | success makes the id live and stored, registers it only on a connected socket, appends the "submitted" notice and keeps the client busy; failure appends one error message, clears the busy flag and leaves ticket, storage and socket unchanged |
| ChatClient.ChatSession.OpenChannel | frontend/src/App.js:483-486 | a new socket's handlers capture the current `requestId`; it is not connected yet |
| ChatClient.ChatSession.CloseChannel | frontend/src/App.js:546-555 | the cleanup unregisters the id storage holds now, which is the live id whenever storage is in step, and disconnects |
| ChatClient.ChatSession.OnConnect | frontend/src/App.js:488-496 | connecting re-registers the captured id when there is one |
| ChatClient.ChatSession.OnDisconnect | frontend/src/App.js:498-501 | the socket is marked disconnected and nothing else changes |
| ChatClient.ChatSession.OnSupportResponse | frontend/src/App.js:503-525 | an event for the captured id appends exactly one agent message, under `responderName \|\| 'Support Team'`, and clears the busy flag; an event for any other id changes nothing |
| ChatClient.ChatSession.OnError | frontend/src/App.js:539-543 | a socket error clears the busy flag |
| ChatClient.ChatSession.CleanupConversation | frontend/src/App.js:564-575 | the busy flag is cleared and the stored id is unregistered only on a connected socket |
| ChatClient.ChatSession.StartNewConversation | frontend/src/App.js:577-589 | not busy, no ticket, both logs empty, bot active, not ended, stored id removed, the previous stored id unregistered when connected |
| ClientScenarios.TalkToAgentKeepsMenu | frontend/src/App.js:81-93 | after the greeting, 'Talk to a support agent' hands off and the initial menu stays in `suggestedOptions`, though nothing renders it while the bot is inactive |
| ClientScenarios.TicketThenRebind | frontend/src/App.js:402-556 | the first ticket is requested under the profile's identity; on the socket effect's re-run the cleanup unregisters the new ticket itself before the new socket registers it again |
| ClientScenarios.StaleReplyAfterReset | frontend/src/App.js:464-589 | on a page loaded with a stored ticket, the effect re-run after the restore unregisters it before it is registered, the reset unregisters it again, and a late reply for it is dropped, leaving the thread empty |
| ClientScenarios.ReplyForCurrentTicket | frontend/src/App.js:464-556 | on a page loaded with a stored ticket, the restore re-runs the socket effect (unregister, then register), and replies for that ticket are appended in order under the responder's name or 'Support Team' to the ticket thread, which the page does not show because the bot is still active |
| ClientScenarios.RefusedTicketThenRetry | frontend/src/App.js:423-437 | a refused ticket shows "Error: quota exceeded" once and frees the form; the next send asks for a new ticket and gets it |
| ClientScenarios.EndThenStartOver | frontend/src/App.js:30-109 | after 'Service outage' and 'No, I'll try something else' end the chat and a new conversation starts, the greeting and initial menu are re-seeded and the bot is active |
| ClientScenarios.LateReplyCrossesReset | frontend/src/App.js:64-589 | on the resolution menu, quick clicks on 'that's all' and 'another question', then a reset: the second reply still lands in the new transcript after the greeting and replaces the fresh initial menu with an empty one while the bot stays active |
| SupportBackend.Process | backend/app.py:504-580 | an already processed id changes nothing; a KeyError arises exactly for a new id of an entry without a Teams chat once a token was obtained; a reply is relayed exactly when the id is new, the chat and message exist, it is not the initial message and not a user echo; a relayed id is marked processed, the status becomes responded and the responder defaults to 'Support Agent'; otherwise the status stays, and a new id is marked processed exactly when it is a user echo, so a failed fetch leaves it unprocessed for a retry; only status and processed set ever change |
| SupportBackend.RelayedAtMostOnce | backend/app.py:509-573 | over any sequence of notifications for a request, every relayed id was unprocessed before, is processed after, and no id is relayed twice |
| SupportBackend.Members | backend/app.py:304-312 | the chat members are the team members with a truthy user id; a one-member team gives that member or nothing |
| SupportBackend.MembersAppend | backend/app.py:304-312 | the members of two teams in a row are the members of the first followed by those of the second, so the list has one entry per qualifying team member, in team order |
| SupportBackend.BuildMembers | backend/app.py:304-312 | the loop builds exactly `Members(team)` |
| SupportBackend.CreatedChat | backend/app.py:334-350 | a chat id exists only for a creation answered 200 or 201 that carries an id |
| SupportBackend.Deliver | backend/app.py:493-500 | one notification never adds or removes a request and relays at most one reply, recorded as its (`clientState`, message id) pair; an unknown `clientState` changes nothing; a KeyError leaves the table as it was |
| SupportBackend.Batch | backend/app.py:493-500 | a batch relays at most one reply per notification, and records the (request, message) pair of each reply in order |
| SupportBackend.BatchKeepsKeys | backend/app.py:493-500 | a webhook batch never adds or removes a request, and a batch whose `clientState`s are all unknown causes no processing |
| SupportBackend.TracksAfterWrite | backend/app.py:276 | writing an entry that keeps the processed set of the entry it replaces, or under a key the table does not hold yet, keeps every relayed message recorded |
| SupportBackend.Backend.constructor | backend/app.py:47 | the table starts empty |
| SupportBackend.Backend.SendFollowupMessage | backend/app.py:183-253 | missing id or message → 400 'Missing requestId or message'; unknown id → 404 'Unknown request ID'; no Teams chat → 400; only then is one post made, to that chat under the stored name, and the answer is 200 exactly when it was delivered, else 500 'Failed to send message to Teams'; the table is never changed |
| SupportBackend.Backend.SubmitSupportRequest | backend/app.py:256-422 | the fresh id is inserted as pending with the given name (default 'Anonymous User'), e-mail and message; the answer is success with that id on all four paths; the chat id is recorded only for a 200/201 creation, the initial message id only after it; a test reply is scheduled exactly when no chat was created; the relayed-once invariant holds |
| SupportBackend.Backend.AttachTeamsChat | backend/app.py:284-403 | only the new entry's chat id and initial message id change, the chat id only after a 200/201 creation with an id |
| SupportBackend.Backend.FetchAndProcess | backend/app.py:504-580 | the entry is updated and the reply emitted to the request's room exactly as `Process` says; an unknown id raises once a token exists; the history of relayed messages grows by exactly the (request, message) pair relayed, if any, and stays unchanged otherwise; the relayed-once invariant holds |
| SupportBackend.Backend.HandleNotification | backend/app.py:493-500 | a notification is processed only when its `clientState` is a key of the table; the relayed history grows by the pair it relays, if any |
| SupportBackend.Backend.HandleBatch | backend/app.py:493-500 | the notifications are processed in order, as `Batch` says, stopping at the first KeyError; the relayed history is extended by exactly the pairs `Batch` records, in order |
| SupportBackend.Backend.HandleNotifications | backend/app.py:481-502 | a validation token is echoed and nothing else happens; otherwise the batch is processed, the relayed history is extended by exactly the pairs `Batch` records, and the answer is 202, or an internal error after a KeyError |
| SupportBackend.Backend.HandleRegister | backend/app.py:587-603 | an id joins its room, and the "already provided" replay goes to the caller exactly when the entry exists and has responded |
| SupportBackend.Backend.HandleUserMessage | backend/app.py:605-610 | the echo goes to the named room only when a room is given |
| SupportBackend.Backend.HandleUnregister | backend/app.py:619-636 | an id leaves its room, `unregister_success` is emitted and a known entry becomes aborted; without an id only an error is emitted |

## Left out

- Rendering, auto-scroll and the input field's text (`frontend/src/App.js:558-561`, `591-747`, line 460). The facts the markup gates are kept as preconditions. Buttons are shown only while the bot is active and the chat has not ended (621, 660). The form is shown only while not ended (715) and is disabled while busy (722, 727). "Start New Conversation" is offered only with a ticket or after the end (735).
- `fetch`, socket.io and `sessionStorage` are collaborators. An HTTP result is an `ApiOutcome` parameter: a JSON answer or a thrown error. Emits are recorded in `outbox`. Storage is a map field. A single `connected` flag stands for both `socketRef.current.connected` and the displayed `isConnected`.
- `handleSubmit` is applied in one step. Its `await` is folded in, so other events between the request and its answer are not modelled.
- The React effect machinery is not modelled as such. The socket effect's re-run on every `requestId` change is made of explicit `CloseChannel`/`OpenChannel`/`OnConnect` calls in the scenarios. The greeting effect re-runs only where a scenario calls `SeedGreeting`.
- `setTimeout` delays are the `pending` queue, which a caller drains with `DeliverBotReply`. The source has no generation guard on these callbacks, so the model asserts none.
- Clocks and `uuid4` are parameters. `SubmitSupportRequest` requires only that the id is not yet a key of the table.
- `handleOptionSelect` is modelled only for the texts that ever appear on a button (the `Choice` type), and a click only for an option currently offered. The `default` branch is reached through those texts, for example 'Service outage' or a sub-menu item.
- The `user_message_echo` and `unregister_success` client handlers only log (528-536), so they are not modelled.
- MSAL and device-code token acquisition, the token cache, and every Graph REST call are left out (`backend/app.py:49-180`, `322-332`, `438-479`, `521-524`, `638-670`). What they answered is a parameter: `ChatCreation`, `InitialPost`, `Fetch`, `delivered`, and the `team` list that the import-time e-mail lookups would produce.
- `send_test_response` is left out: its background task and two-second sleep (424-436) are recorded only as a scheduled `TestReply`.
- The HTML stripping and the `From ...:` echo regex (536-552) are abstract fields of `GraphMessage`.
- `SupportBackend.Backend.SendFollowupMessage`: the `except` branch (245-253) is not modelled. `send_message_with_delegated_auth` catches all of its own exceptions (132-180), so that branch is unreachable.
- `SupportBackend.Backend.AttachTeamsChat`: does not record `teams_chat_link` (393-394) or the subscription's `subscription_id` (472). Nothing in the core reads either field.
- `FetchAndProcess`, `HandleNotifications` and the other backend handlers are modelled as running one at a time. `socketio.run` (`backend/app.py:675`) serves requests concurrently, and `fetch_and_process_chat_message` checks `processed_messages` (509) and adds to it (573) with a Graph call in between (521), so two deliveries of the same notification can both relay it. `RelayedAtMostOnce` and `Valid()` hold only for serialized handling.
- `Transcript.SummaryRoundTrip` requires that no line holds a newline. The troubleshooting reply (`frontend/src/App.js:168`) contains newlines, so the summary of a transcript that went through 'Show troubleshooting steps' cannot be split back into its lines.
- Console logging and `print` output are left out, as are server rooms beyond a set of joined ids.
