# SuccessSync: a verified model of the request gate, the data assistant and the chat client

SuccessSync is a customer-success dashboard. A TypeScript server exposes a
REST API and a WebSocket channel. A React client shows the clients, the
conversations, the test assignments and the ROI metrics, and offers a data
assistant chat. This project models the logic of both halves in Dafny and
proves what that logic promises.

Server (`routes.ts`):

- `Auth`: the `authenticate` bearer-token middleware. The storage session
  lookup is a port that records every lookup made through it.
- `Policy`: every HTTP route as one decision function from the
  `Authorization` header, the route and its parameters, and the storage state
  to a status and body. Public and guarded routes are kept apart. The roles
  are `csm`, `client` and any other role.
- `Assistant`: `handleDataAssistantQuery`. The query is lower-cased and the
  first matching keyword group picks a templated answer over a snapshot of
  what storage returns.
- `Realtime`: the WebSocket channel. It keeps the set of sockets, answers a
  `chat_message` frame to its sender, and stores a `conversation_message`
  frame and broadcasts it. The broadcast is a loop over the sockets that
  fills an outbox.

Client:

- `DataChat`: the Data Chat page (`data-client.tsx`).
- `DataAssistantCard`: the Data Assistant card (`data-assistant.tsx`).
- `TestStatus`: the status tally (`test-status.tsx`).
- `RoiChart`: the quarterly grouping of ROI metrics (`roi-chat.tsx`).
- `Sidebar`: the navigation, the initials and the role label (`sidebar.tsx`).

Two supporting modules hold what the code borrows from JavaScript:

- `Js`: string-or-null-or-undefined values, truthiness and `||`.
- `Text`: `toLowerCase`, `includes`, `trim`, `split`, `join`, `slice`, and
  number rendering.

State-changing code is modelled as classes whose methods change named fields:

- the middleware's request and response;
- the socket set and its outbox;
- the two chat components' `messages`, `inputValue` and `isTyping`.

Each such method states its new state in terms of the old one, and keeps an
invariant of its class. The `quarterlyData` reduce is a method with a loop,
proved against the functions that define the groups.

Where the code's behaviour differs from what its own names and labels
announce, the model follows the code:

- The Data Chat page's quick query labelled "Recent activity" (id
  `recent-activity`, data-client.tsx:65-66) sends "Summarize recent client
  activities". The responder tests the client keywords first, so the button
  gets the active-client count, not the recent activities. The page model
  sends the text as written; the corrected list is kept beside it (see
  Findings).
- Several guarded routes do not check the role at all. These are creating a
  conversation, reading a client, reading messages and posting a message.
  For them, a user whose role is neither `csm` nor `client` is admitted like
  a csm.
- A client-role user posting a message into a conversation that does not
  exist is refused with 403. This is because `conversation?.clientId` is
  `undefined`. The exception is a client-role user whose own `clientId` is
  also undefined: that user passes.

## Model

| member | source | states |
|---|---|---|
| `Js.Or` | routes.ts:125 | `v || fallback` is the value's text when the value is a non-empty string and the fallback otherwise |
| `Text.Lower` | routes.ts:425 | lower-casing keeps the length and maps each character to its lower-case form |
| `Text.Upper` | sidebar.tsx:54 | upper-casing keeps the length and maps each character to its upper-case form |
| `Text.LowerAppend` | routes.ts:425 | lower-casing a concatenation lower-cases each part |
| `Text.LowerOfUpper` | routes.ts:425 | lower-casing forgets any earlier upper-casing |
| `Text.ContainsIffOccurs` | routes.ts:427 | `includes` holds exactly when the needle occurs at some position |
| `Text.ContainsEmbedded` | routes.ts:427 | a text that embeds the needle includes it |
| `Text.TrimStart` | data-client.tsx:100 | the result is a suffix that starts with no white space, and everything dropped is white space |
| `Text.TrimEnd` | data-client.tsx:100 | the result is a prefix that ends with no white space, and everything dropped is white space |
| `Text.TrimEmptyIffBlank` | data-client.tsx:100 | `trim()` is empty (falsy) exactly when every character is white space |
| `Text.Split` | sidebar.tsx:54 | a split yields at least one piece, and no piece holds the separator |
| `Text.JoinSplit` | sidebar.tsx:54 | joining the pieces of a split with the separator gives back the text |
| `Text.SplitCount` | sidebar.tsx:54 | a split has one piece more than the text has separators |
| `Text.SplitAtFirst` | roi-chat.tsx:73 | splitting at a first separator yields the text before it, then the pieces of the rest |
| `Text.SplitWithoutSeparator` | roi-chat.tsx:73 | a text without the separator splits into itself alone |
| `Text.JoinStartsWithFirst` | data-client.tsx:157 | a join starts with its first part, followed by the separator when more parts come |
| `Text.JoinAppend` | data-client.tsx:157 | joining one more part appends the separator and the part |
| `Text.CountOf` | routes.ts:434 | an occurrence count never exceeds the length |
| `Text.CountOfAppend` | routes.ts:440-441 | counts add over concatenation |
| `Text.Take` | routes.ts:446 | storage's limit of 3 gives the first min(3, n) items |
| `Text.LastN` | roi-chat.tsx:35 | `slice(-n)` gives the last min(n, length) items, in order |
| `Text.DigitChar` | routes.ts:442 | a digit renders as a character between '0' and '9' |
| `Text.NatToString` | routes.ts:442 | a count renders as a non-empty run of digits, with no leading zero except for 0 |
| `Text.NatToStringRoundTrip` | routes.ts:442 | reading the rendered digits back gives the number |
| `Text.NatToStringInjective` | routes.ts:442 | different counts render differently |
| `Auth.BearerToken` | routes.ts:24-28 | a token exists exactly when the header starts with "Bearer ", and the header is "Bearer " followed by the token |
| `Auth.BearerTokenRoundTrip` | routes.ts:24-28 | prefixing a token with "Bearer " and stripping seven characters gives the token back |
| `Auth.SessionCheck` | routes.ts:22-37 | the middleware's decision: admitted exactly when the header carries a bearer token that has a session, with a user storage holds; every rejection is "Unauthorized" or "Invalid or expired token" |
| `Auth.AdmittedIff` | routes.ts:22-37 | a request is admitted with a user exactly when its header is "Bearer " plus a token whose session is that user |
| `Auth.MalformedHeaderRejected` | routes.ts:24-26 | a missing or malformed header is rejected as "Unauthorized" whatever the sessions |
| `Auth.SessionPort.ValidateSession` | routes.ts:29 | the lookup is recorded, and it returns a user exactly when the token has a session, namely that session's user |
| `Auth.Authenticate` | routes.ts:22-37 | a malformed header gives 401 with no lookup; an unknown token gives 401 after one lookup; otherwise the user is attached and `next` is called, and nothing else changes |
| `Policy.Handle` | routes.ts:92-418 | every route: an error status (400 and up) exactly when the body is an error; a guarded route answers 401 exactly when `authenticate` rejects; a public route answers 401 only for a failed login |
| `Policy.HandlePublic` | routes.ts:92-418 | the routes registered without `authenticate` answer 200, 201, 400, 401 or 404, with an error body exactly for the errors, and 401 only from login (lines 92-105, 314-418) |
| `Policy.HandleGuarded` | routes.ts:107-346 | a route past `authenticate` answers 200, 201, 400, 403 or 404, never 401, with an error body exactly for the errors, and never answers a csm with 403 |
| `Policy.GuardedMalformedHeader` | routes.ts:24-26 | a guarded route with a missing or malformed header answers 401 "Unauthorized", whatever storage holds |
| `Policy.GuardedUnknownToken` | routes.ts:29-33 | a well-formed header whose token has no session answers 401 "Invalid or expired token" |
| `Policy.GuardedUnauthorizedIff` | routes.ts:22-37 | a guarded route answers 401 exactly when the session check rejects the header |
| `Policy.PublicNeverUnauthorized` | routes.ts:314-402 | routes without `authenticate` (login aside) never answer 401, and do not depend on the header or the sessions |
| `Policy.ActivitiesDefaultLimit` | routes.ts:386 | with no truthy `limit`, storage is asked for 10 activities |
| `Policy.CsmListsAllClients` | routes.ts:138-141 | a csm gets every client |
| `Policy.ClientListsOnlyOwnClient` | routes.ts:142-148 | a client-role user with no client gets 403; otherwise a list of at most one client, its own, present exactly when storage has it |
| `Policy.OtherRoleCannotListClients` | routes.ts:149-151 | any other role gets 403 "Unauthorized role" |
| `Policy.GetClientOwnership` | routes.ts:180-187 | a client-role user asking for another client gets 403 before any lookup; otherwise a missing client gets 404 and a present one 200 |
| `Policy.GetOtherClientScenario` | routes.ts:180-182 | a user of client c1 asking for client c2 is refused |
| `Policy.CsmOnlyActions` | routes.ts:162-164 | creating clients, listing tests and creating tests answer 403 to every role but csm, before validation (also 285-287, 302-304) |
| `Policy.ClientConversationsScoped` | routes.ts:205-207 | a client-role user's conversation list is scoped to its own client, whatever filters it passes |
| `Policy.ClientOwnership` | routes.ts:224-226 | a client-role user is refused exactly when the conversation it creates, reads or writes into belongs to another client (also 248-250, 265-269) |
| `Policy.CsmNeverForbidden` | routes.ts:134-346 | a csm is never answered 403 on any guarded route |
| `Policy.ValidationBeforeOwnership` | routes.ts:221-231 | a body the schema rejects answers 400 on the conversation and message routes, before any ownership check |
| `Assistant.Classify` | routes.ts:425-448 | whichever keyword group is chosen, the lower-cased query mentions one of its keywords |
| `Assistant.RoiAnswer` | routes.ts:427-430 | the ROI answer carries the average ROI right after its lead and ends with " active clients." |
| `Assistant.ClientAnswer` | routes.ts:432-436 | the client answer carries the number of active clients, in decimal, right after its lead, and ends with the top ROI and "%." |
| `Assistant.TestAnswer` | routes.ts:438-443 | the test answer carries the number of completed assignments, in decimal, right after its lead, and ends with its fixed tail |
| `Assistant.ActivityAnswer` | routes.ts:445-448 | the activity answer carries the first three titles joined by ", " right after its lead, and ends with its fixed tail |
| `Assistant.LeadsApart` | routes.ts:427-451 | the help text and the four answers' leads begin with different letters |
| `Assistant.Respond` | routes.ts:423-452 | the help text is the answer exactly when no keyword group matches; each other answer starts with its own group's lead |
| `Assistant.ClassifyIffFirstGroup` | routes.ts:425-451 | a keyword group is chosen exactly when the lower-cased query mentions one of its keywords and none of an earlier group's; the help answer exactly when it mentions none |
| `Assistant.KeywordFoundInAnyCase` | routes.ts:425-427 | a keyword written anywhere in the query, in any mix of letter cases (any spelling that lower-cases to it), is found |
| `Assistant.RoiTakesPriority` | routes.ts:427-432 | a query mentioning "roi" in any mix of letter cases takes the ROI answer, whatever else it mentions |
| `Assistant.MixedCaseRoiScenario` | routes.ts:425-430 | "How is my Roi?" takes the ROI answer |
| `Assistant.ClassifyIgnoresCase` | routes.ts:425 | classification does not depend on letter case |
| `Assistant.NotContainedByChar` | routes.ts:427 | a needle whose k-th character appears in the text only before position k does not occur in it |
| `Assistant.RoiScenario` | routes.ts:427-430 | "what's my roi" with average ROI "150%" and 5 active clients gets the ROI sentence with those values |
| `Assistant.RecentActivityIsActivity` | routes.ts:445-448 | "recent activity", in any case, takes the activity answer |
| `Assistant.ActivityScenario` | routes.ts:445-448 | the activity answer lists the three most recent titles joined by ", " between its fixed lead and tail |
| `Assistant.RecentClientActivitiesScenario` | routes.ts:432-436 | "Summarize recent client activities" takes the client answer |
| `Assistant.TestCountsBounded` | routes.ts:440-442 | the completed and in-progress counts together never exceed the number of assignments |
| `Realtime.BroadcastTo` | routes.ts:72-79 | the broadcast loop sends at most one frame per socket, each carrying the broadcast event |
| `Realtime.Reactions` | routes.ts:48-84 | every frame the handler sends goes to an OPEN socket; an unparseable frame or another type sends nothing; a chat answer goes only to its sender |
| `Realtime.OpenInSplit` | routes.ts:72-79 | a socket is OPEN in the set exactly when it is OPEN among the earlier entries or is the open last entry, and with distinct ids not both |
| `Realtime.BroadcastExactlyOnce` | routes.ts:72-79 | with distinct socket ids, a broadcast reaches each OPEN socket exactly once and every other socket never |
| `Realtime.BroadcastOnlyToOpen` | routes.ts:72-79 | every delivery of a broadcast carries the broadcast event to an OPEN socket |
| `Realtime.DeliveriesToAppend` | routes.ts:72-79 | deliveries to one socket add over concatenated outboxes |
| `Realtime.Without` | routes.ts:43-45 | the `ws` server's client tracking drops a closed socket from `wss.clients` and keeps exactly the others; the `close` handler at lines 86-88 only logs |
| `Realtime.WithoutKeepsDistinct` | routes.ts:43-45 | dropping a socket from `wss.clients` keeps the ids distinct |
| `Realtime.ChatAnsweredToSenderOnly` | routes.ts:52-59 | a `chat_message` with a query gets at most one `chat_response`, to its sender, carrying the responder's answer; it gets one exactly when the sender's socket is still OPEN, since `ws.send` on a socket that is not OPEN sends nothing |
| `Realtime.BadFramesSwallowed` | routes.ts:48-83 | an unparseable frame, another type, or a chat frame without a query sends nothing |
| `Realtime.Channel.constructor` | routes.ts:43 | the channel starts with no sockets, nothing sent and nothing written |
| `Realtime.Channel.Connect` | routes.ts:45 | a new socket joins the set, open, under an id no other socket has |
| `Realtime.Channel.BeginClose` | routes.ts:73 | a closing socket stays in the set but is no longer OPEN |
| `Realtime.Channel.Disconnect` | routes.ts:43-45 | the `ws` server's client tracking removes a closed socket from `wss.clients`, and the others keep their order (the `close` handler at lines 86-88 only logs) |
| `Realtime.Channel.OnFrame` | routes.ts:48-84 | the outbox grows by exactly the frame's reactions (a chat answer only while the sender is OPEN), and storage is written once for a conversation message and otherwise never |
| `DataChat.AsWrittenRecentActivityMisrouted` | data-client.tsx:64-69 | the "Recent activity" quick query as written is classified as a client question |
| `DataChat.RecentActivityQuickQueryIsActivity` | data-client.tsx:64-69 | the corrected "Recent activity" quick query is classified as a recent-activity question |
| `DataChat.WithoutTyping` | data-client.tsx:76 | the filter leaves no typing placeholder and never grows the transcript |
| `DataChat.WithoutTypingAppend` | data-client.tsx:76 | filtering distributes over concatenation |
| `DataChat.WithoutTypingIdle` | data-client.tsx:76 | a transcript without a placeholder passes the filter unchanged |
| `DataChat.ExportLines` | data-client.tsx:156 | one "You: …" or "Assistant: …" line per message, in order |
| `DataChat.ExportText` | data-client.tsx:153-157 | the export is empty when no visible message remains, and otherwise starts with the first visible message's line |
| `DataChat.ExportIgnoresPlaceholder` | data-client.tsx:154-157 | a typing placeholder never shows in the export |
| `DataChat.ExportAppendVisible` | data-client.tsx:154-157 | one more visible message adds "\n\n" and its line to the export |
| `DataChat.FilterAfterSend` | data-client.tsx:76 | after a send, the filter leaves the old transcript and the user's message, without the placeholder |
| `DataChat.ExportAfterExchange` | data-client.tsx:73-157 | a send and its answer add exactly "You: text" and "Assistant: answer" lines to the export |
| `DataChat.Chat.constructor` | data-client.tsx:28-37 | the page opens with the single welcome message, an empty input, no wait and nothing sent |
| `DataChat.Chat.SetInput` | data-client.tsx:337 | typing replaces the input |
| `DataChat.Chat.SendMessage` | data-client.tsx:98-129 | blank text (`messageText || inputValue`) changes nothing; otherwise one user message and one placeholder are appended, the wait starts, a `chat_message` with that text goes out and the input is cleared |
| `DataChat.Chat.KeyPress` | data-client.tsx:131-136 | Enter without Shift sends the input; any other key changes nothing |
| `DataChat.Chat.QuickQuerySend` | data-client.tsx:138-140 | a quick query sends its own text, or the input when that text is empty |
| `DataChat.QuickQueryTextsNonEmpty` | data-client.tsx:45-70 | every quick query the page lists has a non-empty text |
| `DataChat.Chat.PressQuickQuery` | data-client.tsx:183-190 | a quick-query button sends that entry's query text as the page lists it, so the "Recent activity" button sends "Summarize recent client activities" |
| `DataChat.Chat.OnServerEvent` | data-client.tsx:73-86 | a `chat_response` removes every placeholder, appends one assistant message with its text and timestamp, and ends the wait; other frames change nothing |
| `DataChat.Chat.ClearChat` | data-client.tsx:142-151 | the transcript becomes the single "Chat cleared!" message; the wait flag is untouched |
| `DataAssistantCard.Card.constructor` | data-assistant.tsx:17-26 | the card opens with the single greeting "Let's start a product test?" |
| `DataAssistantCard.Card.SetInput` | data-assistant.tsx:151 | typing replaces the input |
| `DataAssistantCard.Card.SendMessage` | data-assistant.tsx:53-73 | blank input changes nothing; otherwise exactly one user entry with the untrimmed input is appended, the wait starts, that input goes out and the box is cleared |
| `DataAssistantCard.Card.KeyPress` | data-assistant.tsx:75-80 | Enter without Shift sends; any other key changes nothing |
| `DataAssistantCard.Card.OnServerEvent` | data-assistant.tsx:31-44 | a `chat_response` appends exactly one assistant entry, removes nothing and ends the wait; other frames change nothing |
| `TestStatus.Keys` | test-status.tsx:34 | each status becomes the property name it indexes |
| `TestStatus.Tally` | test-status.tsx:33-36 | the reduce has an entry for every assignment's status, and each entry is between 1 and the number of assignments |
| `TestStatus.StatusCounts` | test-status.tsx:33-36 | an undefined assignment list gives the empty tally; otherwise each entry is between 1 and the number of assignments |
| `TestStatus.TallyCounts` | test-status.tsx:33-35 | the tally of a status is the number of assignments with it, and a status is present exactly when that number is positive |
| `TestStatus.UndefinedTallyEmpty` | test-status.tsx:36 | an undefined assignment list shows zero for every status |
| `TestStatus.StatusRows` | test-status.tsx:38-63 | four rows in the order completed, in_progress, pending, overdue, each showing its status's count or 0 |
| `TestStatus.RowsShowCounts` | test-status.tsx:38-63 | four rows in the order completed, in_progress, pending, overdue, each counting its status (zero when absent) |
| `TestStatus.ShownCount` | test-status.tsx:38-63 | the number of shown statuses never exceeds the number of assignments |
| `TestStatus.ShownCountIsSum` | test-status.tsx:38-63 | the shown statuses are the four rows' counts together |
| `TestStatus.ShownCountFull` | test-status.tsx:38-63 | every assignment is shown exactly when every status is one of the four |
| `TestStatus.AllShownKeys` | test-status.tsx:33-63 | every property key is one of the four exactly when every status coerces to one of the four |
| `TestStatus.RowSumIsShownCount` | test-status.tsx:33-63 | the four rows' counts add up to the number of assignments whose status is one of the four |
| `TestStatus.RowSumOfFour` | test-status.tsx:38-63 | the rows' total is the sum of their four counts |
| `TestStatus.ShownSumBounded` | test-status.tsx:33-63 | the shown counts add up to at most the number of assignments, and exactly to it when every status is one of the four |
| `RoiChart.QuarterKey` | roi-chat.tsx:27 | a metric's key is its quarter, then one space, then a non-empty year text |
| `RoiChart.FirstAppearance` | roi-chat.tsx:26-33 | the keys are exactly the metrics' keys, each once |
| `RoiChart.Group` | roi-chat.tsx:26-33 | a group holds only metrics of its key and never more than the input |
| `RoiChart.GroupOccurrences` | roi-chat.tsx:26-33 | every metric lands in its own key's group as often as it occurs, and in no other group |
| `RoiChart.GroupOfAbsentKey` | roi-chat.tsx:28-30 | a key no metric has has an empty group |
| `RoiChart.KeysGrowStep` | roi-chat.tsx:26-33 | one more metric adds its quarter key to the first-appearance order exactly when that key is new |
| `RoiChart.GroupGrowStep` | roi-chat.tsx:26-33 | one more metric joins the end of its own quarter's group and leaves every other group as it was |
| `RoiChart.PushKey` | roi-chat.tsx:26-33 | creating the group for a new key appends that key to the first-appearance order |
| `RoiChart.PushGroup` | roi-chat.tsx:26-33 | after one push, the group under any key is that key's group over one more metric |
| `RoiChart.PushMetric` | roi-chat.tsx:26-33 | the loop step: after creating the group if missing and pushing the metric, the grouping describes one more metric of the input |
| `RoiChart.GroupByQuarter` | roi-chat.tsx:26-33 | the keys come in first-appearance order, the groups are keyed by exactly those keys, each group is its metrics in input order, and undefined input gives no groups |
| `RoiChart.DisplayedQuarters` | roi-chat.tsx:35 | the drawn quarters are the last min(4, n) keys, in order |
| `RoiChart.BarColor` | roi-chat.tsx:64 | a bar is either highlighted or default, and highlighted exactly when it is the last |
| `RoiChart.BarLabel` | roi-chat.tsx:73 | a bar's label is the key up to its first space: a space-free prefix of the key, followed in the key by a space unless it is the whole key |
| `RoiChart.OnlyLastHighlighted` | roi-chat.tsx:64 | exactly the last bar gets the highlight colour |
| `RoiChart.LabelIsQuarter` | roi-chat.tsx:73 | a bar's label is its quarter, when the quarter has no space |
| `Sidebar.NavigationForRole` | sidebar.tsx:17-39 | a csm gets 7 items with Clients and Testing; every other role gets 5 without them; every list starts with Dashboard "/" and ends with Data Chat "/data-chat" |
| `Sidebar.BaseEmbedsInCsm` | sidebar.tsx:18-35 | the base list is the csm list without Clients and Testing, in the same order |
| `Sidebar.WordHeads` | sidebar.tsx:54 | one head per word, in order |
| `Sidebar.FirstLetters` | sidebar.tsx:54 | there are at most as many first letters as words |
| `Sidebar.FirstLettersLength` | sidebar.tsx:54 | there are exactly as many first letters as non-empty words |
| `Sidebar.JoinedHeads` | sidebar.tsx:54 | joining the heads with "" gives the first letters of the non-empty words |
| `Sidebar.Initials` | sidebar.tsx:53-55 | the initials hold no lower-case ASCII letter and are no more than the space-separated words |
| `Sidebar.InitialsAreFirstLetters` | sidebar.tsx:53-55 | the initials are the upper-cased first letters of the non-empty space-separated words, at most one per word |
| `Sidebar.TwoWordInitials` | sidebar.tsx:53-55 | a first and a last name give the two upper-cased first letters |
| `Sidebar.RoleDisplayName` | sidebar.tsx:57-59 | "Customer Success Manager" exactly for csm, "Client" for every other role |
| `Sidebar.SidebarView` | sidebar.tsx:45-59 | nothing is drawn exactly when there is no user; otherwise the user's role navigation and role name, and at most one initial per word |

## Left out

- The storage module is not part of this model. Its state is an abstract
  `Store` value (sessions, accounts, client ids, conversation owners, test
  and assignment ids). Its create, update and delete effects are not
  modelled. This includes logout's session deletion, which the model does
  not carry into a later request.
- Storage failures are not modelled: the 500 answers, and the 400 answers
  that a storage error thrown inside a validating `try` would produce.
- The schema validators are not part of this model. A parsed body is
  present or absent, and a validity flag stands for the rest.
- A conversation whose stored `clientId` is null is not modelled. Conversation
  owners are strings.
- `getDashboardMetrics` and ROI arithmetic are left out: averages,
  `parseFloat`, `Math.max`, bar heights and `toFixed`. These values enter the
  model as already-rendered text in `Assistant.Snapshot`, or not at all.
- The client answer's inputs are not computed from storage's records. They
  are given as the client statuses and the top ROI's rendered number.
- Express and `ws` plumbing is left out, as is logging.
  - `JSON.parse` is replaced by the `Realtime.Frame` datatype.
  - A parsed value that is not an object is treated like an unparseable frame.
  - A send that fails on one socket is not modelled.
- Concurrency between sockets and the asynchronous interleaving of handlers
  are not modelled. Each frame is handled to completion.
- Clocks and randomness are parameters: `Date.now()` (message ids), `new
  Date().toISOString()` (timestamps) and the random count of the Gmail sync
  stub.
- The export download (Blob, object URL, the anchor click) is left out. So
  are the scroll effects and all rendering.
- The socket and query hooks are not part of this model. Their connection
  state is left out. So is the disabling of the input and the buttons while
  waiting or disconnected: the handlers are modelled as they run when called.
- Case mapping covers the ASCII letters only. JavaScript's `toLowerCase` and
  `toUpperCase` map the whole Unicode range, can change the length ("ß"
  upper-cases to "SS") and work on UTF-16 code units. The model's strings are
  sequences of code points, so `n[0]` of a word that starts with an astral
  character is one whole character here and half a surrogate pair in
  JavaScript.
- ClassifyIgnoresCase: holds for the model's ASCII case mapping only. In
  JavaScript "roı" (dotless i) is a help question while its upper-case form
  "ROI" is an ROI question.
- KeywordFoundInAnyCase: "any mix of letter cases" means the ASCII letter
  cases; a spelling that only Unicode case mapping turns into the keyword is
  not covered.
- InitialsAreFirstLetters: one initial per non-empty word holds for ASCII
  text only. In JavaScript `getInitials("ßen")` gives "SS", two initials for
  one word.
- SidebarView: its bound of at most one initial per word holds for ASCII
  text only, for the reason given for InitialsAreFirstLetters.
- Initials: the bound and the absence of lower-case letters are stated for
  the model's ASCII case mapping; Unicode lower-case letters outside ASCII
  are not upper-cased by the model.
- Property keys are modelled for strings, null and undefined. Other key types
  are left out, as are inherited names such as `__proto__`.
- `parseInt` of the activities `limit` is kept as the text handed to it
  (`Policy.Limit`).
- header.tsx, metrics-card.tsx and quick-actions.tsx are not part of this
  model.

## Findings

| source | as written | input that shows it | evidently intended | confidence | as-written member | corrected member |
|---|---|---|---|---|---|---|
| data-client.tsx:64-69 | the quick query labelled "Recent activity" (id `recent-activity`) sends "Summarize recent client activities", which the responder (routes.ts:432) files under client questions before it tests the activity keywords | pressing the "Recent activity" button: the answer is the active-client count, not the recent activities | the button gets the recent-activity answer, so its query must avoid the ROI, client and test keywords (for example "Recent activity") | medium, not executed | `DataChat.AsWrittenRecentActivityMisrouted` | `DataChat.RecentActivityQuickQueryIsActivity` |
