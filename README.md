# ChittyChat dashboard: a Dafny model of its storage, API and client logic

This project models the core of the AI-agent dashboard, from the server to the client.

- **Server storage.** The in-memory store `MemStorage` holds seven tables, each a JavaScript `Map` keyed by id that keeps insertion order. The model covers its seed data, the create, read, update and delete operations, and the user-scoped queries with their filters, sorts and limits.
- **Express routes.** Every handler of the REST API is modelled, with its status codes and its error bodies. The dashboard statistics aggregation is modelled too. So is the chat route's canned assistant reply, which is scheduled one second after a user message.
- **`useWebSocket` hook.** The reconnect logic is modelled with its sockets, attempt counter, reconnect timers and "Connection Lost" notice.
- **Dashboard components.**
  - The three `formatTimeAgo` helpers.
  - The colour and icon tables.
  - The agent pause/resume toggle.
  - The sidebar's "mark all read" request.

State the source changes in place is modelled in place:

- `Storage.MemStorage` is a class whose fields are the seven tables.
- `WebSocketHook.ReconnectingSocket` is a class whose fields are the hook's refs.
- `markAllNotificationsRead` is a loop over a snapshot of the user's notifications, proved against the function `Queries.MarkAllRead`.

The queries, record builders, merges and UI tables are pure functions. The route handlers are methods over the store.

Effects from the environment are passed in as parameters:

- `randomUUID()` becomes an `id`.
- `new Date()` becomes a `now` timestamp in milliseconds.
- `Math.random()` becomes a `random` real in [0, 1).
- The outcome of a zod `parse` becomes a `Parsed`/`Rejected` value.
- Each browser callback becomes an event.

Modules:

- `Wrappers`: Option.
- `Schema`: record shapes, defaults and JSON values.
- `JsMap`: an insertion-ordered map.
- `Lists`: filter, newest-first sort and name sort.
- `Records`: record builders and `{...a, ...b}` merges.
- `Queries`: the store's reads as functions.
- `Storage`: the seed and the `MemStorage` class.
- `Routes`: the handlers and the statistics.
- `WebSocketHook`: the hook as written, the corrected hook and its class.
- `TimeAgo`: the three time labels.
- `DashboardUi`: the colour and icon tables and the client requests.

## Model

| member | source | states |
|---|---|---|
| JsMap.OrderedMap.Get | server/storage.ts:279 | `map.get` is present exactly for inserted keys, with the value listed at that key's position |
| JsMap.OrderedMap.Values | server/storage.ts:275 | `Array.from(map.values())` lists one value per key, in insertion order |
| JsMap.OrderedMap.Set | server/storage.ts:295-304 | `map.set` overwrites a present key in place and appends a new one; other keys are unaffected |
| JsMap.OrderedMap.Delete | server/storage.ts:309 | `map.delete` removes the key and keeps the others in order; an absent key changes nothing |
| Storage.SeedState | server/storage.ts:70-239 | the seeded tables hold the seed rows in insertion order, keyed by their own ids (notifications by their id) |
| Storage.KeyedByOwnId | server/storage.ts:212 | in a table built with `set(row.id, row)` every row is stored under its own id |
| Storage.MemStorage.constructor | server/storage.ts:66-68 | a new store is valid and holds exactly the seed |
| Storage.MemStorage.GetUser | server/storage.ts:242-244 | the user stored under the id, or none |
| Storage.MemStorage.GetUserByUsername | server/storage.ts:246-248 | the first user in insertion order with that username, none iff no user has it |
| Storage.MemStorage.CreateUser | server/storage.ts:250-262 | the defaulted user is stored under the new id; the other tables are unchanged |
| Storage.MemStorage.UpdateUser | server/storage.ts:264-271 | an unknown id changes nothing; otherwise the merged user replaces the old one in place |
| Storage.MemStorage.GetAgents | server/storage.ts:274-276 | the user's agents, in the table's insertion order (a subsequence of its values) and each as often as it is stored |
| Storage.MemStorage.GetAgent | server/storage.ts:278-280 | the agent stored under the id, or none |
| Storage.MemStorage.CreateAgent | server/storage.ts:282-297 | the defaulted agent is stored under the new id |
| Storage.MemStorage.UpdateAgent | server/storage.ts:299-306 | an unknown id changes nothing; otherwise the merged agent with lastActive = now replaces the old one |
| Storage.MemStorage.DeleteAgent | server/storage.ts:308-310 | true iff the id was present; the agent is removed and the order of the others kept |
| Storage.MemStorage.GetActivities | server/storage.ts:313-321 | the user's newest `limit` activities, newest first |
| Storage.MemStorage.CreateActivity | server/storage.ts:323-335 | the defaulted activity is stored under the new id |
| Storage.MemStorage.GetSystemMetrics | server/storage.ts:338-348 | the newest `limit` metrics (of a type, when a truthy one is given), newest first |
| Storage.MemStorage.CreateSystemMetric | server/storage.ts:350-360 | the metric is stored with metadata `{}` |
| Storage.MemStorage.GetChatMessages | server/storage.ts:363-368 | the user's newest `limit` messages, newest first |
| Storage.MemStorage.CreateChatMessage | server/storage.ts:370-379 | the message is stored under the new id |
| Storage.MemStorage.GetNotifications | server/storage.ts:382-386 | the user's (unread) notifications, newest first |
| Storage.MemStorage.CreateNotification | server/storage.ts:388-397 | the notification is stored under the new id |
| Storage.MemStorage.MarkNotificationRead | server/storage.ts:399-406 | false and no change for an unknown id; otherwise that notification is read and nothing else changes |
| Storage.MemStorage.MarkAllNotificationsRead | server/storage.ts:408-418 | the loop over the snapshot leaves the table equal to `MarkAllRead` of the old table |
| Storage.MemStorage.GetIntegrations | server/storage.ts:421-425 | the user's integrations ordered by name |
| Storage.MemStorage.CreateIntegration | server/storage.ts:427-436 | the integration is stored with no lastSync |
| Storage.MemStorage.UpdateIntegration | server/storage.ts:438-445 | an unknown id changes nothing; otherwise the merged integration with lastSync = now replaces the old one |
| Records.NewUser | server/storage.ts:250-262 | id and createdAt are the given ones; a non-empty role is kept and a missing or empty one becomes "user"; a given score is kept and a missing one becomes 0; isVerified is true iff the payload says true, and false otherwise |
| Records.NewAgent | server/storage.ts:282-297 | a non-empty status and performance are kept, a missing or empty one becomes "active" and "0.00"; a truthy configuration is kept, a falsy one becomes `{}`; an empty description or userId becomes null, any other value is kept |
| Records.NewActivity | server/storage.ts:323-335 | truthy metadata is kept, falsy metadata becomes `{}`; an empty description or agentId becomes null, any other value is kept |
| Records.NewSystemMetric | server/storage.ts:350-360 | the payload's fields with metadata `{}` |
| Records.NewChatMessage | server/storage.ts:370-379 | the payload is kept unchanged |
| Records.NewNotification | server/storage.ts:388-397 | the payload is kept unchanged; isRead gets no default |
| Records.NewIntegration | server/storage.ts:427-436 | the payload is kept unchanged and lastSync is unset |
| Records.UserRoundTrip | server/storage.ts:250-262 | the stored user gives back its payload iff the role is a non-empty string and the score and the verified flag are given |
| Records.AgentRoundTrip | server/storage.ts:282-297 | the stored agent gives back its payload iff no field was defaulted |
| Records.ActivityRoundTrip | server/storage.ts:323-335 | the stored activity gives back its payload iff no field was defaulted |
| Records.MergeUser | server/storage.ts:264-271 | for every field of the user, a patched value wins and an unpatched one is kept |
| Records.MergeAgent | server/storage.ts:299-306 | for every field of the agent, a patched value wins and an unpatched one is kept; lastActive is always now |
| Records.MergeIntegration | server/storage.ts:438-445 | for every field of the integration, a patched value wins and an unpatched one is kept; lastSync is always now, even when the patch sets it |
| Records.MergeAgentEmpty | server/storage.ts:303 | an empty update only refreshes lastActive |
| Records.MergeAgentCompose | server/storage.ts:303 | two updates equal one update with the later fields winning |
| Records.MergeAgentIdempotent | server/storage.ts:303 | repeating an update at the same time changes nothing more |
| Records.MergeUserEmpty | server/storage.ts:268 | an empty update leaves a user unchanged |
| Records.MergeUserCompose | server/storage.ts:268 | two user updates equal one update with the later fields winning |
| Records.MergeUserIdempotent | server/storage.ts:268 | repeating a user update changes nothing more |
| Records.MergeIntegrationEmpty | server/storage.ts:442 | an empty integration update only stamps lastSync |
| Records.MergeIntegrationCompose | server/storage.ts:442 | two integration updates equal one update with the later fields winning, stamped with the later time |
| Records.MergeIntegrationIdempotent | server/storage.ts:442 | repeating an integration update at the same time changes nothing more |
| Queries.UserByUsername | server/storage.ts:246-248 | none iff no user has the name; otherwise the first such user |
| Queries.AgentsOf | server/storage.ts:274-276 | exactly the agents whose userId is the user's, in table order (a subsequence), each as often as in the table |
| Queries.UserActivities | server/storage.ts:313-318 | exactly the activities with a truthy agentId that is the id of one of the user's agents, in table order (a subsequence) |
| Queries.ActivitiesOf | server/storage.ts:313-321 | min(limit, all) activities, newest first, taken from the user's, none left out newer than one kept |
| Queries.MetricsOfType | server/storage.ts:338-344 | all metrics, or exactly those of the type when the type is truthy, in table order (a subsequence) |
| Queries.MetricsOf | server/storage.ts:338-348 | min(limit, all) candidates, newest first, none left out newer than one kept |
| Queries.UserChat | server/storage.ts:363-365 | exactly the user's messages, in table order (a subsequence), each as often as in the table |
| Queries.ChatOf | server/storage.ts:363-368 | min(limit, all) of the user's messages, newest first, none left out newer than one kept |
| Queries.UserNotifications | server/storage.ts:382-385 | exactly the user's notifications, and only the unread ones when asked |
| Queries.UserNotificationsSelect | server/storage.ts:382-385 | those notifications keep the table's order (a subsequence), each as often as it is stored |
| Queries.NotificationsOf | server/storage.ts:382-386 | the same notifications as a permutation, newest first |
| Queries.MarkedRead | server/storage.ts:399-406 | a marked notification is not unread |
| Queries.MarkAllRead | server/storage.ts:408-418 | same keys in the same order; each of the user's notifications is marked read; every other one is unchanged |
| Queries.MarkStep | server/storage.ts:412-415 | writing back the next snapshot entry, read, extends the marked prefix by one |
| Queries.MarkDone | server/storage.ts:412-415 | marking every entry of the snapshot in turn gives `MarkAllRead` |
| Queries.MarkAllReadLeavesNothingUnread | server/storage.ts:408-418 | afterwards the user has no unread notification |
| Queries.MarkAllReadIdempotent | server/storage.ts:408-418 | marking all read twice is marking all read once |
| Queries.MarkAllReadOthersUnchanged | server/storage.ts:408-418 | every other user's notification list is unchanged |
| Queries.UserIntegrations | server/storage.ts:421-423 | exactly the user's integrations, in table order (a subsequence), each as often as in the table |
| Queries.IntegrationsOf | server/storage.ts:421-425 | the user's integrations as a permutation, ordered by name |
| Queries.DeletedAgentActivitiesHidden | server/storage.ts:308-321 | once an agent is deleted, none of its activities is listed for anyone, provided no other stored agent carries the deleted agent's id |
| Lists.Filter | server/storage.ts:275 | `filter` keeps exactly the elements that pass, never more than its input |
| Lists.FilterSelects | server/storage.ts:275 | `filter` keeps the input's order (a subsequence) and each passing element as often as the input has it |
| Lists.FilterUnique | server/storage.ts:275 | those two properties determine `filter`'s result: any subsequence with them is that result |
| Lists.SortNewestFirst | server/storage.ts:318-320 | a permutation of its input with descending timestamps |
| Lists.SortByName | server/storage.ts:424 | a permutation of its input ordered by name |
| Routes.SliceEnd | server/routes.ts:107-121 | how many rows `slice(0, parseInt(limit))` keeps: the default with no limit, none for NaN, all but -n for a negative n |
| Routes.CountStatus | server/routes.ts:317 | the count is the length of `agents.filter(a => a.status === status)` |
| Routes.CountType | server/routes.ts:323-329 | the count is the length of `agents.filter(a => a.type === type)` |
| Routes.CountConnected | server/routes.ts:322 | the count is the length of `integrations.filter(i => i.status === "connected")` |
| Routes.TypeCountsBounded | server/routes.ts:323-329 | the five per-type agent counts add up to at most the number of agents |
| Routes.SystemHealth | server/routes.ts:320 | the value of the first health score among the newest metrics, "0" when there is none or it is empty |
| Routes.Stats | server/routes.ts:303-336 | total, active and per-type counts are exactly the lengths of the filtered user's agents; recent = min(10, user's activities); unread = the user's unread notifications; connected = the user's connected integrations; health is `SystemHealth` of the newest metrics |
| Routes.ResponseIndex | server/routes.ts:351 | `floor(random * 5)` is a valid index into the five responses |
| Routes.GenerateAIResponse | server/routes.ts:342-352 | always one of the five canned responses; the message is ignored |
| Routes.EveryResponseReachable | server/routes.ts:342-352 | every canned response is produced by some draw of `Math.random()` |
| Routes.AutoReply | server/routes.ts:186-194 | the reply is an assistant message for the same user marked `responseType: "auto"` |
| Routes.GetUserRoute | server/routes.ts:18-28 | 200 with the user, or 404 "User not found" |
| Routes.PostUserRoute | server/routes.ts:30-41 | 400 with the parse issues and no change, or 201 with the created user |
| Routes.GetAgentsRoute | server/routes.ts:44-55 | 400 without a userId, otherwise 200 with the user's agents |
| Routes.GetAgentRoute | server/routes.ts:57-67 | 200 with the agent, or 404 "Agent not found" |
| Routes.PostAgentRoute | server/routes.ts:69-80 | 400 with the parse issues and no change, or 201 with the created agent |
| Routes.PutAgentRoute | server/routes.ts:82-92 | 404 and no change for an unknown id, otherwise 200 with the merged agent |
| Routes.DeleteAgentRoute | server/routes.ts:94-104 | 204 if the agent existed, 404 otherwise; the agent is gone either way |
| Routes.GetActivitiesRoute | server/routes.ts:107-121 | 400 without a userId, otherwise 200 with the first `SliceEnd` of the user's activities, newest first |
| Routes.PostActivityRoute | server/routes.ts:123-134 | 400 with the parse issues and no change, or 201 with the created activity |
| Routes.GetMetricsRoute | server/routes.ts:137-147 | 200 with the first `SliceEnd` of the matching metrics, newest first |
| Routes.PostMetricRoute | server/routes.ts:149-160 | 400 with the parse issues and no change, or 201 with the created metric |
| Routes.GetChatRoute | server/routes.ts:163-177 | 400 without a userId, otherwise 200 with the first `SliceEnd` of the user's messages |
| Routes.PostChatRoute | server/routes.ts:179-204 | 400 or 201 as for the other creations; a reply is scheduled iff the message parsed and its role is "user" |
| Routes.DeliverReply | server/routes.ts:186-195 | the timer stores one assistant message and changes nothing else |
| Routes.GetNotificationsRoute | server/routes.ts:207-221 | 400 without a userId; only the exact string "true" restricts the list to unread notifications |
| Routes.PostNotificationRoute | server/routes.ts:223-234 | 400 with the parse issues and no change, or 201 with the created notification |
| Routes.MarkReadRoute | server/routes.ts:236-246 | 404 and no change for an unknown id, otherwise 204 and that notification is read |
| Routes.MarkAllReadRoute | server/routes.ts:248-260 | 400 for a falsy userId, otherwise 204; only a string userId changes the table |
| Routes.GetIntegrationsRoute | server/routes.ts:263-275 | 400 without a userId, otherwise 200 with the user's integrations by name |
| Routes.PostIntegrationRoute | server/routes.ts:277-288 | 400 with the parse issues and no change, or 201 with the created integration |
| Routes.PutIntegrationRoute | server/routes.ts:290-300 | 404 and no change for an unknown id, otherwise 200 with the merged integration |
| Routes.GetDashboardStatsRoute | server/routes.ts:303-336 | 400 without a userId, otherwise 200 with the statistics of the current store |
| WebSocketHook.Connect | client/src/hooks/use-websocket.tsx:34-40 | nothing while the current socket is open; otherwise one new socket becomes current and the counter is untouched |
| WebSocketHook.OnOpen | client/src/hooks/use-websocket.tsx:42-46 | a connecting socket becomes open and the counter is reset to 0; otherwise nothing changes; timers and notices are untouched |
| WebSocketHook.OnClose | client/src/hooks/use-websocket.tsx:57-75 | a live socket becomes closed; below the maximum exactly one pending timer is added and becomes the timer id, at the maximum the timers are kept and one notice is added |
| WebSocketHook.OnTimer | client/src/hooks/use-websocket.tsx:63-67 | a pending timer fires once: the counter goes up by one, then `connect()` runs |
| WebSocketHook.ClearLastTimer | client/src/hooks/use-websocket.tsx:88-90 | only the timer under the timer id is cancelled, and only if it was pending |
| WebSocketHook.Disconnect | client/src/hooks/use-websocket.tsx:87-93 | the last timer no longer pends, a connecting or open current socket is closing, no socket is current; counter and notices are kept |
| WebSocketHook.Step | client/src/hooks/use-websocket.tsx:34-101 | the counter is only reset by an open and raised by one by a timer |
| WebSocketHook.StepGrows | client/src/hooks/use-websocket.tsx:34-101 | one event never removes a socket, timer or notice, and never reopens a closed socket |
| WebSocketHook.RunGrows | client/src/hooks/use-websocket.tsx:34-101 | the same holds over any sequence of events |
| WebSocketHook.OnMessage | client/src/hooks/use-websocket.tsx:48-55 | a frame is handed on iff it parses as JSON |
| WebSocketHook.Send | client/src/hooks/use-websocket.tsx:95-101 | a message is sent iff the current socket is open |
| WebSocketHook.ExceedsMaxAttempts | client/src/hooks/use-websocket.tsx:57-111 | as written, a `reconnect()` call before the first socket opens, followed by three rounds of both sockets closing and retrying, leads to 6 attempts where at most 5 are allowed |
| WebSocketHook.RerunStart | client/src/hooks/use-websocket.tsx:87-106 | the effect re-run (`disconnect()` then `connect()`) while the first socket connects leaves it closing and a second socket connecting and current |
| WebSocketHook.CloseAndRetry | client/src/hooks/use-websocket.tsx:57-67 | a live socket other than the current one closes below the maximum and its retry fires: it is closed, the counter is one higher and a new socket is connecting and current |
| WebSocketHook.RerunLeavesTwoChains | client/src/hooks/use-websocket.tsx:57-106 | after the effect re-run, the old socket's close and retry, and one more close and retry, two sockets are connecting and the counter is 2 |
| WebSocketHook.EffectRerunExceedsMaxAttempts | client/src/hooks/use-websocket.tsx:57-106 | as written, an effect re-run while the first socket connects leads to 6 attempts where at most 5 are allowed |
| WebSocketHook.StartTwoSockets | client/src/hooks/use-websocket.tsx:34-40 | two `connect()` calls before the first socket opens leave two sockets connecting, the second current |
| WebSocketHook.TwoChainsRound | client/src/hooks/use-websocket.tsx:57-67 | as written, closing both connecting sockets and firing both timers opens two new sockets and raises the counter by two |
| WebSocketHook.DisconnectStillReconnects | client/src/hooks/use-websocket.tsx:87-93 | as written, the close that `disconnect()` causes schedules a retry that opens a new socket |
| WebSocketHook.FixedStepKeepsInv | client/src/hooks/use-websocket.tsx:34-93 | in the corrected hook the counter stays within the maximum, and a pending timer is the last one scheduled, was scheduled below the maximum and waits on a closed current socket |
| WebSocketHook.FixedRunKeepsInv | client/src/hooks/use-websocket.tsx:34-93 | the corrected invariant holds after any sequence of events |
| WebSocketHook.FixedAttemptsBounded | client/src/hooks/use-websocket.tsx:62-64 | in the corrected hook the counter never exceeds `maxReconnectAttempts` |
| WebSocketHook.FixedQuietAfterDisconnect | client/src/hooks/use-websocket.tsx:87-93 | in the corrected hook no socket is created after `disconnect()` until `connect()` is called |
| WebSocketHook.ReconnectingSocket.constructor | client/src/hooks/use-websocket.tsx:26-31 | no socket, no attempt, no timer; defaults 3000 ms and 5 attempts are in `Defaults` |
| WebSocketHook.ReconnectingSocket.Connect | client/src/hooks/use-websocket.tsx:34-40 | the corrected `connect` step |
| WebSocketHook.ReconnectingSocket.CancelReconnect | client/src/hooks/use-websocket.tsx:88-90 | the last timer is cancelled if still pending |
| WebSocketHook.ReconnectingSocket.HandleOpen | client/src/hooks/use-websocket.tsx:42-46 | the socket is open and the counter is reset to 0 |
| WebSocketHook.ReconnectingSocket.HandleClose | client/src/hooks/use-websocket.tsx:57-75 | the socket is closed and the counter kept; for the current socket, a retry is scheduled below the maximum and the notice shown at it; a stale socket schedules nothing |
| WebSocketHook.ReconnectingSocket.HandleTimer | client/src/hooks/use-websocket.tsx:63-67 | the counter goes up by one and stays within the maximum; a new connecting socket becomes current |
| WebSocketHook.ReconnectingSocket.HandleMessage | client/src/hooks/use-websocket.tsx:48-55 | the corrected message step |
| WebSocketHook.ReconnectingSocket.Disconnect | client/src/hooks/use-websocket.tsx:87-93 | the corrected disconnect step |
| WebSocketHook.ReconnectingSocket.SendMessage | client/src/hooks/use-websocket.tsx:95-101 | sent iff the hook was connected |
| TimeAgo.DecimalString | client/src/components/dashboard/agent-management-table.tsx:115-123 | a non-empty string of digits |
| TimeAgo.DecimalRoundTrip | client/src/components/dashboard/agent-management-table.tsx:115-123 | reading back the numeral gives the number, with no leading zero |
| TimeAgo.NestedFloor | client/src/components/dashboard/agent-management-table.tsx:111-120 | flooring minutes to hours and hours to days is flooring the milliseconds directly |
| TimeAgo.Units | client/src/components/dashboard/agent-management-table.tsx:111-120 | the tests on whole minutes and hours are the bands of elapsed milliseconds they stand for |
| TimeAgo.AgentTableTimeAgo | client/src/components/dashboard/agent-management-table.tsx:109-124 | the label is "Just now" or starts with a digit |
| TimeAgo.SidebarTimeAgo | client/src/components/dashboard/right-sidebar.tsx:81-95 | the label is "Just now", "Earlier" or starts with a digit |
| TimeAgo.FeedTimeAgo | client/src/components/dashboard/activity-feed.tsx:51-66 | the label is "Just now" or starts with a digit |
| TimeAgo.AgentTableBands | client/src/components/dashboard/agent-management-table.tsx:109-124 | the label in each band of elapsed time: "Just now", singular minute and hour in the second minute and hour, otherwise the count and the plural unit |
| TimeAgo.JustNowMeansUnderAMinute | client/src/components/dashboard/agent-management-table.tsx:109-124 | each of the three helpers says "Just now" iff less than a minute has passed |
| TimeAgo.AgentTableOneDays | client/src/components/dashboard/agent-management-table.tsx:121-123 | between one and two days the label is "1 days ago" |
| TimeAgo.SidebarBands | client/src/components/dashboard/right-sidebar.tsx:81-95 | the same labels as the agent table below a day; "Earlier" iff at least a day |
| TimeAgo.FeedBands | client/src/components/dashboard/activity-feed.tsx:51-66 | the whole number of the largest unit that fits, with m, h or d |
| DashboardUi.StatusColor | client/src/components/dashboard/agent-management-table.tsx:79-92 | gray exactly for the statuses other than active, processing and error |
| DashboardUi.StatusColorSeparates | client/src/components/dashboard/agent-management-table.tsx:79-92 | two statuses share a colour iff they are equal or neither is active, processing or error |
| DashboardUi.ToggledStatus | client/src/components/dashboard/agent-management-table.tsx:157-163 | the toggle pauses exactly the agents that are not paused, and resumes exactly the paused ones |
| DashboardUi.ToggleTwice | client/src/components/dashboard/agent-management-table.tsx:157-163 | two toggles restore the status iff it was active or paused |
| DashboardUi.TogglePatchEffect | client/src/components/dashboard/agent-management-table.tsx:135-155 | the request body changes only the status (and the server's lastActive) |
| DashboardUi.HandleToggleAgent | client/src/components/dashboard/agent-management-table.tsx:135-163 | the stored agent gets the toggled status of the row shown and lastActive = now, in place, and nothing else in the store changes; an unknown agent gives 404 and no change |
| DashboardUi.NotificationIcon | client/src/components/dashboard/right-sidebar.tsx:40-51 | the icon never spins, is coloured by the type's tone, and is Info exactly for types other than success, warning and error |
| DashboardUi.BorderColor | client/src/components/dashboard/right-sidebar.tsx:53-64 | the border is coloured by the type's tone |
| DashboardUi.NotificationBorderMatchesIcon | client/src/components/dashboard/right-sidebar.tsx:40-64 | two notifications share a border colour iff their icons share a colour |
| DashboardUi.NotificationDefaultStyle | client/src/components/dashboard/right-sidebar.tsx:53-64 | blue border iff the type is not success, warning or error |
| DashboardUi.IntegrationDotColor | client/src/components/dashboard/right-sidebar.tsx:250-258 | the dot is gray exactly for statuses other than connected and error |
| DashboardUi.IntegrationTextColor | client/src/components/dashboard/right-sidebar.tsx:260-266 | the label is gray exactly for statuses other than connected and error |
| DashboardUi.IntegrationToneAgrees | client/src/components/dashboard/right-sidebar.tsx:249-266 | the dot and the label are gray together, exactly for statuses other than connected and error |
| DashboardUi.StatusLabel | client/src/components/dashboard/right-sidebar.tsx:268 | same length, first letter upper-cased, the rest unchanged |
| DashboardUi.StatusLabelIdempotent | client/src/components/dashboard/right-sidebar.tsx:268 | a capitalised label stays the same |
| DashboardUi.MarkAllReadClick | client/src/components/dashboard/right-sidebar.tsx:110-119 | the request is answered 204 and the default user has no unread notification afterwards |
| DashboardUi.ActivityIcon | client/src/components/dashboard/activity-feed.tsx:21-34 | the icon is always white and spins exactly for processing |
| DashboardUi.ActivityColor | client/src/components/dashboard/activity-feed.tsx:36-49 | the error colour exactly for the error type |
| DashboardUi.ActivityStyle | client/src/components/dashboard/activity-feed.tsx:21-49 | own icons only for completed, warning and processing; only the cog spins; the error colour iff error; other types drawn as info |

## Left out

- I/O and time are parameters. Ids from `randomUUID()`, `new Date()` and `Math.random()` are inputs of the members that use them. Timestamps are integers of milliseconds. The create operations neither require nor check that the new id is fresh: the source relies on `randomUUID()` never colliding, and in the model a colliding id overwrites the stored row in place.
- The 500 "Failed to …" branches are not modelled. The in-memory store throws only after a wrongly typed PUT body, which is not modelled either. For example, `{"name": null}` or `{"name": 5}` sent to PUT /api/integrations/:id is stored unvalidated (server/routes.ts:290-300, server/storage.ts:438-445). From then on `a.name.localeCompare(b.name)` (server/storage.ts:424) throws for that user, if they have two or more integrations, and GET /api/integrations and GET /api/dashboard/stats answer 500.
- Concurrency is not modelled. The route handlers are `async`, but each one is modelled as running to completion without interleaving. The chat reply's `setTimeout` is split in two: `PostChatRoute` returns the `ScheduledReply`, and `DeliverReply` is the timer's callback.
- Request parsing is simplified:
  - Query parameters are given as optional strings. A repeated parameter that Express turns into an array is not modelled.
  - `parseInt(limit)` is given as its outcome, a number or NaN (`LimitQuery`). The digits themselves are not parsed.
  - The zod schemas are given as their outcome, a parsed payload or a list of issues.
  - A PUT body is given as a typed partial record (`AgentPatch`, `IntegrationPatch`). The server does not validate it, and a body with fields of the wrong type is not modelled.
- A PUT body's keys that are not fields of the record are copied into the stored record by the spread (server/storage.ts:303, 442). The model's patches have only the record's fields, so such extra keys are not modelled. A body with an `id` key does change the stored record's id; `DeletedAgentActivitiesHidden` therefore assumes no other agent carries the deleted id.
- The seed gives every `new Date()` and `Date.now()` one `now` (server/storage.ts:79-234). The three seed metrics (server/storage.ts:168-182) therefore tie on timestamp, and which health_score the statistics see first depends on the sort's stability, which is not stated.
- Row objects are not aliased. `markNotificationRead` and `markAllNotificationsRead` mutate the stored object itself, so an array returned earlier by a getter would see the change. The model stores values, so only the table changes.
- Lists.SortByName: `localeCompare` is modelled as code-point lexicographic order, not locale collation.
- Lists.SortNewestFirst: the sort is stated as a permutation in descending timestamp order. Its stability (the order of equal timestamps) is not stated.
- Uniqueness is not enforced, because the store does not enforce it either. This covers unique usernames and foreign keys such as an agent's userId or an activity's agentId.
- The WebSocket hook's `onConnect`, `onDisconnect` and `onError` callbacks, its console logging and the toast's text are left out. The notice is counted in `notices`. Errors raised by `new WebSocket(url)` are not modelled, and neither is the socket's `onerror`.
- WebSocketHook.ReconnectingSocket follows the corrected hook (see Findings). The hook as written is modelled by the functions `OnOpen`, `OnClose`, `OnTimer`, `Disconnect`, `Step` and `Run`, and the two findings are proved about them.
- DashboardUi.StatusLabel: `toUpperCase` is modelled for ASCII letters only.
- The time labels take the elapsed time as a `nat`. A timestamp in the future (negative elapsed time) is not modelled.
- Rendering is left out: JSX, the React Query cache and its `invalidateQueries` after a mutation, loading states and toasts. An icon is modelled as its glyph name, its colour class and whether it spins. The agent table's per-type icons and colours, and its status indicators, are not part of this model.
- The activity feed's WebSocket handler is left out, because it only logs `activity_update` frames.

## Findings

| source | as written | input that shows it | evidently intended | confidence | as-written member | corrected member |
|---|---|---|---|---|---|---|
| client/src/hooks/use-websocket.tsx:34-40, 57-67, 103-106 | every socket's `onclose` schedules a retry, and `connect()` neither cancels a pending retry nor closes a socket that is still connecting. Two chains of retries can therefore run at once, and each chain increments the shared counter. | the mount effect re-runs while the first socket is connecting. `ActivityFeed` passes an inline `onMessage` (client/src/components/dashboard/activity-feed.tsx:75-82), so `connect` changes identity on every render, and the effect runs `disconnect()` then `connect()`. The closed socket's `onclose` still schedules a retry, which starts a second chain. Trace: `connect()`, `disconnect()`, `connect()`; socket 0 closes and its retry fires; socket 1 closes and its retry fires; then two rounds in which both connecting sockets close and both timers fire. The counter reaches 6 with `maxReconnectAttempts` = 5. (`ExceedsMaxAttempts` shows the same with `reconnect()` called twice.) | at most `maxReconnectAttempts` attempts in a row | medium (not executed) | WebSocketHook.EffectRerunExceedsMaxAttempts | WebSocketHook.FixedAttemptsBounded |
| client/src/hooks/use-websocket.tsx:87-93, 57-67 | `disconnect()` clears only the already-pending timer, then closes the socket. The resulting `onclose` schedules a new retry, and that retry opens a new socket. | connect, open, `disconnect()`, the close event fires, the timer fires: a second socket is created | after `disconnect()` (the effect cleanup on unmount) no socket is opened again | high (not executed) | WebSocketHook.DisconnectStillReconnects | WebSocketHook.FixedQuietAfterDisconnect |
