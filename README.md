# jira-ticket-creator: a verified model of the ticket proxy and its live stream

The repository is an Express server (`server.js`) and a set of serverless
handlers (`api/*.js`) that relay requests to a Jira-like tracker. This model covers
three parts of it:

- **The live ticket stream of `server.js`.** This is the registry of open
  Server-Sent-Events subscriptions (`sseConnections` and the `connectionId`
  counter). It has these handlers:
  - the stream open handler;
  - the 30-second heartbeat;
  - the `close`/`error` teardown;
  - the poll `checkAndSendTickets` and its change rule;
  - the one-second initial load and the 15-second sweep;
  - the delayed "new ticket" broadcast of the create route;
  - the SIGTERM/SIGINT shutdown.

  The registry is the class `Subscriptions.Registry`. Each connection is a
  `Subscriptions.Connection`. Each timer firing or socket event is one method
  call. The clock reading (`now`), the outcome of the awaited search and whether
  each write succeeds are parameters. The registry invariant `Valid()` says these
  things:
  - ids are unique and lie between 1 and the counter;
  - a connection is registered exactly when it is active;
  - an active connection still has its heartbeat and an open response.

  The poll is also given as a function on values (`Subscriptions.Poll`). The
  method `CheckAndSendTickets` is proved to do exactly what that function says.
- **The query and the frame.** `buildJQLQuery` and the inline query of
  `api/get-tickets.js` are in module `Jql`. They are built on a model of the
  JavaScript string operations they use (`trim`, `split`, `join`, `map`,
  `filter`) in module `Text`. The frame `event: E\ndata: D\n\n` of
  `sendSSEMessage` is in module `Sse`. It has as its partner the client-side
  parser of section 9.2.6 of the WHATWG HTML Living Standard. A proof shows that
  a client reads back exactly the events framed, in order.
- **The request handlers of `api/`.** These are `get-tickets`, `create-ticket`,
  `test-connection` and `issue-types`. Each is a total function or method from
  (HTTP method, body, upstream outcome) to an exchange. The exchange records the
  upstream call made, if any, and the reply. Every one of them keeps `Http.Conforms`:
  - 405 exactly for a non-POST;
  - then 400 for missing fields;
  - an upstream call exactly when both checks pass;
  - `success` exactly on 200.
- **The `server.js` create route.** Express routes only POST to it, so it has no
  405 case and takes (body, upstream outcome). It makes the upstream call exactly
  when the required fields are present. It succeeds exactly when the status is 200,
  exactly when data is present, and exactly when the call was made and succeeded.

An absent JavaScript string is modelled as `""` and an absent label list as `[]`.
The source's truthiness tests treat those exactly as they treat `undefined`.

Behaviours of the code worth knowing (the model follows the code):
- The staleness test is strict: an update is forced only when strictly more than
  60000 ms have passed since the last delivery (server.js:323).
- A failed `error`-event send does not end the subscription (server.js:346).
- A failed `update` send removes the connection from the registry but does not
  clear its heartbeat; the heartbeat clears itself on its next tick
  (server.js:336-339, 242-243).
- `close`/`error` on the request do not end the response; only shutdown does
  (server.js:255-267, 601).
- The stream open handler validates nothing: a stream opened without url, email,
  token or project key is registered and kept alive by its heartbeat; only the poll
  skips it (server.js:193-227, 277).
- Labels, status and priority are quoted into the query without escaping. A label
  holding `" OR labels = "` yields two conditions, so one label can widen the search
  (server.js:36, 43, 48; `Jql.UnescapedQuote`).
- The delayed broadcast is not cancelled by a shutdown (server.js:490-505). The
  shutdown empties the registry, but SIGTERM does not exit the process
  (server.js:597-604), so a broadcast that fires afterwards reaches only the
  streams opened since. SIGINT exits (server.js:613), so after it the broadcast never fires.

## Model

| member | source | states |
|---|---|---|
| Text.Trim | server.js:34 | `trim` gives the infix of the input that neither starts nor ends with whitespace; everything it drops is ECMAScript whitespace |
| Text.TrimIdempotent | server.js:34 | trimming a trimmed label changes nothing |
| Text.JoinSplit | server.js:34 | joining the pieces of `split(',')` with `,` gives back the filter |
| Text.SplitJoin | server.js:34 | splitting a join of comma-free pieces gives back exactly those pieces |
| Text.Split | server.js:34 | `split` gives at least one piece and no piece holds the separator |
| Text.Join | server.js:36 | `join` of no pieces is empty and of one piece is that piece |
| Text.JoinEnds | server.js:36 | a join starts with its first piece and ends with its last |
| Text.Map | server.js:34-36 | `map` gives one result per element, in the same order |
| Text.Filter | server.js:34 | `filter` keeps only elements that pass, each taken from the input, never more than the input |
| Text.FilterConcat | server.js:34 | `filter` keeps the input order: it distributes over concatenation |
| Text.Decimal | api/get-tickets.js:63 | the count in the message is written in decimal digits with no leading zero |
| Text.ParseDecimalOfDecimal | api/get-tickets.js:63 | reading the written count back gives the ticket count |
| Jql.Labels | server.js:34 | every label of the filter is non-empty, comma-free and already trimmed |
| Jql.BlankHasNoLabels | server.js:33-35 | a blank filter yields no label, so the outer `trim()` test never changes the query |
| Jql.LabelsAtComma | server.js:34 | labels keep the filter's order: a comma splits the label list in two |
| Jql.LabelsOfPiece | server.js:34 | a comma-free piece gives its trimmed text as a label, or nothing when that is empty |
| Jql.LabelsOfJoin | server.js:34 | the labels of a comma-separated list of clean labels are exactly those labels |
| Jql.LabelClause | server.js:33-39 | the label clause is present exactly when a label survives, and then lists `labels = "x"` for all of them OR-joined in parentheses |
| Jql.StatusClause | server.js:42-44 | the status clause is present exactly when the filter is not blank, and is then ` AND status = "`, the filter as given (untrimmed), and a closing quote |
| Jql.PriorityClause | server.js:47-49 | the priority clause is present exactly when the filter is not blank, and is then ` AND priority = "`, the filter as given (untrimmed), and a closing quote |
| Jql.UnescapedQuote | server.js:36 | a label holding `" OR labels = "` between two names gives exactly the conditions of those two labels |
| Jql.ConditionsRoundTrip | server.js:36-37 | the OR-joined conditions of quote-free labels parse back into exactly those labels, in order |
| Jql.Query | api/get-tickets.js:19-37 | the query starts with its project clause and ends with ` ORDER BY created DESC` |
| Jql.BuildJqlQuery | server.js:29-55 | the query starts with `project = K` (key unquoted) and ends with ` ORDER BY created DESC` |
| GetTickets.BuildQuery | api/get-tickets.js:19-37 | the query accumulated with `+=` equals the project clause `project = "K"` with the key quoted, then the label, status and priority clauses in that order, then the ordering |
| GetTickets.Handle | api/get-tickets.js:4-69 | 405 for a non-POST before anything else; 400 "Faltan parámetros requeridos" with no search for missing credentials; the search carries the built query, 50 results and the six fields; on success one ticket per issue in upstream order, the upstream `total`, and the message "N tickets encontrados"; any failure is 400 "Error al obtener tickets" |
| Tickets.ListTicket | api/get-tickets.js:48-57 | a listed ticket keeps key and summary, links to `url/browse/key`, takes status and priority by name with the fallbacks `Unknown` and `Medium` when absent or empty, and defaults labels to none |
| Tickets.ListTickets | api/get-tickets.js:48-57 | the reshaping succeeds exactly when every issue has `fields`, and then yields one listed ticket per issue, same length, same order |
| Tickets.StreamTicketOf | server.js:305-316 | a streamed ticket keeps id and key, links to `url/browse/key`, passes status and priority through, and defaults labels to none |
| Tickets.StreamTickets | server.js:304-317 | the poll's reshaping succeeds exactly when every issue has `fields`, and then yields one streamed ticket per issue, same length, same order |
| Http.Guard | api/get-tickets.js:5-13 | a handler goes on exactly for a POST with every required field; otherwise 405 "Method not allowed" for any other method, checked first, and 400 for missing fields |
| TestConnection.FailureMessage | api/test-connection.js:33-38 | the invalid-credentials message exactly for upstream 401, the project-not-found message exactly for 404, the generic message for every other failure, including no response |
| TestConnection.Handle | api/test-connection.js:4-42 | 405, then 400 before any call; on success `project` copies exactly key, name and projectTypeKey; any failure is HTTP 400, with the invalid-credentials message for upstream 401, the project-not-found message for 404 and the generic message otherwise |
| IssueTypes.TypeNames | api/issue-types.js:26 | one name per issue type, in the same order and of the same length |
| IssueTypes.Handle | api/issue-types.js:4-34 | 405, then 400 before any call; an empty project list gives 404 "Proyecto no encontrado"; a readable first project gives the names of its issue types; an upstream failure or an unreadable response gives 400 "Error al obtener tipos de issue" |
| CreateTicket.DocOf | api/create-ticket.js:26-35 | the description document holds one paragraph with one text node, which reads back as the description |
| CreateTicket.KeptLabels | api/create-ticket.js:42 | the kept labels are exactly the non-blank input labels, and all of them when none is blank |
| CreateTicket.KeptLabelsInOrder | api/create-ticket.js:42 | the filter keeps the input order |
| CreateTicket.BuildFields | api/create-ticket.js:18-43 | project key, summary and issue type always come from the request; the description document is present exactly when the description is truthy, `{id: priority}` exactly when the priority is, the non-blank labels exactly when the list is non-empty; no assignee |
| CreateTicket.BuildServerFields | server.js:433-477 | the same payload, plus `assignee.accountId` exactly when an assignee is given |
| CreateTicket.ErrorMessage | api/create-ticket.js:58-62 | with an upstream `errors` object the message is its values joined with `, `, so a single error is the message itself; without one it is the generic message |
| CreateTicket.ServerErrorMessage | server.js:521-527 | `errors` first, joined with `, `; without it, `errorMessages` joined with `, `, a single entry being the message itself; with neither, or with no response, the generic message |
| CreateTicket.ErrorMessagesAgree | server.js:521-527 | the route and the api handler word a failure alike, except when the response has `errorMessages` and no `errors`, where only the route reports them |
| CreateTicket.Handle | api/create-ticket.js:4-66 | 405, then 400 "Faltan campos requeridos" before any call; the payload is the one `BuildFields` describes; success gives the key and its browse URL; any failure is 400 with the assembled message |
| CreateTicket.ServerHandle | server.js:409-535 | 400 without a call when a required field is missing; success exactly when the call was made and succeeded, with id, key, self and browse URL, and then exactly one announcement of the new ticket; no announcement otherwise |
| Sse.Frame | server.js:60 | a frame is the event line, the data line and a blank line: it ends in `\n\n` and its length is that of its parts |
| Sse.ParseFrame | server.js:60 | a client parsing one frame receives exactly its event type and data |
| Sse.ParseStream | server.js:58-67 | a client parsing the frames written one after the other receives exactly those events, in order |
| Subscriptions.EventName | server.js:214 | every payload kind goes out under a named, line-free event type |
| Subscriptions.EventNamesDistinct | server.js:330 | different payload kinds go out under different event names (`connection`, `heartbeat`, `update`, `error`, `notification`) |
| Subscriptions.ClientReadsDelivered | server.js:58-67 | whatever line-free JSON each payload is written as, the client reads the delivered payloads back in delivery order |
| Subscriptions.FetchOf | server.js:299-317 | the search yields tickets exactly when it succeeded, has `issues` and every issue has `fields`; a failed call keeps its message; any other failure is a runtime throw |
| Subscriptions.ShouldNotify | server.js:321-323 | a different count always notifies; the same count notifies exactly when strictly more than 60000 ms have passed, so not at exactly 60000 ms |
| Subscriptions.Compare | server.js:319-340 | an update is sent exactly when the count differs or strictly more than 60000 ms have passed; it carries the tickets, the new and the previous count; a written update records count and time, a failed one deactivates; no update changes nothing |
| Subscriptions.Settle | server.js:342-351 | a throw sends an `error` frame and leaves the state unchanged whether or not it is written |
| Subscriptions.Poll | server.js:271-353 | no search and no frame for an inactive connection or missing url/email/token/projectKey; a throw sends `error` and changes nothing; otherwise the change rule decides the update; a delivered update records count and time, a failed one deactivates; nothing reactivates |
| Subscriptions.CountFollowsDeliveries | server.js:332-334 | the recorded count changes only through a delivered update carrying that count, with the old count as its previous count |
| Subscriptions.RepollSendsOnlyWhenStale | server.js:323 | after a delivered update, a poll finding the same count sends again exactly when strictly more than 60000 ms have passed |
| Subscriptions.Connection.constructor | server.js:217-224 | a new connection has count 0, the opening time as its last update, is active, has its heartbeat, and nothing sent |
| Subscriptions.Connection.Send | server.js:58-67 | `sendSSEMessage` returns true exactly when the write succeeds, and only then is the frame added to what was sent |
| Subscriptions.Registry.constructor | server.js:15-16 | the registry starts empty with the counter at 0 |
| Subscriptions.Registry.Open | server.js:193-227 | the new id is the previous counter plus 1, greater than every earlier id; exactly one entry is inserted, active, with count 0, after a `connection` frame carrying its id |
| Subscriptions.Registry.Register | server.js:226 | the map gains exactly the new id, which was absent |
| Subscriptions.Registry.Deactivate | server.js:256-258 | the connection becomes inactive and its id leaves the map; on an inactive connection the map is unchanged |
| Subscriptions.Registry.HeartbeatTick | server.js:230-245 | an active connection gets a heartbeat; a failed write deactivates, unregisters and clears the interval; an inactive connection's tick sends nothing and only clears its interval |
| Subscriptions.Registry.Disconnect | server.js:255-267 | close and error deactivate, unregister and clear the heartbeat; a repeat leaves the map unchanged |
| Subscriptions.Registry.Deliver | server.js:324 | a delivery changes only what was sent, and only when the write succeeds |
| Subscriptions.Registry.Record | server.js:332-334 | a delivered update records the count and the time |
| Subscriptions.Registry.CheckAndSendTickets | server.js:271-353 | the connection's new state and sent frames are exactly those of `Poll`; the search is made exactly when `Poll` makes it; a connection that stops being active leaves the map, any other leaves it unchanged |
| Subscriptions.Registry.InitialLoad | server.js:248-252 | the one-second first poll does nothing for a connection already closed; otherwise it is `checkAndSendTickets` |
| Subscriptions.Registry.SendFetched | server.js:342-351 | after the search: the `error` frame for a throw, the change rule otherwise |
| Subscriptions.Registry.SendIfChanged | server.js:319-340 | the change rule, the write and its bookkeeping agree with `Compare` |
| Subscriptions.Registry.Sweep | server.js:356-368 | every connection is polled exactly once, against its state when the sweep starts; the searches made are `SweepCalls` of the map at the start; the sweep adds no entry and re-registers none |
| Subscriptions.Registry.PollOne | server.js:360-365 | one visit polls the connection under that id, if it is registered, and touches no other; it searches exactly when that connection is registered, active and complete, with that connection's request |
| Subscriptions.SweptIdsExactly | server.js:356-368 | a sweep visits, among the ids 1 to the counter, exactly those registered with complete parameters at its start |
| Subscriptions.SweptIdsIncreasing | server.js:360 | the ids searched are in increasing order, the Map's insertion order |
| Subscriptions.SweepCallsMade | server.js:360-365 | the searches of a sweep are one per searched id, in that order, each with its connection's request |
| Subscriptions.Registry.Schedule | server.js:490 | the announcement waits in the pending queue |
| Subscriptions.Registry.CreateTicketRoute | server.js:487-505 | an announcement is queued exactly when the ticket was created |
| Subscriptions.Registry.Broadcast | server.js:490-505 | the oldest announcement goes as `notification` to every connection active at that moment whose write succeeds; failed writes are ignored and no state changes |
| Subscriptions.Registry.NotifyOne | server.js:491-503 | one visit sends the frame only to the connection under that id, only if active |
| Subscriptions.Registry.Shutdown | server.js:597-613 | every connection ends up inactive, every previously active response is ended, and the registry is empty |

## Left out

- HTTP plumbing is not modelled: Express routing, response headers, static files and the global error middleware (server.js:588-594).
- The outbound axios calls and their 10 s and 15 s timeouts are inputs: each handler is given the upstream outcome.
- `Date.now()` is an integer `now` parameter, and ISO-8601 timestamps are that integer.
- `setInterval` and `setTimeout` are explicit method calls. The 1 s, 15 s, 30 s and 2 s delays and the 100 ms pause between sweep visits are not modelled.
- The async interleaving of the sweep, the heartbeats and the initial poll is not modelled: each callback is one atomic step.
- Subscriptions.Registry.CheckAndSendTickets: because the step is atomic, the model cannot show a connection closing while its search is in flight. In the source, the update branch does not re-check `isActive` after the await (server.js:320-324), so such an update is still written to a closed response.
- Iteration over the JS `Map` while entries are deleted or added is modelled as a walk over the ids 1 to the counter, looking each one up when it is visited. This is the Map's insertion order, because ids increase.
- `JSON.stringify` is not modelled. A frame's data is an opaque string; the round-trip lemmas assume it holds no line feed.
- Base64 encoding of the Basic credentials (`createAuthHeaders`, api/utils.js) is not modelled; the model keeps the `email:token` text before encoding.
- api/current-user.js and the `/api/current-user` route are not part of this model: they only check the method and copy three fields.
- The `/api/sse-status` diagnostics route (server.js:565-575) is not part of this model: it only reads the registry.
- The `server.js` duplicates of test-connection, get-tickets and issue-types (server.js:71-114, 117-190, 371-406) are not part of this model; the `api/` versions are modelled instead.
- The streamed ticket does not carry `description`, `issueType` or `assignee`. The description extraction from the upstream rich-text document (server.js:160, 309) is optional chaining only; the other two are copied untouched.
- The `details` field of the create route's failure reply (server.js:532), the upstream response body, is not modelled.
- The `process.exit(0)` after the SIGINT cleanup (server.js:613) is not modelled; `Shutdown` models the cleanup both signals share.
- Request values that are not strings are not modelled: each parameter is a string. In the source, a repeated `labelFilter` query parameter arrives as an array, `.trim()` throws inside the poll's `try`, and every poll then sends an `error` frame (server.js:274-351).
- The console logging is not modelled.
