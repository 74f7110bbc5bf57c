# Publora MCP gateway, modelled in Dafny

The Publora MCP server is a small HTTP gateway. It multiplexes Model Context
Protocol sessions over one endpoint. Each session is created by a POST that
carries an API key. The key is taken from `Authorization: Bearer <key>` or,
failing that, from `x-publora-key`. The session gets its own tool server
whose sixteen tools call the Publora REST API with that key. Later requests
name their session in the `mcp-session-id` header and are routed to its
transport. When a transport closes, its session leaves the map.

The model covers the parts of `src/index.js` that decide anything:

- `getApiKey`: header precedence and the `Bearer ` prefix (module `Credentials`);
- `createApiClient`: the upstream URL, headers and body, and how a failed
  response becomes an error message (module `ApiClient`);
- `registerTools`: the method, path and JSON body each of the sixteen tools
  sends, the `list_posts` query string, and what each tool answers (modules
  `Tools` and `ListPostsQuery`);
- the `app.all("/")` handler: authentication, session creation, routing to an
  existing session, rejection, and `onclose` removal. These are pure
  transitions on the session map, with traces of requests and closures
  (module `Gateway`).

Supporting modules:

- `Options`: `Option` and `Result`;
- `Decimal`: JavaScript's `String(n)` for integers, with a parser to state
  the round trip;
- `Json`: parsed JSON values, JavaScript truthiness, and property lookup with
  the last duplicate key winning, as `JSON.parse` does.

The handler checks the key (src/index.js:353-356) before it looks up the
session (src/index.js:389-394). So a request with no usable key is refused
with 401 even when its session id is unknown (src/index.test.js:102-112).
`Gateway.AuthenticationFirst` states that order.

The handshake that the MCP SDK transport runs on a creation request is a
parameter of `Gateway.Handle`: the id the transport assigned itself, if any.
The upstream HTTP response is a parameter of `Tools.Invoke`: its status and
its already parsed JSON body.

## Model

| member | source | states |
|---|---|---|
| Credentials.Header | src/index.js:333 | a header value is present exactly when the (lower-case) header name was sent, and is what was sent |
| Credentials.HasBearer | src/index.js:334 | a `Bearer ` authorization header is never empty, so the truthiness test adds nothing, and it splits into the prefix and the token after it |
| Credentials.GetApiKey | src/index.js:332-338 | with a `Bearer ` authorization header the key is the rest of that header, so prefix and key rebuild the header; otherwise a key exists exactly when `x-publora-key` is non-empty, and is that header |
| Credentials.BearerWins | src/index.js:334-335 | setting `authorization` to `Bearer ` plus a token yields exactly that token, whatever `x-publora-key` holds |
| Credentials.NonBearerFallsThrough | src/index.js:337 | an absent or non-`Bearer ` authorization header leaves the key to `x-publora-key`, and none when that is empty or absent |
| Credentials.NoHeadersNoKey | src/index.js:337 | with neither header there is no key |
| Credentials.EmptyKeyOnlyFromBareBearer | src/index.js:334-335 | the extracted key is the empty string exactly when the authorization header is the bare prefix `Bearer ` |
| Credentials.KeyExamples | src/index.test.js:51-71 | the four header combinations of the unit tests give `sk_test123`, `sk_abc`, no key, and `sk_bearer` |
| Decimal.NatToString | src/index.js:226-227 | the decimal text of a natural number is non-empty, all digits, and starts with `0` only for zero |
| Decimal.IntToString | src/index.js:226-227 | the text of an integer is non-empty, starts with `-` exactly for negatives, and is all digits otherwise |
| Decimal.NatToStringValue | src/index.js:226-227 | the digits read back as the number they were written from |
| Decimal.IntToStringRoundTrip | src/index.js:226-227 | parsing the text of any integer gives that integer back |
| Decimal.IntToStringInjective | src/index.js:226-227 | different integers get different decimal texts, so different page or limit numbers are written as different parameter values |
| Json.Lookup | src/index.js:29 | a member is found exactly when the object has that key, and the value found is one written under that key |
| Json.LookupDistinct | src/index.js:29 | in an object without repeated keys, each key finds its own value |
| Json.LookupAppend | src/index.js:29 | in a concatenation of members, a key of the later part wins over the earlier part |
| Json.Property | src/index.js:29 | reading a property of a non-null value finds something only on an object holding that key, always does there, and finds a value written under that key |
| Json.ToJsString | src/index.js:29 | a string error value becomes the error message unchanged |
| ApiClient.Url | src/index.js:14 | the URL string handed to `fetch` is the base, then `/api/v1`, then the path, with nothing else |
| ApiClient.UrlInjective | src/index.js:14 | over one base, different paths give different URLs |
| ApiClient.Prepare | src/index.js:13-23 | the request keeps the method, targets the URL above, carries the session's key in `x-publora-key` and the JSON content type and no other header, and has a body exactly when the body given is truthy, and then that body |
| ApiClient.StatusMessage | src/index.js:29 | the fallback message starts with `API error: ` and the rest parses back to the status |
| ApiClient.ErrorOf | src/index.js:28-29 | a null body fails with a type error; otherwise a truthy `error` member is the message, as a string, and a missing or falsy one gives the status message |
| ApiClient.Complete | src/index.js:25-32 | a call succeeds exactly when the status is 200-299 and then returns the body; otherwise it fails with the error above |
| ApiClient.ReportedMessageWins | src/index.js:29 | a failing response whose body reports a non-empty `error` string fails with exactly that message |
| ApiClient.FallbackNamesStatus | src/index.js:29 | a failing response without a truthy `error` fails with a message naming the status |
| ListPostsQuery.TextParam | src/index.js:222-225 | a text filter sets at most one pair: its name with its value, exactly when the value is a truthy (non-empty) string |
| ListPostsQuery.NumberParam | src/index.js:226-227 | a number filter sets at most one pair, exactly when the number is truthy (non-zero), and the value written parses back to the number |
| ListPostsQuery.Params | src/index.js:221-229 | the handler sets at most eight parameters and never one with an empty value |
| ListPostsQuery.NameAt | src/index.js:222-229 | the k-th parameter of the handler's order has rank k |
| ListPostsQuery.Rank | src/index.js:222-229 | every parameter name has a position among the eight |
| ListPostsQuery.Keep | src/index.js:222-229 | the k-th step sets at most one parameter: the k-th name with its value, exactly when that value is truthy |
| ListPostsQuery.ParamValue | src/index.js:230 | the value read for a name is one of its pairs, and nothing is read for a name that was never set |
| ListPostsQuery.ParamValueAppend | src/index.js:222-229 | reading a name from two runs of `set` finds the first run's value when it has one, and the second's otherwise |
| ListPostsQuery.SelectUpToOrdered | src/index.js:222-229 | the first k steps set only names of rank below k, in strictly increasing rank |
| ListPostsQuery.SelectUpToValues | src/index.js:222-229 | after the first k steps each name of rank below k carries exactly its truthy value, and the rest carry nothing |
| ListPostsQuery.NameAtRank | src/index.js:222-229 | position and name are inverse |
| ListPostsQuery.KeepIsHandlerStep | src/index.js:222-229 | each of the eight `if` statements is the corresponding step of the walk |
| ListPostsQuery.ParamsFollowOrder | src/index.js:221-229 | the handler's parameter list is the walk over all eight names in order |
| ListPostsQuery.ParamsOrderedAndTruthy | src/index.js:221-229 | parameters appear in the order status, platform, fromDate, toDate, page, limit, sortBy, sortOrder, each exactly when its value is truthy and carrying that value |
| ListPostsQuery.ZeroPageAndLimitOmitted | src/index.js:226-227 | page 0 and limit 0 are falsy and never reach the query |
| ListPostsQuery.Encode | src/index.js:230 | the query string is empty exactly when no parameter was set |
| ListPostsQuery.JoinEmpty | src/index.js:230 | joining non-empty `name=value` parts is empty exactly when there are none |
| ListPostsQuery.Path | src/index.js:230-231 | the path starts with `/list-posts`, is bare exactly when no parameter is set, and otherwise is `/list-posts?` followed by the query |
| ListPostsQuery.BarePathIffNoFilter | src/index.js:231 | the path has no `?` part exactly when no filter is truthy |
| Tools.Name | src/index.js:37-328 | every tool's registered name is one of the sixteen the server registers |
| Tools.BodyOf | src/index.js:59-313 | the body each handler passes to `apiRequest` never declares a member name twice |
| Tools.Verb | src/index.js:42-323 | every upstream call uses GET, POST, PUT or DELETE, and no GET call carries a body |
| Tools.PathOf | src/index.js:42-323 | every upstream path starts with `/` |
| Tools.Build | src/index.js:41-328 | a handler's `apiRequest` call uses its tool's method and path, and passes a body exactly when the handler builds one, faithful to the handler's member lists |
| Tools.ResultMember | src/index.js:44-164 | exactly list_connections, list_workspace_users and create_workspace_user answer one member of the upstream body: `connections`, `users` or `user` |
| Tools.Registry | src/index.js:36-329 | a session offers sixteen tools, no name repeated |
| Tools.ToolAt | src/index.js:37-328 | each position of the registry holds the name of a tool |
| Tools.RegisteredNamesAreTools | src/index.test.js:173-192 | every registered name is the name of some tool, so with `Tools.Name` the registry is exactly the set of tool names |
| Tools.TruthiesFacts | src/index.js:94-96 | the optional members that pass `if (x)` keep their names and values, none twice, and no other member appears |
| Tools.DeclaredSplit | src/index.js:160-161 | a body with distinct declared names has distinct required names, distinct optional names, and none shared between them |
| Tools.AssembleAlways | src/index.js:160 | a required member is always in the body with its argument |
| Tools.AssembleOptional | src/index.js:161 | an optional member is in the body exactly when its argument is truthy, and then with that argument |
| Tools.AssembleDeclared | src/index.js:160-161 | the body has no member the handler does not write |
| Tools.AssembleDistinct | src/index.js:160-161 | no member name appears twice in a body |
| Tools.AssembleLaw | src/index.js:94-96 | a body is faithful to its handler: required members present, optional members exactly when truthy, nothing else, no repeats |
| Tools.HandlerNamesDistinct | src/index.js:36-329 | no handler writes the same member name twice |
| Tools.BodyFaithful | src/index.js:36-329 | a tool sends a body exactly when its handler passes one, and every such body is faithful to the handler's member lists, the reaction body included |
| Tools.OptionalSentWhenSupplied | src/index.js:85-102 | for schema-valid input an optional enum, array or date range is sent exactly when supplied; a free-text one exactly when it is a non-empty string |
| Tools.ListPostsEnumsSentWhenSupplied | src/index.js:211-229 | for schema-valid input the status, sortBy and sortOrder filters reach the query exactly when supplied |
| Tools.RecognizeBuild | src/index.js:36-329 | the method and path every tool passes to `apiRequest` identify the tool and give back its identifier argument (or the query) unchanged |
| Tools.RecognizeFixedGets | src/index.js:42-145 | `GET /platform-connections` and `GET /workspace/users` name `list_connections` and `list_workspace_users` |
| Tools.RecognizeFixedPosts | src/index.js:60-292 | each of the eight fixed POST paths names its one tool |
| Tools.RecognizeDeleteReaction | src/index.js:308 | `DELETE /linkedin-reactions` names `linkedin_delete_reaction`, apart from the POST on the same path |
| Tools.RecognizeGetPost | src/index.js:78 | a `GET /get-post/` path names `get_post` and gives back its id |
| Tools.RecognizeUpdatePost | src/index.js:97 | a `PUT /update-post/` path names `update_post` and gives back its id |
| Tools.RecognizeDeletePost | src/index.js:111 | a `DELETE /delete-post/` path names `delete_post` and gives back its id |
| Tools.RecognizeDetachUser | src/index.js:323 | a `DELETE /workspace/users/` path names `workspace_detach_user` and gives back its id |
| Tools.RecognizeListPosts | src/index.js:231 | a `list_posts` path names `list_posts` and gives back the text after `/list-posts`: `?` and the query, or nothing |
| Tools.DistinctToolsDistinctCalls | src/index.js:36-329 | two different tools never pass the same method and path to `apiRequest` |
| Tools.Outcome | src/index.js:41-46 | a failing status makes the tool fail with the client's error; on success a tool answers the whole body, and the three member-reading tools answer that member of an object body, nothing (`undefined`) for any other non-null body, and fail exactly on a null body |
| Tools.Invoke | src/index.js:12-34 | a tool's upstream request carries the client's key and the JSON content type as its only headers, the tool's method and the URL of its path, and a body exactly when the handler builds one, faithful to the handler's member lists; its answer is the outcome above |
| Gateway.Handle | src/index.js:352-395 | no key gives Unauthorized; otherwise POST without session id gives NewSession, a known session id gives Existing with that id, and anything else gives InvalidSession; only a creation with an assigned id changes the map |
| Gateway.IsCreation | src/index.js:359 | a creation is a POST whose `mcp-session-id` header is falsy: not sent, or sent empty |
| Gateway.Resumes | src/index.js:390 | a resumed request names a stored session in `mcp-session-id` and is never a creation; in a valid map, any stored id named resumes, so the truthiness test adds nothing there |
| Gateway.ReplyOf | src/index.js:354-355 | the gateway itself answers only Unauthorized (401) and InvalidSession (400); sessions answer the rest |
| Gateway.Close | src/index.js:381-383 | closing a transport with an id removes exactly that id and changes no other entry; without an id nothing changes |
| Gateway.AuthenticationFirst | src/index.test.js:102-112 | a request without a usable key gets 401 and leaves the map untouched, whatever session id it names |
| Gateway.UnknownSessionRejected | src/index.test.js:196-207 | an authenticated request that is not a creation and names no stored session gets 400 and leaves the map untouched |
| Gateway.OnlyCreationChangesMap | src/index.js:359-379 | the map changes only on an authenticated POST without session id whose handshake assigned an id |
| Gateway.CreationAddsOneEntry | src/index.js:365-379 | a creation adds the entry under the assigned id, bound to this request's key, and nothing when no id was assigned; other entries stay; a fresh id grows the map by one |
| Gateway.HandleKeepsValid | src/index.js:377-379 | every stored session sits under its own non-empty transport id with a non-empty key, and handling a request keeps it so |
| Gateway.CloseKeepsValid | src/index.js:381-383 | closing a transport keeps the map valid |
| Gateway.CloseIdempotent | src/index.js:381-383 | closing twice is closing once, and closing an absent id changes nothing |
| Gateway.ClosedSessionRejected | src/index.js:389-394 | right after a session closes, an authenticated request naming it gets InvalidSession, POST included |
| Gateway.ResumeIgnoresKey | src/index.js:388-392 | resuming a stored session does not depend on the key the request carries, only on the session id |
| Gateway.CallTool | src/index.js:365-366 | a tool on a stored session runs on that session's client, so its upstream request carries the session's key |
| Gateway.SessionsIsolated | src/index.js:365-366 | sessions created with different keys never send each other's key upstream |
| Gateway.CreatedSessionUsesCreatorsKey | src/index.js:353-378 | the tools of a session created by a request send the key that request carried |
| Gateway.ListTools | src/index.test.js:142-193 | every session lists the same sixteen distinct tool names, covering every tool |
| Gateway.RunKeepsValid | src/index.js:344-395 | every trace of requests and closures keeps the map valid |
| Gateway.AssignsTail | src/index.js:377-379 | an id no event of a trace assigns is not assigned by its tail either |
| Gateway.RunOnlyAssignedKeys | src/index.js:377-379 | every session after a trace was there at the start or was assigned by a handshake in the trace |
| Gateway.GoneStaysGone | src/index.js:381-383 | an absent id stays absent through a trace unless a handshake of that trace assigns it |
| Gateway.EntryFixedForLifetime | src/index.js:378 | while no handshake reassigns its id, a session keeps its transport and key for as long as it lives |
| Gateway.ClosedSessionStaysRejected | src/index.js:381-394 | once a session has closed, later authenticated requests naming it are refused as invalid sessions, as long as no handshake reuses the id |

## Left out

- The Express application, `express.json()`, the `/health` route, `listen` and
  the `PORT` setting are plumbing with no decision in them.
- `PUBLORA_API_URL` is read from the environment. The base URL is a parameter;
  `ApiClient.DefaultBaseUrl` is the fallback the code uses.
- `fetch` and `response.json()` are I/O. The response is a parameter, already
  parsed. A body that is not JSON makes the real call throw, and that error is
  not modelled.
- The MCP SDK (`McpServer`, `StreamableHTTPServerTransport`, `connect`,
  `handleRequest`, JSON-RPC framing, SSE) is code this model cannot see. The
  handshake is reduced to the session id it assigns, if any. Requests routed
  to a transport are answered by it and are not modelled further.
- `crypto.randomUUID` is randomness. Ids are parameters. Their uniqueness is
  never assumed globally. It appears as the antecedent `newId.value !in s` of
  the size clause of `Gateway.CreationAddsOneEntry`, and as the hypothesis
  that no handshake of a trace assigns the id (`Gateway.EntryFixedForLifetime`,
  `Gateway.GoneStaysGone`). The code does not check
  uniqueness: `sessions.set` overwrites, and `Gateway.Handle` does the same.
- The creation branch calls `handleRequest` without awaiting it and reads
  `transport.sessionId` at once. Interleaving with other requests is
  concurrency and is not modelled. Each request is one atomic step.
- The zod schemas are only modelled as `Tools.ValidInput` for the enumerations.
  Type checking of arguments happens before a handler runs, so tool
  arguments are typed values.
- `JSON.stringify(..., null, 2)` formatting of the answer text is left out.
  A tool's answer is the JSON value it would serialise.
- Numbers are integers. JavaScript doubles, fractional pages and exponent
  notation in `String(n)` are floating point and are left out.
- `fetch` parses the URL string: it resolves `.` and `..` segments (also
  percent-encoded ones) and cuts the path at `?` and `#`. Identifiers are
  written into paths unescaped, so an identifier holding such characters can
  reach another tool's endpoint (`delete_post` with `../workspace/users/u1`
  sends what `workspace_detach_user` with `u1` sends). The model stops at the
  URL string; what the server finally receives is not modelled.
- `URLSearchParams` percent-encoding is not modelled. Values are written into
  the query verbatim, so `ListPostsQuery.Encode` is exact only for values that
  need no escaping.
- Node lower-cases header names. Of repeated `authorization` headers it keeps
  the first and drops the rest. It joins repeated headers such as
  `x-publora-key` and `mcp-session-id` with `, `. Headers are a map from
  lower-case names to single values, so repeated headers are not modelled.
- Json.ToJsString: an `error` member that is a number, boolean or object is
  turned into text by a simplified `String(v)` (numbers as integers, objects
  as `[object Object]`). Only the string case is stated in the contract.
