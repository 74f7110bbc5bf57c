/** The session-multiplexing gateway behind `app.all("/")`: the session map,
    the routing of each inbound request, and the removal of a session when
    its transport closes. */
module Gateway {
  import opened Options
  import Credentials
  import ApiClient
  import Tools

  /** The identifier a transport assigns itself during the handshake. */
  type SessionId = string

  const SessionHeader: string := "mcp-session-id"
  const AuthRequiredMessage: string := "API key required. Use Authorization: Bearer <key> or x-publora-key header."
  const InvalidSessionMessage: string := "Invalid or missing session. Send a POST without mcp-session-id to start."

  datatype Request = Request(httpMethod: string, headers: Credentials.Headers)

  /** A stored session: its transport, known by the id it assigned itself,
      and the server whose tools reach upstream through a client bound to
      the key of the request that created the session. */
  datatype Entry = Entry(transport: SessionId, client: ApiClient.Client)

  type Sessions = map<SessionId, Entry>

  /** How the gateway disposed of one request. For `NewSession`, a fresh
      transport took the request and `newId` is the id it gave itself
      during the handshake, if any. */
  datatype Outcome =
    | Unauthorized
    | NewSession(newId: Option<SessionId>)
    | Existing(id: SessionId)
    | InvalidSession

  datatype Step = Step(outcome: Outcome, sessions: Sessions)

  function SessionIdOf(req: Request): Option<string> {
    Credentials.Header(req.headers, SessionHeader)
  }

  /** A creation request: POST whose session id is falsy, that is, not sent
      at all or sent empty. */
  predicate IsCreation(req: Request)
    ensures IsCreation(req) <==>
              req.httpMethod == "POST" && (SessionHeader !in req.headers || req.headers[SessionHeader] == "")
  {
    req.httpMethod == "POST" && !Filled(SessionIdOf(req))
  }

  predicate HasUsableKey(req: Request) {
    Credentials.Authenticated(Credentials.GetApiKey(req.headers))
  }

  /** The request carries a session id the map knows. */
  predicate Resumes(s: Sessions, req: Request)
    ensures Resumes(s, req) ==> SessionHeader in req.headers && req.headers[SessionHeader] in s
    ensures Resumes(s, req) ==> !IsCreation(req)
    ensures Valid(s) && SessionHeader in req.headers && req.headers[SessionHeader] in s ==> Resumes(s, req)
  {
    Filled(SessionIdOf(req)) && SessionIdOf(req).value in s
  }

  /** One inbound request. `newId` is the outcome of the handshake a new
      transport runs on a creation request: the session id it assigned
      itself, if any; it is not consulted otherwise. */
  function Handle(s: Sessions, req: Request, newId: Option<SessionId>): (r: Step)
    ensures r.outcome.Unauthorized? <==> !HasUsableKey(req)
    ensures r.outcome.NewSession? <==> HasUsableKey(req) && IsCreation(req)
    ensures r.outcome.Existing? <==> HasUsableKey(req) && Resumes(s, req)
    ensures r.outcome.InvalidSession? <==> HasUsableKey(req) && !IsCreation(req) && !Resumes(s, req)
    ensures r.outcome.Existing? ==> r.outcome.id == SessionIdOf(req).value
    ensures r.outcome.NewSession? ==> r.outcome.newId == newId
    ensures !(r.outcome.NewSession? && Filled(newId)) ==> r.sessions == s
  {
    var key := Credentials.GetApiKey(req.headers);
    if !Credentials.Authenticated(key) then Step(Unauthorized, s)
    else if IsCreation(req) then
      if Filled(newId) then
        Step(NewSession(newId), s[newId.value := Entry(newId.value, ApiClient.Client(key.value))])
      else Step(NewSession(newId), s)
    else
      var id := SessionIdOf(req);
      if Filled(id) && id.value in s then Step(Existing(id.value), s) else Step(InvalidSession, s)
  }

  /** What the caller receives: a rejection, or the answer the session's
      transport writes itself. */
  datatype Reply =
    | Rejected(status: int, message: string)
    | ByTransport(session: Option<SessionId>)

  function ReplyOf(o: Outcome): (r: Reply)
    ensures r.Rejected? <==> o.Unauthorized? || o.InvalidSession?
    ensures r.Rejected? ==> (r.status == 401 <==> o.Unauthorized?) && (r.status == 400 <==> o.InvalidSession?)
  {
    match o
    case Unauthorized => Rejected(401, AuthRequiredMessage)
    case InvalidSession => Rejected(400, InvalidSessionMessage)
    case NewSession(newId) => ByTransport(newId)
    case Existing(id) => ByTransport(Some(id))
  }

  /** `transport.onclose`: the entry under the transport's own id goes. */
  function Close(s: Sessions, transport: Option<SessionId>): (r: Sessions)
    ensures Filled(transport) ==> r.Keys == s.Keys - {transport.value}
    ensures !Filled(transport) ==> r == s
    ensures forall id :: id in r ==> id in s && r[id] == s[id]
  {
    if Filled(transport) then s - {transport.value} else s
  }

  /** What every stored session satisfies: its key is a non-empty id, the
      entry's transport is the one that assigned that id, and its client
      holds a non-empty key. */
  ghost predicate Valid(s: Sessions) {
    forall id :: id in s ==> id != "" && s[id].transport == id && s[id].client.apiKey != ""
  }

  // Single-step properties.

  /** A request without a usable key is refused with 401 before any session
      lookup, so even an unknown session id gives 401 rather than 400, and
      the map is untouched. */
  lemma AuthenticationFirst(s: Sessions, req: Request, newId: Option<SessionId>)
    requires !HasUsableKey(req)
    ensures Handle(s, req, newId) == Step(Unauthorized, s)
    ensures ReplyOf(Handle(s, req, newId).outcome).status == 401
  {
  }

  /** An authenticated request that is not a creation and names no stored
      session (an unknown id such as "nonexistent-session-id", or none at
      all) is refused with 400 and leaves the map as it was. */
  lemma UnknownSessionRejected(s: Sessions, req: Request, newId: Option<SessionId>)
    requires HasUsableKey(req) && !IsCreation(req) && !Resumes(s, req)
    ensures Handle(s, req, newId) == Step(InvalidSession, s)
    ensures ReplyOf(Handle(s, req, newId).outcome) == Rejected(400, InvalidSessionMessage)
  {
  }

  /** Only an authenticated POST without a session id whose handshake
      assigned an id changes the map; every other request leaves it as it
      was. */
  lemma OnlyCreationChangesMap(s: Sessions, req: Request, newId: Option<SessionId>)
    requires Handle(s, req, newId).sessions != s
    ensures HasUsableKey(req) && IsCreation(req) && Filled(newId)
  {
  }

  /** A creation adds exactly the entry under the handshake's id, bound to
      this request's key, when an id was assigned, and nothing otherwise;
      every other entry is kept; with a fresh id the map grows by one. */
  lemma CreationAddsOneEntry(s: Sessions, req: Request, newId: Option<SessionId>)
    requires HasUsableKey(req) && IsCreation(req)
    ensures var r := Handle(s, req, newId).sessions;
            r.Keys == s.Keys + (if Filled(newId) then {newId.value} else {})
    ensures Filled(newId) ==>
              var r := Handle(s, req, newId).sessions;
              r[newId.value] == Entry(newId.value, ApiClient.Client(Credentials.GetApiKey(req.headers).value))
    ensures forall id :: id in s && (newId.None? || id != newId.value) ==>
              id in Handle(s, req, newId).sessions && Handle(s, req, newId).sessions[id] == s[id]
    ensures Filled(newId) && newId.value !in s ==> |Handle(s, req, newId).sessions| == |s| + 1
  {
  }

  /** Every transition keeps the map valid. */
  lemma HandleKeepsValid(s: Sessions, req: Request, newId: Option<SessionId>)
    requires Valid(s)
    ensures Valid(Handle(s, req, newId).sessions)
  {
  }

  lemma CloseKeepsValid(s: Sessions, transport: Option<SessionId>)
    requires Valid(s)
    ensures Valid(Close(s, transport))
  {
  }

  /** Closing twice is closing once; closing an absent id changes nothing. */
  lemma CloseIdempotent(s: Sessions, transport: Option<SessionId>)
    ensures Close(Close(s, transport), transport) == Close(s, transport)
    ensures transport.Some? && transport.value !in s ==> Close(s, transport) == s
  {
  }

  /** After a session closes, any authenticated request carrying its id is
      refused as an invalid session, POST included. */
  lemma ClosedSessionRejected(s: Sessions, id: SessionId, req: Request, newId: Option<SessionId>)
    requires id != "" && HasUsableKey(req) && SessionIdOf(req) == Some(id)
    ensures Handle(Close(s, Some(id)), req, newId) == Step(InvalidSession, Close(s, Some(id)))
  {
  }

  /** Resuming a session does not look at the request's key: any two
      authenticated requests naming the same stored session reach the same
      entry, so its tools keep using the key the session was created with. */
  lemma ResumeIgnoresKey(s: Sessions, req1: Request, req2: Request, a1: Option<SessionId>, a2: Option<SessionId>)
    requires HasUsableKey(req1) && HasUsableKey(req2) && Resumes(s, req1)
    requires SessionIdOf(req1) == SessionIdOf(req2)
    ensures Handle(s, req1, a1) == Handle(s, req2, a2)
    ensures Handle(s, req1, a1).outcome == Existing(SessionIdOf(req1).value)
  {
  }

  // Tools on a session.

  /** A tool call on stored session `id`: the tool runs on that session's own
      client. */
  function CallTool(s: Sessions, id: SessionId, base: string, c: Tools.ToolCall, resp: ApiClient.Response): (r: Option<Tools.Invocation>)
    ensures r.Some? <==> id in s
    ensures r.Some? ==> Credentials.KeyHeader in r.value.request.headers &&
                        r.value.request.headers[Credentials.KeyHeader] == s[id].client.apiKey
  {
    if id in s then Some(Tools.Invoke(s[id].client, base, c, resp)) else None
  }

  /** Sessions created with different keys never send each other's key:
      every upstream request of session `a` carries `a`'s key, which is not
      `b`'s. */
  lemma SessionsIsolated(s: Sessions, a: SessionId, b: SessionId, base: string,
                         c: Tools.ToolCall, d: Tools.ToolCall, ra: ApiClient.Response, rb: ApiClient.Response)
    requires a in s && b in s && s[a].client.apiKey != s[b].client.apiKey
    ensures CallTool(s, a, base, c, ra).value.request.headers[Credentials.KeyHeader] !=
            CallTool(s, b, base, d, rb).value.request.headers[Credentials.KeyHeader]
  {
  }

  /** A session created by a request is bound to the key that request
      carried. */
  lemma CreatedSessionUsesCreatorsKey(s: Sessions, req: Request, id: SessionId, base: string,
                                      c: Tools.ToolCall, resp: ApiClient.Response)
    requires HasUsableKey(req) && IsCreation(req) && id != ""
    ensures var r := Handle(s, req, Some(id)).sessions;
            CallTool(r, id, base, c, resp).Some? &&
            CallTool(r, id, base, c, resp).value.request.headers[Credentials.KeyHeader] == Credentials.GetApiKey(req.headers).value
  {
  }

  /** Every session advertises the same sixteen tools, whatever key created it. */
  function ListTools(e: Entry): (names: seq<string>)
    ensures |names| == 16
    ensures forall i, j :: 0 <= i < j < |names| ==> names[i] != names[j]
    ensures forall c: Tools.ToolCall :: Tools.Name(c) in names
  {
    Tools.Registry()
  }

  // Traces.

  datatype Event =
    | Arrive(req: Request, newId: Option<SessionId>)
    | Closed(transport: Option<SessionId>)

  function Apply(s: Sessions, e: Event): Sessions {
    match e
    case Arrive(req, newId) => Handle(s, req, newId).sessions
    case Closed(transport) => Close(s, transport)
  }

  /** The map after a sequence of requests and transport closures. */
  function Run(s: Sessions, es: seq<Event>): Sessions
    decreases |es|
  {
    if |es| == 0 then s else Run(Apply(s, es[0]), es[1..])
  }

  /** Some event of the trace is a handshake that assigned `id`. */
  predicate Assigns(es: seq<Event>, id: SessionId) {
    exists i :: 0 <= i < |es| && es[i].Arrive? && es[i].newId == Some(id)
  }

  lemma {:induction false} RunKeepsValid(s: Sessions, es: seq<Event>)
    requires Valid(s)
    ensures Valid(Run(s, es))
    decreases |es|
  {
    if |es| > 0 {
      match es[0] {
        case Arrive(req, newId) => HandleKeepsValid(s, req, newId);
        case Closed(transport) => CloseKeepsValid(s, transport);
      }
      RunKeepsValid(Apply(s, es[0]), es[1..]);
    }
  }

  lemma AssignsTail(es: seq<Event>, id: SessionId)
    requires |es| > 0 && !Assigns(es, id)
    ensures !Assigns(es[1..], id)
  {
    forall i | 0 <= i < |es[1..]|
      ensures !(es[1..][i].Arrive? && es[1..][i].newId == Some(id))
    {
      assert es[1..][i] == es[i + 1];
    }
  }

  /** Every session in the map after a trace was there at the start or was
      assigned by one of the trace's handshakes. */
  lemma {:induction false} RunOnlyAssignedKeys(s: Sessions, es: seq<Event>, id: SessionId)
    requires id in Run(s, es) && id !in s
    ensures Assigns(es, id)
    decreases |es|
  {
    if |es| > 0 {
      var s1 := Apply(s, es[0]);
      if id in s1 {
        assert es[0].Arrive? && es[0].newId == Some(id);
      } else {
        RunOnlyAssignedKeys(s1, es[1..], id);
        var i :| 0 <= i < |es[1..]| && es[1..][i].Arrive? && es[1..][i].newId == Some(id);
        assert es[i + 1] == es[1..][i];
      }
    }
  }

  /** An id that is gone stays gone unless a later handshake assigns it again. */
  lemma {:induction false} GoneStaysGone(s: Sessions, es: seq<Event>, id: SessionId)
    requires id !in s && !Assigns(es, id)
    ensures id !in Run(s, es)
    decreases |es|
  {
    if |es| > 0 {
      AssignsTail(es, id);
      assert !(es[0].Arrive? && es[0].newId == Some(id));
      GoneStaysGone(Apply(s, es[0]), es[1..], id);
    }
  }

  /** A session keeps its transport and its key for as long as it lives:
      while its id is not assigned afresh, the entry is never replaced. */
  lemma {:induction false} EntryFixedForLifetime(s: Sessions, es: seq<Event>, id: SessionId)
    requires id in s && !Assigns(es, id) && id in Run(s, es)
    ensures Run(s, es)[id] == s[id]
    decreases |es|
  {
    if |es| > 0 {
      AssignsTail(es, id);
      var s1 := Apply(s, es[0]);
      assert !(es[0].Arrive? && es[0].newId == Some(id));
      if id in s1 {
        assert s1[id] == s[id];
        EntryFixedForLifetime(s1, es[1..], id);
      } else {
        GoneStaysGone(s1, es[1..], id);
      }
    }
  }

  /** Once a session's transport has closed, later requests naming it are
      refused as invalid sessions, as long as no handshake reuses its id. */
  lemma ClosedSessionStaysRejected(s: Sessions, id: SessionId, es: seq<Event>, req: Request, newId: Option<SessionId>)
    requires id != "" && !Assigns(es, id)
    requires HasUsableKey(req) && SessionIdOf(req) == Some(id)
    ensures Handle(Run(Close(s, Some(id)), es), req, newId).outcome == InvalidSession
  {
    GoneStaysGone(Close(s, Some(id)), es, id);
  }
}
