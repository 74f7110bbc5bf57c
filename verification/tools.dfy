/** The sixteen tools `registerTools` puts on every session's MCP server:
    how each handler turns its validated input into one `apiRequest` call,
    and what it answers with. */
module Tools {
  import opened Options
  import opened Json
  import ApiClient
  import ListPostsQuery
  import Credentials

  datatype Date = Date(year: int, month: int, day: int)
  datatype DateRange = DateRange(start: Date, end: Date)

  /** A tool invocation with its already validated arguments; `None` is an
      optional argument the caller left out. */
  datatype ToolCall =
    | ListConnections
    | CreatePost(content: string, platforms: seq<string>, scheduledTime: string)
    | GetPost(postGroupId: string)
    | UpdatePost(postGroupId: string, status: Option<string>, newScheduledTime: Option<string>)
    | DeletePost(postGroupId: string)
    | GetUploadUrl(postGroupId: string, fileName: string, contentType: string, mediaType: string)
    | ListWorkspaceUsers
    | CreateWorkspaceUser(username: string, displayName: Option<string>)
    | LinkedinPostStats(postedId: string, platformId: string, queryTypes: Option<seq<string>>)
    | LinkedinAccountStats(platformId: string, queryTypes: Option<seq<string>>, aggregation: Option<string>)
    | ListPosts(filter: ListPostsQuery.Filter)
    | LinkedinFollowers(platformId: string, period: Option<string>, dateRange: Option<DateRange>)
    | LinkedinProfileSummary(platformId: string, dateRange: Option<DateRange>)
    | LinkedinCreateReaction(postedId: string, platformId: string, reactionType: string)
    | LinkedinDeleteReaction(postedId: string, platformId: string)
    | WorkspaceDetachUser(userId: string)

  /** The name each tool is registered under. */
  function Name(c: ToolCall): (n: string)
    ensures n in Registry()
  {
    match c
    case ListConnections => "list_connections"
    case CreatePost(_, _, _) => "create_post"
    case GetPost(_) => "get_post"
    case UpdatePost(_, _, _) => "update_post"
    case DeletePost(_) => "delete_post"
    case GetUploadUrl(_, _, _, _) => "get_upload_url"
    case ListWorkspaceUsers => "list_workspace_users"
    case CreateWorkspaceUser(_, _) => "create_workspace_user"
    case LinkedinPostStats(_, _, _) => "linkedin_post_stats"
    case LinkedinAccountStats(_, _, _) => "linkedin_account_stats"
    case ListPosts(_) => "list_posts"
    case LinkedinFollowers(_, _, _) => "linkedin_followers"
    case LinkedinProfileSummary(_, _) => "linkedin_profile_summary"
    case LinkedinCreateReaction(_, _, _) => "linkedin_create_reaction"
    case LinkedinDeleteReaction(_, _) => "linkedin_delete_reaction"
    case WorkspaceDetachUser(_) => "workspace_detach_user"
  }

  /** The tool list a session advertises, in registration order: sixteen
      names, none repeated. */
  function Registry(): (names: seq<string>)
    ensures |names| == 16
    ensures forall i, j :: 0 <= i < j < |names| ==> names[i] != names[j]
  {
    ["list_connections", "create_post", "get_post", "update_post", "delete_post",
     "get_upload_url", "list_workspace_users", "create_workspace_user",
     "linkedin_post_stats", "linkedin_account_stats", "list_posts",
     "linkedin_followers", "linkedin_profile_summary", "linkedin_create_reaction",
     "linkedin_delete_reaction", "workspace_detach_user"]
  }

  /** A tool at each position of the registry, with arguments left empty. */
  function ToolAt(i: nat): (c: ToolCall)
    requires i < |Registry()|
    ensures Name(c) == Registry()[i]
  {
    match i
    case 0 => ListConnections
    case 1 => CreatePost("", [], "")
    case 2 => GetPost("")
    case 3 => UpdatePost("", None, None)
    case 4 => DeletePost("")
    case 5 => GetUploadUrl("", "", "", "")
    case 6 => ListWorkspaceUsers
    case 7 => CreateWorkspaceUser("", None)
    case 8 => LinkedinPostStats("", "", None)
    case 9 => LinkedinAccountStats("", None, None)
    case 10 => ListPosts(ListPostsQuery.Filter(None, None, None, None, None, None, None, None))
    case 11 => LinkedinFollowers("", None, None)
    case 12 => LinkedinProfileSummary("", None)
    case 13 => LinkedinCreateReaction("", "", "")
    case 14 => LinkedinDeleteReaction("", "")
    case _ => WorkspaceDetachUser("")
  }

  /** Conversely, every registered name belongs to some tool, so the
      registry lists exactly the tools' names. */
  lemma RegisteredNamesAreTools(n: string)
    requires n in Registry()
    ensures exists c: ToolCall :: Name(c) == n
  {
    var i :| 0 <= i < |Registry()| && Registry()[i] == n;
    assert Name(ToolAt(i)) == n;
  }

  // JSON encodings of the arguments.

  function Strings(xs: seq<string>): Json {
    JArr(seq(|xs|, i requires 0 <= i < |xs| => JStr(xs[i])))
  }

  function DateJson(d: Date): Json {
    JObj([("year", JNum(d.year)), ("month", JNum(d.month)), ("day", JNum(d.day))])
  }

  function RangeJson(r: DateRange): Json {
    JObj([("start", DateJson(r.start)), ("end", DateJson(r.end))])
  }

  function OptText(o: Option<string>): Option<Json> {
    match o
    case Some(s) => Some(JStr(s))
    case None => None
  }

  function OptStrings(o: Option<seq<string>>): Option<Json> {
    match o
    case Some(xs) => Some(Strings(xs))
    case None => None
  }

  function OptRange(o: Option<DateRange>): Option<Json> {
    match o
    case Some(r) => Some(RangeJson(r))
    case None => None
  }

  /** A handler's body: the members it always writes, then the members it
      writes with `if (x) body.x = x`, each list in the handler's order. */
  datatype Members = Members(always: seq<Field>, whenTruthy: seq<(string, Option<Json>)>)

  /** The optional members that pass JavaScript's `if (x)`, in order. */
  function Truthies(opts: seq<(string, Option<Json>)>): seq<Field>
    decreases |opts|
  {
    if |opts| == 0 then []
    else
      var rest := Truthies(opts[1..]);
      if Given(opts[0].1) then [(opts[0].0, opts[0].1.value)] + rest else rest
  }

  function Assemble(m: Members): seq<Field> {
    m.always + Truthies(m.whenTruthy)
  }

  function FieldNames(fs: seq<Field>): seq<string> {
    seq(|fs|, i requires 0 <= i < |fs| => fs[i].0)
  }

  function OptionNames(opts: seq<(string, Option<Json>)>): seq<string> {
    seq(|opts|, i requires 0 <= i < |opts| => opts[i].0)
  }

  /** The member names a body may carry, in the handler's order. */
  function Declared(m: Members): seq<string> {
    FieldNames(m.always) + OptionNames(m.whenTruthy)
  }

  predicate Distinct(names: seq<string>) {
    forall i, j :: 0 <= i < j < |names| ==> names[i] != names[j]
  }

  /** The body each handler passes to `apiRequest`, or `None` when it passes
      none. */
  function BodyOf(c: ToolCall): (r: Option<Members>)
    ensures r.Some? ==> Distinct(Declared(r.value))
  {
    match c
    case ListConnections => None
    case CreatePost(content, platforms, scheduledTime) =>
      Some(Members([("content", JStr(content)), ("platforms", Strings(platforms)), ("scheduledTime", JStr(scheduledTime))], []))
    case GetPost(_) => None
    case UpdatePost(_, status, scheduledTime) =>
      Some(Members([], [("status", OptText(status)), ("scheduledTime", OptText(scheduledTime))]))
    case DeletePost(_) => None
    case GetUploadUrl(postGroupId, fileName, contentType, mediaType) =>
      Some(Members([("postGroupId", JStr(postGroupId)), ("fileName", JStr(fileName)),
                    ("contentType", JStr(contentType)), ("type", JStr(mediaType))], []))
    case ListWorkspaceUsers => None
    case CreateWorkspaceUser(username, displayName) =>
      Some(Members([("username", JStr(username))], [("displayName", OptText(displayName))]))
    case LinkedinPostStats(postedId, platformId, queryTypes) =>
      Some(Members([("postedId", JStr(postedId)), ("platformId", JStr(platformId))],
                   [("queryTypes", OptStrings(queryTypes))]))
    case LinkedinAccountStats(platformId, queryTypes, aggregation) =>
      Some(Members([("platformId", JStr(platformId))],
                   [("queryTypes", OptStrings(queryTypes)), ("aggregation", OptText(aggregation))]))
    case ListPosts(_) => None
    case LinkedinFollowers(platformId, period, dateRange) =>
      Some(Members([("platformId", JStr(platformId))],
                   [("period", OptText(period)), ("dateRange", OptRange(dateRange))]))
    case LinkedinProfileSummary(platformId, dateRange) =>
      Some(Members([("platformId", JStr(platformId))], [("dateRange", OptRange(dateRange))]))
    case LinkedinCreateReaction(postedId, platformId, reactionType) =>
      Some(Members([("postedId", JStr(postedId)), ("reactionType", JStr(reactionType)), ("platformId", JStr(platformId))], []))
    case LinkedinDeleteReaction(postedId, platformId) =>
      Some(Members([("postedId", JStr(postedId)), ("platformId", JStr(platformId))], []))
    case WorkspaceDetachUser(_) => None
  }

  /** The HTTP method of each tool's upstream call. */
  function Verb(c: ToolCall): (v: string)
    ensures v in {"GET", "POST", "PUT", "DELETE"}
    ensures v == "GET" ==> BodyOf(c).None?
  {
    match c
    case ListConnections => "GET"
    case CreatePost(_, _, _) => "POST"
    case GetPost(_) => "GET"
    case UpdatePost(_, _, _) => "PUT"
    case DeletePost(_) => "DELETE"
    case GetUploadUrl(_, _, _, _) => "POST"
    case ListWorkspaceUsers => "GET"
    case CreateWorkspaceUser(_, _) => "POST"
    case LinkedinPostStats(_, _, _) => "POST"
    case LinkedinAccountStats(_, _, _) => "POST"
    case ListPosts(_) => "GET"
    case LinkedinFollowers(_, _, _) => "POST"
    case LinkedinProfileSummary(_, _) => "POST"
    case LinkedinCreateReaction(_, _, _) => "POST"
    case LinkedinDeleteReaction(_, _) => "DELETE"
    case WorkspaceDetachUser(_) => "DELETE"
  }

  /** The path of each tool's upstream call; identifiers are spliced in as
      they are, without escaping. */
  function PathOf(c: ToolCall): (p: string)
    ensures |p| > 0 && p[0] == '/'
  {
    match c
    case ListConnections => "/platform-connections"
    case CreatePost(_, _, _) => "/create-post"
    case GetPost(id) => "/get-post/" + id
    case UpdatePost(id, _, _) => "/update-post/" + id
    case DeletePost(id) => "/delete-post/" + id
    case GetUploadUrl(_, _, _, _) => "/get-upload-url"
    case ListWorkspaceUsers => "/workspace/users"
    case CreateWorkspaceUser(_, _) => "/workspace/users"
    case LinkedinPostStats(_, _, _) => "/linkedin-post-statistics"
    case LinkedinAccountStats(_, _, _) => "/linkedin-account-statistics"
    case ListPosts(f) =>
      var p := ListPostsQuery.Path(f);
      assert p[0] == p[..|ListPostsQuery.BasePath|][0];
      p
    case LinkedinFollowers(_, _, _) => "/linkedin-followers"
    case LinkedinProfileSummary(_, _) => "/linkedin-profile-summary"
    case LinkedinCreateReaction(_, _, _) => "/linkedin-reactions"
    case LinkedinDeleteReaction(_, _) => "/linkedin-reactions"
    case WorkspaceDetachUser(id) => "/workspace/users/" + id
  }

  /** The `apiRequest(method, path, body)` call a handler makes. */
  function Build(c: ToolCall): (call: ApiClient.Call)
    ensures call.httpMethod == Verb(c) && call.path == PathOf(c)
    ensures call.body.Some? <==> BodyOf(c).Some?
    ensures BodyOf(c).Some? ==> call.body.value.JObj? && Faithful(call.body.value.fields, BodyOf(c).value)
  {
    if BodyOf(c).Some? then
      var m := BodyOf(c).value;
      AssembleLaw(m);
      ApiClient.Call(Verb(c), PathOf(c), Some(JObj(Assemble(m))))
    else ApiClient.Call(Verb(c), PathOf(c), None)
  }

  /** The truthy optional members keep their names and values, carry no
      name twice, and nothing else. */
  lemma {:induction false} TruthiesFacts(opts: seq<(string, Option<Json>)>)
    requires Distinct(OptionNames(opts))
    ensures forall k :: HasKey(Truthies(opts), k) ==> k in OptionNames(opts)
    ensures DistinctKeys(Truthies(opts))
    ensures forall i :: 0 <= i < |opts| ==>
              Lookup(Truthies(opts), opts[i].0) == if Given(opts[i].1) then opts[i].1 else None
    decreases |opts|
  {
    if |opts| > 0 {
      var tail := opts[1..];
      assert OptionNames(tail) == OptionNames(opts)[1..];
      TruthiesFacts(tail);
      var rest := Truthies(tail);
      var t := Truthies(opts);
      var k0 := opts[0].0;
      forall j | 0 <= j < |OptionNames(tail)|
        ensures OptionNames(tail)[j] != k0
      {
        assert OptionNames(tail)[j] == OptionNames(opts)[j + 1];
        assert OptionNames(opts)[0] == k0;
      }
      assert k0 !in OptionNames(tail);
      assert !HasKey(rest, k0);
      forall k | HasKey(t, k)
        ensures k in OptionNames(opts)
      {
        if k != k0 {
          var i :| 0 <= i < |t| && t[i].0 == k;
          if Given(opts[0].1) {
            assert t[i] == rest[i - 1];
          } else {
            assert t == rest;
          }
          assert HasKey(rest, k);
          var j :| 0 <= j < |OptionNames(tail)| && OptionNames(tail)[j] == k;
          assert OptionNames(opts)[j + 1] == k;
        } else {
          assert OptionNames(opts)[0] == k0;
        }
      }
      if Given(opts[0].1) {
        var x := (k0, opts[0].1.value);
        assert t == [x] + rest;
        forall i, j | 0 <= i < j < |t|
          ensures t[i].0 != t[j].0
        {
          assert t[j] == rest[j - 1];
          if i == 0 {
            assert HasKey(rest, t[j].0);
          } else {
            assert t[i] == rest[i - 1];
          }
        }
        forall i | 0 <= i < |opts|
          ensures Lookup(t, opts[i].0) == if Given(opts[i].1) then opts[i].1 else None
        {
          LookupAppend([x], rest, opts[i].0);
          assert [x][..0] == [];
          if i > 0 {
            assert opts[i] == tail[i - 1];
            assert opts[i].0 != k0 by {
              assert OptionNames(opts)[i] == opts[i].0;
              assert OptionNames(opts)[0] == k0;
            }
          }
        }
      } else {
        assert t == rest;
        forall i | 0 <= i < |opts|
          ensures Lookup(t, opts[i].0) == if Given(opts[i].1) then opts[i].1 else None
        {
          if i > 0 {
            assert opts[i] == tail[i - 1];
          }
        }
      }
    }
  }

  /** What distinct declared names say about the two member lists. */
  lemma DeclaredSplit(m: Members)
    requires Distinct(Declared(m))
    ensures Distinct(OptionNames(m.whenTruthy))
    ensures DistinctKeys(m.always)
    ensures forall i, j :: 0 <= i < |m.always| && 0 <= j < |m.whenTruthy| ==> m.always[i].0 != m.whenTruthy[j].0
  {
    var a := m.always;
    var opts := m.whenTruthy;
    var d := Declared(m);
    forall i, j | 0 <= i < j < |opts|
      ensures OptionNames(opts)[i] != OptionNames(opts)[j]
    {
      assert d[|a| + i] == OptionNames(opts)[i] && d[|a| + j] == OptionNames(opts)[j];
    }
    forall i, j | 0 <= i < j < |a|
      ensures a[i].0 != a[j].0
    {
      assert d[i] == a[i].0 && d[j] == a[j].0;
    }
    forall i, j | 0 <= i < |a| && 0 <= j < |opts|
      ensures a[i].0 != opts[j].0
    {
      assert d[i] == a[i].0 && d[|a| + j] == opts[j].0;
    }
  }

  lemma AssembleAlways(m: Members, i: nat)
    requires Distinct(Declared(m)) && i < |m.always|
    ensures Lookup(Assemble(m), m.always[i].0) == Some(m.always[i].1)
  {
    DeclaredSplit(m);
    TruthiesFacts(m.whenTruthy);
    var k := m.always[i].0;
    forall j | 0 <= j < |m.whenTruthy|
      ensures OptionNames(m.whenTruthy)[j] != k
    {
    }
    assert !HasKey(Truthies(m.whenTruthy), k);
    LookupAppend(m.always, Truthies(m.whenTruthy), k);
    LookupDistinct(m.always, i);
  }

  lemma AssembleOptional(m: Members, i: nat)
    requires Distinct(Declared(m)) && i < |m.whenTruthy|
    ensures Lookup(Assemble(m), m.whenTruthy[i].0) == if Given(m.whenTruthy[i].1) then m.whenTruthy[i].1 else None
  {
    DeclaredSplit(m);
    TruthiesFacts(m.whenTruthy);
    var k := m.whenTruthy[i].0;
    assert !HasKey(m.always, k);
    LookupAppend(m.always, Truthies(m.whenTruthy), k);
  }

  lemma AssembleDeclared(m: Members, k: string)
    requires Distinct(Declared(m)) && HasKey(Assemble(m), k)
    ensures k in Declared(m)
  {
    var a := m.always;
    var t := Truthies(m.whenTruthy);
    var d := Declared(m);
    DeclaredSplit(m);
    TruthiesFacts(m.whenTruthy);
    var b: seq<Field> := a + t;
    var i :| 0 <= i < |b| && b[i].0 == k;
    if i < |a| {
      assert d[i] == k;
    } else {
      assert t[i - |a|].0 == k;
      assert HasKey(t, k);
      var j :| 0 <= j < |OptionNames(m.whenTruthy)| && OptionNames(m.whenTruthy)[j] == k;
      assert d[|a| + j] == k;
    }
  }

  lemma AssembleDistinct(m: Members)
    requires Distinct(Declared(m))
    ensures DistinctKeys(Assemble(m))
  {
    var a := m.always;
    var t := Truthies(m.whenTruthy);
    DeclaredSplit(m);
    TruthiesFacts(m.whenTruthy);
    var b: seq<Field> := a + t;
    forall i, j | 0 <= i < j < |b|
      ensures b[i].0 != b[j].0
    {
      if j < |a| {
        assert b[i] == a[i] && b[j] == a[j];
      } else if i >= |a| {
        assert b[i] == t[i - |a|] && b[j] == t[j - |a|];
      } else {
        assert b[i] == a[i] && b[j] == t[j - |a|];
        var k := t[j - |a|].0;
        assert HasKey(t, k);
        var l :| 0 <= l < |OptionNames(m.whenTruthy)| && OptionNames(m.whenTruthy)[l] == k;
        assert a[i].0 != m.whenTruthy[l].0;
      }
    }
  }

  /** The body `fields` built from `m` carries each always-written member
      with its value, each optional member exactly when it is truthy, no
      name twice and no undeclared name. */
  ghost predicate Faithful(fields: seq<Field>, m: Members) {
    && DistinctKeys(fields)
    && (forall k :: HasKey(fields, k) ==> k in Declared(m))
    && (forall i :: 0 <= i < |m.always| ==> Lookup(fields, m.always[i].0) == Some(m.always[i].1))
    && (forall i :: 0 <= i < |m.whenTruthy| ==>
          Lookup(fields, m.whenTruthy[i].0) == if Given(m.whenTruthy[i].1) then m.whenTruthy[i].1 else None)
  }

  lemma AssembleLaw(m: Members)
    requires Distinct(Declared(m))
    ensures Faithful(Assemble(m), m)
  {
    AssembleDistinct(m);
    forall k | HasKey(Assemble(m), k)
      ensures k in Declared(m)
    {
      AssembleDeclared(m, k);
    }
    forall i | 0 <= i < |m.always|
      ensures Lookup(Assemble(m), m.always[i].0) == Some(m.always[i].1)
    {
      AssembleAlways(m, i);
    }
    forall i | 0 <= i < |m.whenTruthy|
      ensures Lookup(Assemble(m), m.whenTruthy[i].0) == if Given(m.whenTruthy[i].1) then m.whenTruthy[i].1 else None
    {
      AssembleOptional(m, i);
    }
  }

  /** No handler writes a member name twice. */
  lemma HandlerNamesDistinct(c: ToolCall)
    requires BodyOf(c).Some?
    ensures Distinct(Declared(BodyOf(c).value))
  {
  }

  /** Every handler's upstream call sends a body exactly when the handler
      builds one, and that body is faithful to the handler's members: the
      required arguments with their values, each optional argument only
      when truthy, nothing else. */
  lemma BodyFaithful(c: ToolCall)
    ensures Build(c).body.Some? <==> BodyOf(c).Some?
    ensures BodyOf(c).Some? ==>
              Build(c).body == Some(JObj(Assemble(BodyOf(c).value))) &&
              Faithful(Assemble(BodyOf(c).value), BodyOf(c).value)
  {
    if BodyOf(c).Some? {
      HandlerNamesDistinct(c);
      AssembleLaw(BodyOf(c).value);
    }
  }

  // Input validation: the enumerations the tool schemas declare.

  predicate OneOf(o: Option<string>, values: set<string>) {
    o.None? || o.value in values
  }

  /** The enumerated arguments hold one of their declared values, as the
      schema validation guarantees before any handler runs. */
  predicate ValidInput(c: ToolCall) {
    match c
    case UpdatePost(_, status, _) => OneOf(status, {"draft", "scheduled"})
    case GetUploadUrl(_, _, _, mediaType) => mediaType in {"image", "video"}
    case LinkedinAccountStats(_, _, aggregation) => OneOf(aggregation, {"DAILY", "TOTAL"})
    case ListPosts(f) =>
      && OneOf(f.status, {"draft", "scheduled", "published", "failed", "partially_published"})
      && OneOf(f.sortBy, {"createdAt", "updatedAt", "scheduledTime"})
      && OneOf(f.sortOrder, {"asc", "desc"})
    case LinkedinFollowers(_, period, _) => OneOf(period, {"lifetime", "daily"})
    case LinkedinCreateReaction(_, _, reactionType) =>
      reactionType in {"LIKE", "PRAISE", "EMPATHY", "INTEREST", "APPRECIATION", "ENTERTAINMENT"}
    case _ => true
  }

  /** The optional arguments that are free text and so can be falsy. */
  const FreeTextArguments: set<string> := {"scheduledTime", "displayName"}

  /** For valid input, an optional enumeration, array or date range reaches
      the body exactly when the caller supplied it; a free-text one exactly
      when it is a non-empty string. */
  lemma OptionalSentWhenSupplied(c: ToolCall, i: nat)
    requires ValidInput(c) && BodyOf(c).Some? && i < |BodyOf(c).value.whenTruthy|
    ensures var (name, v) := BodyOf(c).value.whenTruthy[i];
            if name in FreeTextArguments
            then Given(v) <==> v.Some? && v.value.JStr? && v.value.s != ""
            else Given(v) <==> v.Some?
  {
  }

  /** In a valid `list_posts` call the enumerated filters reach the query
      exactly when supplied. */
  lemma ListPostsEnumsSentWhenSupplied(f: ListPostsQuery.Filter)
    requires ValidInput(ListPosts(f))
    ensures ListPostsQuery.Wanted(f, ListPostsQuery.Status).Some? <==> f.status.Some?
    ensures ListPostsQuery.Wanted(f, ListPostsQuery.SortBy).Some? <==> f.sortBy.Some?
    ensures ListPostsQuery.Wanted(f, ListPostsQuery.SortOrder).Some? <==> f.sortOrder.Some?
  {
  }

  // Reading an upstream call back.

  /** The part of a tool's path that comes from its arguments: the
      identifier for the tools that address one object, the query for
      `list_posts`, nothing otherwise. */
  function Argument(c: ToolCall): string {
    match c
    case GetPost(id) => id
    case UpdatePost(id, _, _) => id
    case DeletePost(id) => id
    case WorkspaceDetachUser(id) => id
    case ListPosts(f) => PathOf(c)[|ListPostsQuery.BasePath|..]
    case _ => ""
  }

  /** Which tool an upstream method and path belong to, and the argument
      part of the path. */
  function Recognize(verb: string, path: string): Option<(string, string)> {
    if verb == "GET" then
      if path == "/platform-connections" then Some(("list_connections", ""))
      else if path == "/workspace/users" then Some(("list_workspace_users", ""))
      else if Credentials.StartsWith(path, "/get-post/") then Some(("get_post", path[10..]))
      else if Credentials.StartsWith(path, "/list-posts") then Some(("list_posts", path[11..]))
      else None
    else if verb == "POST" then
      if path == "/create-post" then Some(("create_post", ""))
      else if path == "/get-upload-url" then Some(("get_upload_url", ""))
      else if path == "/workspace/users" then Some(("create_workspace_user", ""))
      else if path == "/linkedin-post-statistics" then Some(("linkedin_post_stats", ""))
      else if path == "/linkedin-account-statistics" then Some(("linkedin_account_stats", ""))
      else if path == "/linkedin-followers" then Some(("linkedin_followers", ""))
      else if path == "/linkedin-profile-summary" then Some(("linkedin_profile_summary", ""))
      else if path == "/linkedin-reactions" then Some(("linkedin_create_reaction", ""))
      else None
    else if verb == "PUT" then
      if Credentials.StartsWith(path, "/update-post/") then Some(("update_post", path[13..])) else None
    else if verb == "DELETE" then
      if path == "/linkedin-reactions" then Some(("linkedin_delete_reaction", ""))
      else if Credentials.StartsWith(path, "/delete-post/") then Some(("delete_post", path[13..]))
      else if Credentials.StartsWith(path, "/workspace/users/") then Some(("workspace_detach_user", path[17..]))
      else None
    else None
  }

  /** Every `apiRequest` call names its tool and its path argument: the
      sixteen tools make sixteen distinguishable (method, path) calls, with
      identifiers written into the path unchanged. */
  lemma RecognizeBuild(c: ToolCall)
    ensures Recognize(Build(c).httpMethod, Build(c).path) == Some((Name(c), Argument(c)))
  {
    assert Build(c).httpMethod == Verb(c) && Build(c).path == PathOf(c);
    match c {
      case GetPost(id) => RecognizeGetPost(id);
      case UpdatePost(id, _, _) => RecognizeUpdatePost(id);
      case DeletePost(id) => RecognizeDeletePost(id);
      case WorkspaceDetachUser(id) => RecognizeDetachUser(id);
      case ListPosts(f) => RecognizeListPosts(f);
      case ListConnections => RecognizeFixedGets();
      case ListWorkspaceUsers => RecognizeFixedGets();
      case LinkedinDeleteReaction(_, _) => RecognizeDeleteReaction();
      case _ => RecognizeFixedPosts();
    }
  }

  /** The two GET tools without arguments in the path. */
  lemma RecognizeFixedGets()
    ensures Recognize("GET", "/platform-connections") == Some(("list_connections", ""))
    ensures Recognize("GET", "/workspace/users") == Some(("list_workspace_users", ""))
  {
  }

  /** The eight POST tools, each on its own fixed path. */
  lemma RecognizeFixedPosts()
    ensures Recognize("POST", "/create-post") == Some(("create_post", ""))
    ensures Recognize("POST", "/get-upload-url") == Some(("get_upload_url", ""))
    ensures Recognize("POST", "/workspace/users") == Some(("create_workspace_user", ""))
    ensures Recognize("POST", "/linkedin-post-statistics") == Some(("linkedin_post_stats", ""))
    ensures Recognize("POST", "/linkedin-account-statistics") == Some(("linkedin_account_stats", ""))
    ensures Recognize("POST", "/linkedin-followers") == Some(("linkedin_followers", ""))
    ensures Recognize("POST", "/linkedin-profile-summary") == Some(("linkedin_profile_summary", ""))
    ensures Recognize("POST", "/linkedin-reactions") == Some(("linkedin_create_reaction", ""))
  {
  }

  lemma RecognizeDeleteReaction()
    ensures Recognize("DELETE", "/linkedin-reactions") == Some(("linkedin_delete_reaction", ""))
  {
  }

  lemma RecognizeGetPost(id: string)
    ensures Recognize("GET", "/get-post/" + id) == Some(("get_post", id))
  {
    var p := "/get-post/" + id;
    assert p[..10] == "/get-post/" && p[10..] == id;
    assert p[1] == 'g';
  }

  lemma RecognizeUpdatePost(id: string)
    ensures Recognize("PUT", "/update-post/" + id) == Some(("update_post", id))
  {
    var p := "/update-post/" + id;
    assert p[..13] == "/update-post/" && p[13..] == id;
  }

  lemma RecognizeDeletePost(id: string)
    ensures Recognize("DELETE", "/delete-post/" + id) == Some(("delete_post", id))
  {
    var p := "/delete-post/" + id;
    assert p[..13] == "/delete-post/" && p[13..] == id;
    assert p[1] == 'd';
  }

  lemma RecognizeDetachUser(id: string)
    ensures Recognize("DELETE", "/workspace/users/" + id) == Some(("workspace_detach_user", id))
  {
    var p := "/workspace/users/" + id;
    assert p[..17] == "/workspace/users/" && p[17..] == id;
    assert p[1] == 'w';
  }

  lemma RecognizeListPosts(f: ListPostsQuery.Filter)
    ensures Recognize("GET", ListPostsQuery.Path(f)) == Some(("list_posts", Argument(ListPosts(f))))
  {
    var p := ListPostsQuery.Path(f);
    assert |ListPostsQuery.BasePath| == 11;
    assert p[..11] == ListPostsQuery.BasePath;
    assert p[1] == 'l';
    assert p != "/platform-connections" by { assert "/platform-connections"[1] == 'p'; }
    assert p != "/workspace/users" by { assert "/workspace/users"[1] == 'w'; }
    assert !Credentials.StartsWith(p, "/get-post/") by { assert "/get-post/"[1] == 'g'; }
    assert Credentials.StartsWith(p, "/list-posts");
    assert Argument(ListPosts(f)) == p[11..];
  }

  /** Two invocations of different tools never make the same upstream call
      (method and path). */
  lemma DistinctToolsDistinctCalls(c: ToolCall, d: ToolCall)
    requires Name(c) != Name(d)
    ensures (Build(c).httpMethod, Build(c).path) != (Build(d).httpMethod, Build(d).path)
  {
    RecognizeBuild(c);
    RecognizeBuild(d);
  }

  // What a handler answers.

  /** The member of the upstream answer a handler returns instead of the
      whole answer. */
  function ResultMember(c: ToolCall): (r: Option<string>)
    ensures r.Some? <==> Name(c) in {"list_connections", "list_workspace_users", "create_workspace_user"}
    ensures r.Some? ==> r.value in {"connections", "users", "user"}
  {
    match c
    case ListConnections => Some("connections")
    case ListWorkspaceUsers => Some("users")
    case CreateWorkspaceUser(_, _) => Some("user")
    case _ => None
  }

  /** A tool's answer: the JSON value it serialises into its one text block
      (`None` is `undefined`), or the error it fails with. */
  datatype ToolOutcome = Content(payload: Option<Json>) | Failed(error: ApiClient.UpstreamError)

  function Outcome(c: ToolCall, resp: ApiClient.Response): (o: ToolOutcome)
    ensures !ApiClient.IsOk(resp.status) ==> o == Failed(ApiClient.ErrorOf(resp.status, resp.data))
    ensures ApiClient.IsOk(resp.status) && ResultMember(c).None? ==> o == Content(Some(resp.data))
    ensures ApiClient.IsOk(resp.status) && ResultMember(c).Some? && resp.data.JObj? ==>
              o == Content(Lookup(resp.data.fields, ResultMember(c).value))
    ensures o.Failed? && ApiClient.IsOk(resp.status) ==> o.error.NullDataRead? && resp.data.JNull?
    ensures ApiClient.IsOk(resp.status) && ResultMember(c).Some? ==> (o.Failed? <==> resp.data.JNull?)
    ensures ApiClient.IsOk(resp.status) && ResultMember(c).Some? && !resp.data.JNull? && !resp.data.JObj? ==>
              o == Content(None)
  {
    match ApiClient.Complete(resp)
    case Failure(e) => Failed(e)
    case Success(data) =>
      match ResultMember(c)
      case None => Content(Some(data))
      case Some(member) => if data.JNull? then Failed(ApiClient.NullDataRead) else Content(Property(data, member))
  }

  /** One tool invocation on a client: the request sent upstream and the
      tool's answer. */
  datatype Invocation = Invocation(request: ApiClient.Outbound, outcome: ToolOutcome)

  function Invoke(client: ApiClient.Client, base: string, c: ToolCall, resp: ApiClient.Response): (r: Invocation)
    ensures Credentials.KeyHeader in r.request.headers && r.request.headers[Credentials.KeyHeader] == client.apiKey
    ensures r.request.httpMethod == Verb(c)
    ensures r.request.url == ApiClient.Url(base, PathOf(c))
    ensures ApiClient.ContentTypeHeader in r.request.headers && r.request.headers[ApiClient.ContentTypeHeader] == ApiClient.JsonContentType
    ensures r.request.headers.Keys == {Credentials.KeyHeader, ApiClient.ContentTypeHeader}
    ensures r.request.body.Some? <==> BodyOf(c).Some?
    ensures BodyOf(c).Some? ==> r.request.body.value.JObj? && Faithful(r.request.body.value.fields, BodyOf(c).value)
    ensures r.outcome == Outcome(c, resp)
  {
    Invocation(ApiClient.Prepare(client, base, Build(c)), Outcome(c, resp))
  }
}
