/**
  The two issue-tracker tools of app/tools/jira.py, `get_jira_issue` and
  `create_jira_issue`, as decisions over the request headers, the tool
  arguments and the HTTP exchange. The exchange is an input: what the server
  answered (status, body text and the body decoded as JSON, if it decodes), or
  that the call timed out, or that the HTTP client raised some other error.
*/
module Jira {
  import opened Wrappers
  import opened Json
  import Text
  import opened Credentials
  import opened Payload

  // ---------------------------------------------------------------- URLs

  /** `jira_url.rstrip("/")`. */
  function BaseUrl(jiraUrl: string): string {
    Text.RStrip(jiraUrl, '/')
  }

  function IssueUrl(base: string, issueKey: string): string {
    base + "/rest/api/3/issue/" + issueKey
  }

  function CreateUrl(base: string): string {
    base + "/rest/api/3/issue"
  }

  function BrowseUrl(base: string, issueKey: string): string {
    base + "/browse/" + issueKey
  }

  /**
    The base URL never ends in a slash, so every endpoint has exactly one slash
    where the path is joined, and a header value with any number of trailing
    slashes gives the same endpoints as one with none.
  */
  lemma TrailingSlashesIgnored(jiraUrl: string, n: nat, issueKey: string)
    ensures BaseUrl(jiraUrl) <= jiraUrl
    ensures |BaseUrl(jiraUrl)| > 0 ==> BaseUrl(jiraUrl)[|BaseUrl(jiraUrl)| - 1] != '/'
    ensures IssueUrl(BaseUrl(jiraUrl + Text.Repeat('/', n)), issueKey) == IssueUrl(BaseUrl(jiraUrl), issueKey)
    ensures CreateUrl(BaseUrl(jiraUrl + Text.Repeat('/', n))) == CreateUrl(BaseUrl(jiraUrl))
    ensures BrowseUrl(BaseUrl(jiraUrl + Text.Repeat('/', n)), issueKey) == BrowseUrl(BaseUrl(jiraUrl), issueKey)
  {
    Text.RStripPadded(jiraUrl, '/', n);
  }

  // ---------------------------------------------------------------- exchange

  datatype Verb = GET | POST

  /** The request a tool sends: method, URL, basic-auth pair, headers, JSON body, timeout. */
  datatype Request = Request(
    verb: Verb,
    url: string,
    auth: (string, string),
    headers: seq<(string, string)>,
    body: Option<Json>,
    timeoutSeconds: nat)

  /** What came of sending the request. `parsed` is None when `resp.json()` would raise. */
  datatype Exchange =
    | Responded(status: int, text: string, parsed: Option<Json>)
    | TimedOut
    | Raised(message: string)

  /** The exceptions the code inside the `try` can raise once the exchange is over. */
  datatype Fault =
    | BodyNotJson             // resp.json() on a body that is not JSON
    | KeyMissing(key: string) // KeyError from d[key]
    | NotSubscriptable        // TypeError from v[key] on a value that is not a dict
    | NoGetMethod             // AttributeError from v.get(...) on a value that is not a dict
    | Transport(message: string) // any other error of the HTTP client

  datatype Failure =
    | MissingHeaders(names: seq<string>)
    | NotFound(issueKey: string)
    | AuthFailed
    | HttpError(code: int, excerpt: string)
    | Timeout
    | Unexpected(fault: Fault)

  /** Exactly one of these is the result of every invocation. */
  datatype Outcome<T> = Success(value: T) | Failed(failure: Failure)

  /** The four values the fetch tool reports; each is whatever JSON value the server sent. */
  datatype IssueView = IssueView(key: Json, summary: Json, status: Json, assignee: Json)

  /** What the create tool reports. */
  datatype CreatedIssue = CreatedIssue(key: Json, link: string, summary: string, issueType: string)

  /** The request that was sent (none when headers were missing) and the outcome. */
  datatype Invocation<T> = Invocation(sent: Option<Request>, outcome: Outcome<T>)

  const FetchTimeoutSeconds := 15
  const CreateTimeoutSeconds := 20
  const NotFoundStatus := 404
  const UnauthorizedStatus := 401
  const FetchErrorExcerpt := 200
  const CreateErrorExcerpt := 300

  const NoSummary := "No summary"
  const UnknownStatus := "Unknown"
  const Unassigned := "Unassigned"

  // ---------------------------------------------------------------- Python access to decoded JSON

  /** `v[k]` on a decoded value. */
  function Index(v: Json, k: string): (r: Result<Json, Fault>)
    ensures r.Ok? <==> v.JObject? && Get(v.members, k).Some?
    ensures r.Ok? ==> Get(v.members, k) == Some(r.value)
    ensures v.JObject? && r.Err? ==> r.error == KeyMissing(k)
    ensures !v.JObject? ==> r == Err(NotSubscriptable)
  {
    if !v.JObject? then Err(NotSubscriptable)
    else if Get(v.members, k).None? then Err(KeyMissing(k))
    else Ok(Get(v.members, k).value)
  }

  /** `v.get(k, default)` on a decoded value. */
  function GetOr(v: Json, k: string, default: Json): (r: Result<Json, Fault>)
    ensures r.Ok? <==> v.JObject?
    ensures r.Err? ==> r.error == NoGetMethod
    ensures r.Ok? ==> r.value == (if Get(v.members, k).Some? then Get(v.members, k).value else default)
  {
    if !v.JObject? then Err(NoGetMethod) else Ok(Get(v.members, k).GetOr(default))
  }

  // ---------------------------------------------------------------- fetch

  /** `fields.get("status", {}).get("name", "Unknown")`, given the first `get`. */
  function StatusName(status: Json): Result<Json, Fault> {
    GetOr(status, "name", JString(UnknownStatus))
  }

  /** `assignee.get("displayName", "Unassigned") if assignee else "Unassigned"`. */
  function AssigneeName(assignee: Json): Result<Json, Fault> {
    if Truthy(assignee) then GetOr(assignee, "displayName", JString(Unassigned)) else Ok(JString(Unassigned))
  }

  /**
    Summary, status name and assignee name read from `fields`, in the order the
    source reads them; the first `fields.get` fails unless `fields` is a dict,
    after which the other two cannot fail.
  */
  function ReadFields(fields: Json): (r: Result<(Json, Json, Json), Fault>)
    ensures !fields.JObject? ==> r == Err(NoGetMethod)
    ensures r.Err? ==> r.error == NoGetMethod
    ensures r.Ok? <==> && fields.JObject?
                       && (Get(fields.members, "status").None? || Get(fields.members, "status").value.JObject?)
                       && (Get(fields.members, "assignee").None? || !Truthy(Get(fields.members, "assignee").value)
                           || Get(fields.members, "assignee").value.JObject?)
  {
    if !fields.JObject? then Err(NoGetMethod)
    else
      var summary := Get(fields.members, "summary").GetOr(JString(NoSummary));
      var status :- StatusName(Get(fields.members, "status").GetOr(JObject([])));
      var assigneeName :- AssigneeName(Get(fields.members, "assignee").GetOr(JNull));
      Ok((summary, status, assigneeName))
  }

  /** The body of `get_jira_issue` after a 200 answer (app/tools/jira.py:46-52 and 55). */
  function ReadIssue(parsed: Option<Json>): (r: Result<IssueView, Fault>)
    ensures parsed.None? ==> r == Err(BodyNotJson)
    ensures parsed.Some? && !parsed.value.JObject? ==> r == Err(NotSubscriptable)
    ensures parsed.Some? && parsed.value.JObject? && Get(parsed.value.members, "fields").None? ==>
              r == Err(KeyMissing("fields"))
    ensures parsed.Some? && parsed.value.JObject? && Get(parsed.value.members, "fields").Some? ==>
              var found := ReadFields(Get(parsed.value.members, "fields").value);
              && (found.Err? ==> r == Err(found.error))
              && (found.Ok? && Get(parsed.value.members, "key").None? ==> r == Err(KeyMissing("key")))
    ensures r.Ok? <==> && parsed.Some? && parsed.value.JObject?
                       && Get(parsed.value.members, "fields").Some?
                       && ReadFields(Get(parsed.value.members, "fields").value).Ok?
                       && Get(parsed.value.members, "key").Some?
    ensures r.Ok? ==> var found := ReadFields(Get(parsed.value.members, "fields").value);
                      found.Ok? && (r.value.summary, r.value.status, r.value.assignee) == found.value
    ensures r.Ok? ==> && parsed.Some? && parsed.value.JObject?
                      && Get(parsed.value.members, "key") == Some(r.value.key)
                      && Get(parsed.value.members, "fields").Some?
                      && Get(parsed.value.members, "fields").value.JObject?
  {
    if parsed.None? then Err(BodyNotJson)
    else
      var data := parsed.value;
      var fields :- Index(data, "fields");
      var found :- ReadFields(fields);
      var key :- Index(data, "key");
      Ok(IssueView(key, found.0, found.1, found.2))
  }

  /**
    The status name `fields.get("status", {}).get("name", "Unknown")` for the
    value of `status`: its `name`, or "Unknown" for a dict without one; a
    value that is not a dict raises.
  */
  lemma StatusDefault(status: Json)
    ensures StatusName(status).Ok? <==> status.JObject?
    ensures !status.JObject? ==> StatusName(status) == Err(NoGetMethod)
    ensures status.JObject? && Get(status.members, "name").Some? ==>
              StatusName(status) == Ok(Get(status.members, "name").value)
    ensures status.JObject? && Get(status.members, "name").None? ==>
              StatusName(status) == Ok(JString(UnknownStatus))
  {
  }

  /**
    The assignee name for the value of `assignee`: "Unassigned" for a falsy
    value (null, `{}`, `""`, ...), the `displayName` of a non-empty dict or
    "Unassigned" when it has none; a truthy value that is not a dict raises.
  */
  lemma AssigneeDefault(assignee: Json)
    ensures !Truthy(assignee) ==> AssigneeName(assignee) == Ok(JString(Unassigned))
    ensures Truthy(assignee) && !assignee.JObject? ==> AssigneeName(assignee) == Err(NoGetMethod)
    ensures Truthy(assignee) && assignee.JObject? && Get(assignee.members, "displayName").Some? ==>
              AssigneeName(assignee) == Ok(Get(assignee.members, "displayName").value)
    ensures Truthy(assignee) && assignee.JObject? && Get(assignee.members, "displayName").None? ==>
              AssigneeName(assignee) == Ok(JString(Unassigned))
  {
  }

  /**
    What a successful read of any answer reports: its `key`; its `summary` or
    "No summary"; the `name` of its `status` or "Unknown" when the status or
    its name is absent; and the `displayName` of its assignee or "Unassigned"
    when the assignee is absent, falsy or has no display name. Other members
    of the answer, of `fields` and of the nested objects play no part.
  */
  lemma ReadIssueDefaults(data: Json)
    requires ReadIssue(Some(data)).Ok?
    ensures var v := ReadIssue(Some(data)).value;
            var fs := Get(data.members, "fields").value.members;
            var summary, status, assignee := Get(fs, "summary"), Get(fs, "status"), Get(fs, "assignee");
            && Get(data.members, "key") == Some(v.key)
            && (summary.Some? ==> v.summary == summary.value)
            && (summary.None? ==> v.summary == JString(NoSummary))
            && (status.None? ==> v.status == JString(UnknownStatus))
            && (status.Some? && Get(status.value.members, "name").Some? ==> v.status == Get(status.value.members, "name").value)
            && (status.Some? && Get(status.value.members, "name").None? ==> v.status == JString(UnknownStatus))
            && (assignee.None? || !Truthy(assignee.value) ==> v.assignee == JString(Unassigned))
            && (assignee.Some? && Truthy(assignee.value) && Get(assignee.value.members, "displayName").Some? ==>
                  v.assignee == Get(assignee.value.members, "displayName").value)
            && (assignee.Some? && Truthy(assignee.value) && Get(assignee.value.members, "displayName").None? ==>
                  v.assignee == JString(Unassigned))
  {
    var fields := Get(data.members, "fields").value;
    var fs := fields.members;
    StatusDefault(Get(fs, "status").GetOr(JObject([])));
    AssigneeDefault(Get(fs, "assignee").GetOr(JNull));
  }

  /**
    Status classification of the fetch tool (app/tools/jira.py:39-44): 404 is
    not-found, then 401 is an authentication failure, then anything but 200 is
    an error with at most 200 characters of the body; only 200 reads the issue.
  */
  function ClassifyFetch(issueKey: string, e: Exchange): (r: Outcome<IssueView>)
    ensures r == Failed(Timeout) <==> e.TimedOut?
    ensures e.Raised? ==> r == Failed(Unexpected(Transport(e.message)))
    ensures e.Responded? ==> (r == Failed(NotFound(issueKey)) <==> e.status == NotFoundStatus)
    ensures e.Responded? ==> (r == Failed(AuthFailed) <==> e.status == UnauthorizedStatus)
    ensures e.Responded? && e.status !in {200, NotFoundStatus, UnauthorizedStatus} ==>
              r == Failed(HttpError(e.status, Text.Take(e.text, FetchErrorExcerpt)))
    ensures r.Failed? && r.failure.HttpError? ==> && e.Responded? && r.failure.code == e.status
                                                  && r.failure.excerpt <= e.text
                                                  && |r.failure.excerpt| <= FetchErrorExcerpt
    ensures r.Success? ==> e.Responded? && e.status == 200 && ReadIssue(e.parsed) == Ok(r.value)
    ensures e.Responded? && e.status == 200 && ReadIssue(e.parsed).Ok? ==> r == Success(ReadIssue(e.parsed).value)
    ensures e.Responded? && e.status == 200 && ReadIssue(e.parsed).Err? ==> r == Failed(Unexpected(ReadIssue(e.parsed).error))
    ensures !(r.Failed? && r.failure.MissingHeaders?)
  {
    match e
    case TimedOut => Failed(Timeout)
    case Raised(m) => Failed(Unexpected(Transport(m)))
    case Responded(status, text, parsed) =>
      if status == NotFoundStatus then Failed(NotFound(issueKey))
      else if status == UnauthorizedStatus then Failed(AuthFailed)
      else if status != 200 then Failed(HttpError(status, Text.Take(text, FetchErrorExcerpt)))
      else
        match ReadIssue(parsed)
        case Ok(view) => Success(view)
        case Err(f) => Failed(Unexpected(f))
  }

  function FetchRequest(c: Credentials, issueKey: string): Request {
    Request(GET, IssueUrl(BaseUrl(c.url), issueKey), (c.email, c.token),
            [("Accept", "application/json")], None, FetchTimeoutSeconds)
  }

  /** `get_jira_issue` (app/tools/jira.py:6-65). */
  function GetJiraIssue(headers: map<string, string>, issueKey: string, e: Exchange): (r: Invocation<IssueView>)
    ensures r.sent.None? <==> MissingHeaderNames(headers) != []
    ensures r.sent.None? ==> r.outcome == Failed(MissingHeaders(MissingHeaderNames(headers)))
    ensures r.sent.Some? ==> && UrlHeader in headers && EmailHeader in headers && TokenHeader in headers
                             && r.sent.value.verb == GET
                             && r.sent.value.url == BaseUrl(headers[UrlHeader]) + "/rest/api/3/issue/" + issueKey
                             && r.sent.value.auth == (headers[EmailHeader], headers[TokenHeader])
                             && r.sent.value.headers == [("Accept", "application/json")]
                             && r.sent.value.body == None
                             && r.sent.value.timeoutSeconds == 15
                             && r.outcome == ClassifyFetch(issueKey, e)
  {
    match Resolve(headers)
    case Err(missing) => Invocation(None, Failed(MissingHeaders(missing)))
    case Ok(c) => Invocation(Some(FetchRequest(c, issueKey)), ClassifyFetch(issueKey, e))
  }

  /** With a header missing, no request is made and nothing the network could do matters. */
  lemma MissingHeadersShortCircuit(headers: map<string, string>, issueKey: string, e1: Exchange, e2: Exchange)
    requires MissingHeaderNames(headers) != []
    ensures GetJiraIssue(headers, issueKey, e1) == GetJiraIssue(headers, issueKey, e2)
    ensures GetJiraIssue(headers, issueKey, e1).sent == None
  {
  }

  // ---------------------------------------------------------------- create

  /** `data = resp.json(); key = data["key"]` after a 200 or 201 answer. */
  function ReadCreatedKey(parsed: Option<Json>): (r: Result<Json, Fault>)
    ensures r.Ok? <==> parsed.Some? && parsed.value.JObject? && Get(parsed.value.members, "key").Some?
    ensures r.Ok? ==> Get(parsed.value.members, "key") == Some(r.value)
    ensures parsed.None? ==> r == Err(BodyNotJson)
    ensures parsed.Some? && !parsed.value.JObject? ==> r == Err(NotSubscriptable)
    ensures parsed.Some? && parsed.value.JObject? && Get(parsed.value.members, "key").None? ==> r == Err(KeyMissing("key"))
  {
    if parsed.None? then Err(BodyNotJson) else Index(parsed.value, "key")
  }

  /**
    Status classification of the create tool (app/tools/jira.py:140-155):
    200 and 201 succeed with the new key and its browse link; every other status
    is an error with at most 300 characters of the body.
  */
  function ClassifyCreate(base: string, summary: string, issueType: string, e: Exchange): (r: Outcome<CreatedIssue>)
    ensures r == Failed(Timeout) <==> e.TimedOut?
    ensures e.Raised? ==> r == Failed(Unexpected(Transport(e.message)))
    ensures r.Success? <==> e.Responded? && e.status in {200, 201} && ReadCreatedKey(e.parsed).Ok?
    ensures e.Responded? && e.status in {200, 201} && ReadCreatedKey(e.parsed).Err? ==>
              r == Failed(Unexpected(ReadCreatedKey(e.parsed).error))
    ensures r.Success? ==> && r.value.key == ReadCreatedKey(e.parsed).value
                           && r.value.link == BrowseUrl(base, Show(r.value.key))
                           && r.value.summary == summary && r.value.issueType == issueType
    ensures e.Responded? && e.status !in {200, 201} ==>
              r == Failed(HttpError(e.status, Text.Take(e.text, CreateErrorExcerpt)))
    ensures r.Failed? && r.failure.HttpError? ==> && e.Responded? && r.failure.code == e.status
                                                  && e.status !in {200, 201}
                                                  && r.failure.excerpt <= e.text
                                                  && |r.failure.excerpt| <= CreateErrorExcerpt
    ensures r.Failed? ==> !r.failure.NotFound? && !r.failure.AuthFailed? && !r.failure.MissingHeaders?
  {
    match e
    case TimedOut => Failed(Timeout)
    case Raised(m) => Failed(Unexpected(Transport(m)))
    case Responded(status, text, parsed) =>
      if status == 200 || status == 201 then
        match ReadCreatedKey(parsed)
        case Ok(key) => Success(CreatedIssue(key, BrowseUrl(base, Show(key)), summary, issueType))
        case Err(f) => Failed(Unexpected(f))
      else
        Failed(HttpError(status, Text.Take(text, CreateErrorExcerpt)))
  }

  /** A 200/201 answer `{"key": k}` yields k and the link `base + "/browse/" + k`. */
  lemma CreatedFromKey(base: string, summary: string, issueType: string, status: int, text: string, k: string)
    requires status == 200 || status == 201
    ensures ClassifyCreate(base, summary, issueType, Responded(status, text, Some(JObject([("key", JString(k))]))))
         == Success(CreatedIssue(JString(k), base + "/browse/" + k, summary, issueType))
  {
    assert Get([("key", JString(k))], "key") == Some(JString(k));
  }

  /** `create_jira_issue` (app/tools/jira.py:69-160). */
  method CreateJiraIssue(headers: map<string, string>, args: CreateArgs, e: Exchange) returns (r: Invocation<CreatedIssue>)
    ensures r.sent.None? <==> MissingHeaderNames(headers) != []
    ensures r.sent.None? ==> r.outcome == Failed(MissingHeaders(MissingHeaderNames(headers)))
    ensures r.sent.Some? ==> && UrlHeader in headers && EmailHeader in headers && TokenHeader in headers
                             && r.sent.value.verb == POST
                             && r.sent.value.url == BaseUrl(headers[UrlHeader]) + "/rest/api/3/issue"
                             && r.sent.value.auth == (headers[EmailHeader], headers[TokenHeader])
                             && r.sent.value.headers == [("Accept", "application/json"), ("Content-Type", "application/json")]
                             && r.sent.value.body.Some?
                             && PayloadFor(args, r.sent.value.body.value)
                             && r.sent.value.timeoutSeconds == 20
                             && r.outcome == ClassifyCreate(BaseUrl(headers[UrlHeader]), args.summary, args.issueType, e)
  {
    var creds := Resolve(headers);
    if creds.Err? {
      return Invocation(None, Failed(MissingHeaders(creds.error)));
    }
    var c := creds.value;
    var base := BaseUrl(c.url);
    var payload := BuildPayload(args);
    var request := Request(POST, CreateUrl(base), (c.email, c.token),
                           [("Accept", "application/json"), ("Content-Type", "application/json")],
                           Some(payload), CreateTimeoutSeconds);
    r := Invocation(Some(request), ClassifyCreate(base, args.summary, args.issueType, e));
  }
}
