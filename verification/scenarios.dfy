/**
  End-to-end consequences of the model for the situations the tools are built
  for: a complete set of headers and a server that answers as the issue
  tracker does.
*/
module Scenarios {
  import opened Wrappers
  import opened Json
  import Text
  import opened Credentials
  import opened Jira
  import opened Render
  import opened Payload

  /** Headers that carry all three credentials. */
  predicate Complete(headers: map<string, string>) {
    Present(headers, UrlHeader) && Present(headers, EmailHeader) && Present(headers, TokenHeader)
  }

  /** How the assignee appears in an answer: no key, null, an object without a name, or a name. */
  datatype AssigneeField = NoAssigneeKey | NullAssignee | AssigneeWithoutName(accountId: string) | Named(name: string)

  function AssigneeMembers(a: AssigneeField): seq<(string, Json)> {
    match a
    case NoAssigneeKey => []
    case NullAssignee => [("assignee", JNull)]
    case AssigneeWithoutName(id) => [("assignee", JObject([("accountId", JString(id))]))]
    case Named(name) => [("assignee", JObject([("displayName", JString(name))]))]
  }

  /**
    A minimal answer of the issue endpoint: `key` and a `fields` object holding
    only the three fields the tool reads, each present or not.
  */
  function IssueBody(key: string, summary: Option<string>, status: Option<string>, assignee: AssigneeField): Json {
    JObject([("key", JString(key)), ("fields", JObject(IssueFields(summary, status, assignee)))])
  }

  function SummaryMembers(summary: Option<string>): seq<(string, Json)> {
    if summary.Some? then [("summary", JString(summary.value))] else []
  }

  function StatusMembers(status: Option<string>): seq<(string, Json)> {
    if status.Some? then [("status", JObject([("name", JString(status.value))]))] else []
  }

  function IssueFields(summary: Option<string>, status: Option<string>, assignee: AssigneeField): seq<(string, Json)> {
    SummaryMembers(summary) + StatusMembers(status) + AssigneeMembers(assignee)
  }

  /** The `fields` object of such an answer holds the summary that was put in it, if any. */
  lemma SummaryLookup(summary: Option<string>, status: Option<string>, assignee: AssigneeField)
    ensures Get(IssueFields(summary, status, assignee), "summary")
         == if summary.Some? then Some(JString(summary.value)) else None
  {
    var s, t, a := SummaryMembers(summary), StatusMembers(status), AssigneeMembers(assignee);
    GetAppend(s + t, a, "summary");
    GetAppend(s, t, "summary");
  }

  /** The `fields` object of such an answer holds the status that was put in it, if any. */
  lemma StatusLookup(summary: Option<string>, status: Option<string>, assignee: AssigneeField)
    ensures Get(IssueFields(summary, status, assignee), "status")
         == if status.Some? then Some(JObject([("name", JString(status.value))])) else None
  {
    var s, t, a := SummaryMembers(summary), StatusMembers(status), AssigneeMembers(assignee);
    GetAppend(s + t, a, "status");
    GetAppend(s, t, "status");
  }

  /** The `fields` object of such an answer holds the assignee that was put in it, if any. */
  lemma AssigneeLookup(summary: Option<string>, status: Option<string>, assignee: AssigneeField)
    ensures Get(IssueFields(summary, status, assignee), "assignee")
         == if assignee.NoAssigneeKey? then None else Some(AssigneeMembers(assignee)[0].1)
  {
    var s, t, a := SummaryMembers(summary), StatusMembers(status), AssigneeMembers(assignee);
    GetAppend(s + t, a, "assignee");
    GetAppend(s, t, "assignee");
  }

  /** The answer holds its key and its `fields` object. */
  lemma IssueBodyLookups(key: string, summary: Option<string>, status: Option<string>, assignee: AssigneeField)
    ensures var body := IssueBody(key, summary, status, assignee);
            && Get(body.members, "key") == Some(JString(key))
            && Get(body.members, "fields") == Some(JObject(IssueFields(summary, status, assignee)))
  {
  }

  /**
    A 200 answer `{"key": "KAN-2", "fields": {"summary": "Fix bug", "status": {"name": "Open"}}}`
    yields a success whose text names the key, the summary, the status and
    "Unassigned".
  */
  lemma FetchWithoutAssignee(headers: map<string, string>, text: string)
    requires Complete(headers)
    ensures var r := GetJiraIssue(headers, "KAN-2",
                                  Responded(200, text, Some(IssueBody("KAN-2", Some("Fix bug"), Some("Open"), NoAssigneeKey))));
            && r.sent.Some?
            && r.outcome == Success(IssueView(JString("KAN-2"), JString("Fix bug"), JString("Open"), JString("Unassigned")))
            && Text.Contains(RenderFetch(r.outcome), "KAN-2")
            && Text.Contains(RenderFetch(r.outcome), "Fix bug")
            && Text.Contains(RenderFetch(r.outcome), "Open")
            && Text.Contains(RenderFetch(r.outcome), "Unassigned")
  {
    var v := IssueView(JString("KAN-2"), JString("Fix bug"), JString("Open"), JString("Unassigned"));
    FetchedWithHeaders(headers, text);
    var e := Responded(200, text, Some(IssueBody("KAN-2", Some("Fix bug"), Some("Open"), NoAssigneeKey)));
    assert GetJiraIssue(headers, "KAN-2", e).outcome == Success(v);
    IssueTextMentions(v);
    assert Show(v.key) == "KAN-2" && Show(v.summary) == "Fix bug";
    assert Show(v.status) == "Open" && Show(v.assignee) == "Unassigned";
  }

  lemma FetchedWithHeaders(headers: map<string, string>, text: string)
    requires Complete(headers)
    ensures var r := GetJiraIssue(headers, "KAN-2",
                                  Responded(200, text, Some(IssueBody("KAN-2", Some("Fix bug"), Some("Open"), NoAssigneeKey))));
            && r.sent.Some?
            && r.outcome == Success(IssueView(JString("KAN-2"), JString("Fix bug"), JString("Open"), JString("Unassigned")))
  {
    MissingHeaderNamesExact(headers);
    assert MissingHeaderNames(headers) == [];
    FetchedIssue(text, NoAssigneeKey);
  }

  /**
    Reading the minimal answer with summary "Fix bug" and status "Open": the
    assignee is the display name when one is given and "Unassigned" when the
    assignee key is absent, null, or an object without `displayName`.
  */
  lemma FetchedIssue(text: string, assignee: AssigneeField)
    ensures ClassifyFetch("KAN-2", Responded(200, text, Some(IssueBody("KAN-2", Some("Fix bug"), Some("Open"), assignee))))
         == Success(IssueView(JString("KAN-2"), JString("Fix bug"), JString("Open"),
                              JString(if assignee.Named? then assignee.name else "Unassigned")))
  {
    IssueBodyLookups("KAN-2", Some("Fix bug"), Some("Open"), assignee);
    MinimalFields(assignee);
  }

  /** The three reads on the `fields` object of that answer. */
  lemma MinimalFields(assignee: AssigneeField)
    ensures ReadFields(JObject(IssueFields(Some("Fix bug"), Some("Open"), assignee)))
         == Ok((JString("Fix bug"), JString("Open"), JString(if assignee.Named? then assignee.name else "Unassigned")))
  {
    var fs := IssueFields(Some("Fix bug"), Some("Open"), assignee);
    SummaryLookup(Some("Fix bug"), Some("Open"), assignee);
    StatusLookup(Some("Fix bug"), Some("Open"), assignee);
    AssigneeLookup(Some("Fix bug"), Some("Open"), assignee);
    assert Get([("name", JString("Open"))], "name") == Some(JString("Open"));
    MinimalAssignee(assignee);
  }

  /** The assignee name read from each shape of assignee. */
  lemma MinimalAssignee(assignee: AssigneeField)
    ensures AssigneeName(if assignee.NoAssigneeKey? then JNull else AssigneeMembers(assignee)[0].1)
         == Ok(JString(if assignee.Named? then assignee.name else "Unassigned"))
  {
    match assignee {
      case NoAssigneeKey =>
      case NullAssignee =>
      case AssigneeWithoutName(id) =>
        assert Get([("accountId", JString(id))], "displayName") == None;
      case Named(n) =>
        assert Get([("displayName", JString(n))], "displayName") == Some(JString(n));
    }
  }

  /**
    A 201 answer `{"key": "KAN-9"}` yields a success whose text names the key
    and a link that ends in "/browse/KAN-9".
  */
  lemma CreateAnswered(base: string, summary: string, issueType: string, text: string)
    ensures var r := ClassifyCreate(base, summary, issueType, Responded(201, text, Some(JObject([("key", JString("KAN-9"))]))));
            && r.Success?
            && r.value.link == base + "/browse/KAN-9"
            && Text.Contains(RenderCreate(r), "KAN-9")
            && Text.Contains(RenderCreate(r), r.value.link)
  {
    CreatedFromKey(base, summary, issueType, 201, text, "KAN-9");
    var c := CreatedIssue(JString("KAN-9"), base + "/browse/" + "KAN-9", summary, issueType);
    assert base + "/browse/" + "KAN-9" == base + "/browse/KAN-9";
    CreatedTextMentions(c);
  }

  /** A 400 answer yields a failure whose text holds "400" and the start of the body. */
  lemma CreateRejected(base: string, summary: string, issueType: string, text: string)
    ensures var r := ClassifyCreate(base, summary, issueType, Responded(400, text, None));
            && r == Failed(HttpError(400, Text.Take(text, 300)))
            && Text.Contains(RenderCreate(r), "400")
            && Text.Contains(RenderCreate(r), Text.Take(text, 300))
  {
    var f := HttpError(400, Text.Take(text, 300));
    FailureTextMentions(f);
    StatusText400();
  }

  lemma StatusText400()
    ensures Text.IntToString(400) == "400"
  {
    assert Text.NatToString(4) == "4";
    assert Text.NatToString(40) == "40";
  }

  /** Without the token header the fetch tool names exactly that header and sends nothing. */
  lemma FetchWithoutToken(headers: map<string, string>, issueKey: string, e: Exchange)
    requires Present(headers, UrlHeader) && Present(headers, EmailHeader) && !Present(headers, TokenHeader)
    ensures GetJiraIssue(headers, issueKey, e) == Invocation(None, Failed(MissingHeaders(["x-jira-token"])))
    ensures Text.Contains(RenderFetch(GetJiraIssue(headers, issueKey, e).outcome), "x-jira-token")
  {
    MissingHeaderNamesExact(headers);
    FailureTextMentions(MissingHeaders(["x-jira-token"]));
  }

  /** A 200 answer that lacks `fields` ends in the unexpected-error outcome for the missing key. */
  lemma FetchWithoutFields(text: string)
    ensures var r := ClassifyFetch("KAN-2", Responded(200, text, Some(JObject([("key", JString("KAN-2"))]))));
            && r == Failed(Unexpected(KeyMissing("fields")))
            && FailMark <= RenderFetch(r)
  {
    assert Get([("key", JString("KAN-2"))], "fields") == None;
    FailureMarked(Failed(Unexpected(KeyMissing("fields"))), Failed(Timeout));
  }

  /** A 201 answer `{}` ends in the unexpected-error outcome for the missing `key`. */
  lemma CreateWithoutKey(base: string, summary: string, issueType: string, text: string)
    ensures var r := ClassifyCreate(base, summary, issueType, Responded(201, text, Some(JObject([]))));
            && r == Failed(Unexpected(KeyMissing("key")))
            && FailMark <= RenderCreate(r)
  {
    FailureMarked(Failed(Timeout), Failed(Unexpected(KeyMissing("key"))));
  }

  /** With only the three required arguments the body holds exactly the four required fields and issue type "Task". */
  lemma DefaultsPayload(projectKey: string, summary: string, description: string, p: Json)
    requires PayloadFor(WithDefaults(projectKey, summary, description), p)
    ensures var fs := Get(p.members, "fields").value.members;
            && Keys(fs) == ["project", "summary", "description", "issuetype"]
            && Get(fs, "summary") == Some(JString(summary))
            && Get(fs, "issuetype") == Some(JObject([("name", JString("Task"))]))
            && Get(fs, "assignee") == None
            && Get(fs, "labels") == None
  {
    var fs := Get(p.members, "fields").value.members;
    assert Keys(fs) == ["project", "summary", "description", "issuetype"];
    GetOutside(fs, "assignee");
    GetOutside(fs, "labels");
  }
}
