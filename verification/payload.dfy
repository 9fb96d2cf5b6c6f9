/**
  The JSON body of the create-issue request (app/tools/jira.py:105-129): a
  `fields` object built as a dict literal and then extended in place with
  `assignee` and `labels` when their arguments are truthy.
*/
module Payload {
  import opened Wrappers
  import opened Json
  import Adf

  /** The arguments of `create_jira_issue`. */
  datatype CreateArgs = CreateArgs(
    projectKey: string,
    summary: string,
    description: string,
    issueType: string,
    assigneeEmail: Option<string>,
    labels: Option<seq<string>>)

  const DefaultIssueType := "Task"

  /** The arguments when only the three required ones are given. */
  function WithDefaults(projectKey: string, summary: string, description: string): (a: CreateArgs)
    ensures a.projectKey == projectKey && a.summary == summary && a.description == description
    ensures a.issueType == "Task" && a.assigneeEmail == None && a.labels == None
  {
    CreateArgs(projectKey, summary, description, DefaultIssueType, None, None)
  }

  /** `if assignee_email:` holds: an e-mail was given and it is not empty. */
  predicate AssigneeRequested(args: CreateArgs) {
    args.assigneeEmail.Some? && args.assigneeEmail.value != ""
  }

  /** `if labels:` holds: a list was given and it is not empty. */
  predicate HasLabels(args: CreateArgs) {
    args.labels.Some? && args.labels.value != []
  }

  function JsonStrings(xs: seq<string>): (js: seq<Json>)
    ensures |js| == |xs| && forall i :: 0 <= i < |xs| ==> js[i] == JString(xs[i])
  {
    seq(|xs|, i requires 0 <= i < |xs| => JString(xs[i]))
  }

  /** The value sent for `assignee`: an account id of null. */
  const UnresolvedAssignee := JObject([("accountId", JNull)])

  /** The keys of `fields`, in the order the source inserts them. */
  function FieldKeys(args: CreateArgs): seq<string> {
    ["project", "summary", "description", "issuetype"]
      + (if AssigneeRequested(args) then ["assignee"] else [])
      + (if HasLabels(args) then ["labels"] else [])
  }

  /** No key of `fields` is inserted twice. */
  lemma FieldKeysDistinct(args: CreateArgs)
    ensures Distinct(FieldKeys(args))
  {
  }

  /** What the `fields` object must hold for `args`: its keys and the value of each. */
  predicate FieldsFor(args: CreateArgs, fs: seq<(string, Json)>) {
    && Keys(fs) == FieldKeys(args)
    && Get(fs, "project") == Some(JObject([("key", JString(args.projectKey))]))
    && Get(fs, "summary") == Some(JString(args.summary))
    && Get(fs, "description") == Some(Adf.Document(args.description))
    && Get(fs, "issuetype") == Some(JObject([("name", JString(args.issueType))]))
    && (AssigneeRequested(args) ==> Get(fs, "assignee") == Some(UnresolvedAssignee))
    && (HasLabels(args) ==> Get(fs, "labels") == Some(JArray(JsonStrings(args.labels.value))))
  }

  /** What the whole body must be: `{"fields": ...}` with the fields above. */
  predicate PayloadFor(args: CreateArgs, p: Json) {
    && p.JObject?
    && Keys(p.members) == ["fields"]
    && Get(p.members, "fields").Some?
    && Get(p.members, "fields").value.JObject?
    && FieldsFor(args, Get(p.members, "fields").value.members)
  }

  /** Builds the request body, inserting the optional keys one after the other. */
  method BuildPayload(args: CreateArgs) returns (payload: Json)
    ensures PayloadFor(args, payload)
  {
    var fields := [
      ("project", JObject([("key", JString(args.projectKey))])),
      ("summary", JString(args.summary)),
      ("description", Adf.Document(args.description)),
      ("issuetype", JObject([("name", JString(args.issueType))]))
    ];
    if AssigneeRequested(args) {
      fields := fields + [("assignee", UnresolvedAssignee)];
    }
    if HasLabels(args) {
      fields := fields + [("labels", JArray(JsonStrings(args.labels.value)))];
    }
    assert Keys(fields) == FieldKeys(args);
    FieldKeysDistinct(args);
    GetDistinct(fields, 0);
    GetDistinct(fields, 1);
    GetDistinct(fields, 2);
    GetDistinct(fields, 3);
    if AssigneeRequested(args) {
      GetDistinct(fields, 4);
    }
    if HasLabels(args) {
      GetDistinct(fields, |fields| - 1);
    }
    payload := JObject([("fields", JObject(fields))]);
    assert Get(payload.members, "fields") == Some(JObject(fields));
  }

  /** Two `fields` objects that meet the description agree on every key. */
  lemma FieldsAgree(args: CreateArgs, a: seq<(string, Json)>, b: seq<(string, Json)>, k: string)
    requires FieldsFor(args, a) && FieldsFor(args, b)
    ensures Get(a, k) == Get(b, k)
  {
    if k == "project" || k == "summary" || k == "description" || k == "issuetype" {
    } else if k == "assignee" && AssigneeRequested(args) {
    } else if k == "labels" && HasLabels(args) {
    } else {
      assert k !in FieldKeys(args);
      GetOutside(a, k);
      GetOutside(b, k);
    }
  }

  /** The spelling of `FieldsFor` leaves exactly one `fields` object for given arguments. */
  lemma FieldsUnique(args: CreateArgs, a: seq<(string, Json)>, b: seq<(string, Json)>)
    requires FieldsFor(args, a) && FieldsFor(args, b)
    ensures a == b
  {
    FieldKeysDistinct(args);
    forall k ensures Get(a, k) == Get(b, k) {
      FieldsAgree(args, a, b, k);
    }
    MembersDetermined(a, b);
  }

  /**
    The body is a function of the arguments: any two bodies that meet the
    description for the same arguments are identical.
  */
  lemma PayloadUnique(args: CreateArgs, p: Json, q: Json)
    requires PayloadFor(args, p) && PayloadFor(args, q)
    ensures p == q
  {
    var fp := Get(p.members, "fields").value;
    var fq := Get(q.members, "fields").value;
    FieldsUnique(args, fp.members, fq.members);
    forall k ensures Get(p.members, k) == Get(q.members, k) {
      if k != "fields" {
        GetOutside(p.members, k);
        GetOutside(q.members, k);
      }
    }
    MembersDetermined(p.members, q.members);
  }

  /** Path of the description text inside the body. */
  const DescriptionTextPath: seq<Step> :=
    [Key("fields"), Key("description"), Key("content"), At(0), Key("content"), At(0), Key("text")]

  /** The `fields` object of a body that meets the description. */
  function FieldsOf(p: Json): seq<(string, Json)>
    requires p.JObject? && Get(p.members, "fields").Some? && Get(p.members, "fields").value.JObject?
  {
    Get(p.members, "fields").value.members
  }

  /** Following `fields` and then `k` reads the member `k` of the fields object. */
  lemma NavigateField(args: CreateArgs, p: Json, k: string, rest: seq<Step>)
    requires PayloadFor(args, p)
    ensures Navigate(p, [Key("fields"), Key(k)] + rest)
         == if Get(FieldsOf(p), k).Some? then Navigate(Get(FieldsOf(p), k).value, rest) else None
  {
    NavigateKey(p.members, "fields", JObject(FieldsOf(p)), [Key(k)] + rest);
    assert ([Key("fields"), Key(k)] + rest)[1..] == [Key(k)] + rest;
    assert ([Key(k)] + rest)[1..] == rest;
  }

  /** The description text sits at `fields.description.content[0].content[0].text`. */
  lemma DescriptionReadable(args: CreateArgs, p: Json)
    requires PayloadFor(args, p)
    ensures Navigate(p, DescriptionTextPath) == Some(JString(args.description))
  {
    var path := DescriptionTextPath;
    NavigateField(args, p, "description", path[2..]);
    assert path == [Key("fields"), Key("description")] + path[2..];
    Adf.DocumentTextPath(args.description);
  }

  /** The project key, summary and issue type are read back unchanged. */
  lemma ScalarFieldsReadable(args: CreateArgs, p: Json)
    requires PayloadFor(args, p)
    ensures Navigate(p, [Key("fields"), Key("project"), Key("key")]) == Some(JString(args.projectKey))
    ensures Navigate(p, [Key("fields"), Key("summary")]) == Some(JString(args.summary))
    ensures Navigate(p, [Key("fields"), Key("issuetype"), Key("name")]) == Some(JString(args.issueType))
  {
    var project := JObject([("key", JString(args.projectKey))]);
    NavigateField(args, p, "project", [Key("key")]);
    NavigateKey(project.members, "key", JString(args.projectKey), []);
    assert [Key("fields"), Key("project")] + [Key("key")] == [Key("fields"), Key("project"), Key("key")];

    NavigateField(args, p, "summary", []);
    assert [Key("fields"), Key("summary")] + [] == [Key("fields"), Key("summary")];

    var itype := JObject([("name", JString(args.issueType))]);
    NavigateField(args, p, "issuetype", [Key("name")]);
    NavigateKey(itype.members, "name", JString(args.issueType), []);
    assert [Key("fields"), Key("issuetype")] + [Key("name")] == [Key("fields"), Key("issuetype"), Key("name")];
  }

  /** `assignee` and `labels` are in the body exactly when they were requested. */
  lemma OptionalFieldsReadable(args: CreateArgs, p: Json)
    requires PayloadFor(args, p)
    ensures Navigate(p, [Key("fields"), Key("assignee")])
         == if AssigneeRequested(args) then Some(UnresolvedAssignee) else None
    ensures Navigate(p, [Key("fields"), Key("labels")])
         == if HasLabels(args) then Some(JArray(JsonStrings(args.labels.value))) else None
  {
    var fs := FieldsOf(p);
    NavigateField(args, p, "assignee", []);
    assert [Key("fields"), Key("assignee")] + [] == [Key("fields"), Key("assignee")];
    if !AssigneeRequested(args) {
      assert "assignee" !in FieldKeys(args);
      GetOutside(fs, "assignee");
    }
    NavigateField(args, p, "labels", []);
    assert [Key("fields"), Key("labels")] + [] == [Key("fields"), Key("labels")];
    if !HasLabels(args) {
      assert "labels" !in FieldKeys(args);
      GetOutside(fs, "labels");
    }
  }

  /**
    Parsing the body back recovers the arguments: the project key, the summary,
    the issue type and the description text, and `assignee`/`labels` exactly
    when they were requested.
  */
  lemma PayloadRoundTrip(args: CreateArgs, p: Json)
    requires PayloadFor(args, p)
    ensures Navigate(p, [Key("fields"), Key("project"), Key("key")]) == Some(JString(args.projectKey))
    ensures Navigate(p, [Key("fields"), Key("summary")]) == Some(JString(args.summary))
    ensures Navigate(p, [Key("fields"), Key("issuetype"), Key("name")]) == Some(JString(args.issueType))
    ensures Navigate(p, DescriptionTextPath) == Some(JString(args.description))
    ensures Navigate(p, [Key("fields"), Key("assignee")])
         == if AssigneeRequested(args) then Some(UnresolvedAssignee) else None
    ensures Navigate(p, [Key("fields"), Key("labels")])
         == if HasLabels(args) then Some(JArray(JsonStrings(args.labels.value))) else None
  {
    ScalarFieldsReadable(args, p);
    DescriptionReadable(args, p);
    OptionalFieldsReadable(args, p);
  }

  /** An empty list of labels and no list at all give the same body. */
  lemma EmptyLabelsOmitted(args: CreateArgs, p: Json)
    requires args.labels == None || args.labels == Some([])
    requires PayloadFor(args, p)
    ensures PayloadFor(args.(labels := None), p) && PayloadFor(args.(labels := Some([])), p)
    ensures Navigate(p, [Key("fields"), Key("labels")]) == None
  {
    PayloadRoundTrip(args, p);
  }
}
