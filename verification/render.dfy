/**
  The single text each tool returns (app/tools/jira.py:26, 40-44, 54-65 and
  100, 144-160). The per-line emoji and the bold markup of the success texts
  are not reproduced; each text keeps its leading marker, so a reader can
  tell failure from success by the first character alone.
*/
module Render {
  import opened Json
  import Text
  import opened Jira

  const FailMark := "\U{274C} "
  const IssueMark := "\U{1F4CB} "
  const CreatedMark := "\U{2705} "

  /** `str(e)` for the exceptions of the model; only KeyError's text is the one Python prints. */
  function FaultText(f: Fault): string {
    match f
    case BodyNotJson => "response body is not valid JSON"
    case KeyMissing(k) => "'" + k + "'"
    case NotSubscriptable => "value is not subscriptable"
    case NoGetMethod => "value has no attribute 'get'"
    case Transport(m) => m
  }

  /** Failure texts of `get_jira_issue`. */
  function FetchFailureText(f: Failure): (r: string)
    ensures FailMark <= r
  {
    match f
    case MissingHeaders(names) => Text.Concat([FailMark, "Missing required headers: ", Text.Join(names, ", ")])
    case NotFound(k) => Text.Concat([FailMark, "Issue '", k, "' not found."])
    case AuthFailed => Text.Concat([FailMark, "Authentication failed \U{2014} check your email and API token."])
    case HttpError(code, excerpt) => Text.Concat([FailMark, "JIRA error ", Text.IntToString(code), ": ", excerpt])
    case Timeout => Text.Concat([FailMark, "Timeout reaching JIRA server"])
    case Unexpected(fault) => Text.Concat([FailMark, "Unexpected error: ", FaultText(fault)])
  }

  /** Failure texts of `create_jira_issue`; not-found and 401 never reach it, but get the fetch texts. */
  function CreateFailureText(f: Failure): (r: string)
    ensures FailMark <= r
  {
    match f
    case MissingHeaders(names) => Text.Concat([FailMark, "Missing headers: ", Text.Join(names, ", ")])
    case HttpError(code, excerpt) => Text.Concat([FailMark, "Failed to create issue: ", Text.IntToString(code), "\n", excerpt])
    case Timeout => Text.Concat([FailMark, "Timeout while creating issue"])
    case _ => FetchFailureText(f)
  }

  function IssueParts(v: IssueView): seq<string> {
    [IssueMark, "JIRA Issue: ", Show(v.key),
     "\n\nSummary: ", Show(v.summary),
     "\nStatus: ", Show(v.status),
     "\nAssignee: ", Show(v.assignee)]
  }

  function CreatedParts(c: CreatedIssue): seq<string> {
    [CreatedMark, "JIRA Issue Created Successfully!",
     "\n\nKey: ", Show(c.key),
     "\nLink: ", c.link,
     "\nSummary: ", c.summary,
     "\nType: ", c.issueType]
  }

  function RenderFetch(o: Outcome<IssueView>): string {
    match o
    case Success(v) => Text.Concat(IssueParts(v))
    case Failed(f) => FetchFailureText(f)
  }

  function RenderCreate(o: Outcome<CreatedIssue>): string {
    match o
    case Success(c) => Text.Concat(CreatedParts(c))
    case Failed(f) => CreateFailureText(f)
  }

  /** A text assembled from parts starts with its first part. */
  lemma ConcatStartsWith(parts: seq<string>)
    requires parts != []
    ensures parts[0] <= Text.Concat(parts)
  {
  }

  /** Every text is marked as a failure exactly when the outcome is one. */
  lemma FailureMarked(fetched: Outcome<IssueView>, created: Outcome<CreatedIssue>)
    ensures FailMark <= RenderFetch(fetched) <==> fetched.Failed?
    ensures FailMark <= RenderCreate(created) <==> created.Failed?
  {
    if fetched.Success? {
      ConcatStartsWith(IssueParts(fetched.value));
      assert RenderFetch(fetched)[0] == IssueMark[0];
    }
    if created.Success? {
      ConcatStartsWith(CreatedParts(created.value));
      assert RenderCreate(created)[0] == CreatedMark[0];
    }
  }

  /** The fetch text names the issue key, summary, status and assignee it read. */
  lemma IssueTextMentions(v: IssueView)
    ensures Text.Contains(RenderFetch(Success(v)), Show(v.key))
    ensures Text.Contains(RenderFetch(Success(v)), Show(v.summary))
    ensures Text.Contains(RenderFetch(Success(v)), Show(v.status))
    ensures Text.Contains(RenderFetch(Success(v)), Show(v.assignee))
  {
    Text.ConcatMentions(IssueParts(v), 2);
    Text.ConcatMentions(IssueParts(v), 4);
    Text.ConcatMentions(IssueParts(v), 6);
    Text.ConcatMentions(IssueParts(v), 8);
  }

  /** The create text names the new key and its browse link. */
  lemma CreatedTextMentions(c: CreatedIssue)
    ensures Text.Contains(RenderCreate(Success(c)), Show(c.key))
    ensures Text.Contains(RenderCreate(Success(c)), c.link)
  {
    Text.ConcatMentions(CreatedParts(c), 3);
    Text.ConcatMentions(CreatedParts(c), 5);
  }

  /**
    Failure texts carry their details: every missing header name, the issue key
    that was not found, and the status code and body excerpt of an HTTP error.
  */
  lemma FailureTextMentions(f: Failure)
    ensures f.MissingHeaders? ==> forall i :: 0 <= i < |f.names| ==>
              Text.Contains(RenderFetch(Failed(f)), f.names[i]) && Text.Contains(RenderCreate(Failed(f)), f.names[i])
    ensures f.NotFound? ==> Text.Contains(RenderFetch(Failed(f)), f.issueKey)
    ensures f.HttpError? ==> && Text.Contains(RenderFetch(Failed(f)), Text.IntToString(f.code))
                             && Text.Contains(RenderFetch(Failed(f)), f.excerpt)
                             && Text.Contains(RenderCreate(Failed(f)), Text.IntToString(f.code))
                             && Text.Contains(RenderCreate(Failed(f)), f.excerpt)
  {
    match f
    case MissingHeaders(names) =>
      var joined := Text.Join(names, ", ");
      var fetchParts := [FailMark, "Missing required headers: ", joined];
      var createParts := [FailMark, "Missing headers: ", joined];
      Text.ConcatMentions(fetchParts, 2);
      Text.ConcatMentions(createParts, 2);
      forall i | 0 <= i < |names|
        ensures Text.Contains(RenderFetch(Failed(f)), names[i]) && Text.Contains(RenderCreate(Failed(f)), names[i])
      {
        Text.JoinMentionsEach(names, ", ", i);
        Text.ContainsTransitive(RenderFetch(Failed(f)), joined, names[i]);
        Text.ContainsTransitive(RenderCreate(Failed(f)), joined, names[i]);
      }
    case NotFound(k) =>
      Text.ConcatMentions([FailMark, "Issue '", k, "' not found."], 2);
    case HttpError(code, excerpt) =>
      var c := Text.IntToString(code);
      Text.ConcatMentions([FailMark, "JIRA error ", c, ": ", excerpt], 2);
      Text.ConcatMentions([FailMark, "JIRA error ", c, ": ", excerpt], 4);
      Text.ConcatMentions([FailMark, "Failed to create issue: ", c, "\n", excerpt], 2);
      Text.ConcatMentions([FailMark, "Failed to create issue: ", c, "\n", excerpt], 4);
    case _ =>
  }
}
