# Issue-tracker tools: a Dafny model

This project models the request-handling logic of the two tools that the
server exposes to an agent, `get_jira_issue` and `create_jira_issue`
(`app/tools/jira.py`). Each tool reads three credentials from the request
headers, builds one HTTP request to the JIRA REST API, classifies the answer
and returns exactly one text. The model keeps every decision of that logic and
replaces the network call by an input:

- the header map is a parameter (the framework's `get_http_headers()` is not modelled);
- the HTTP exchange is a value `Exchange`: a status code, the body text and the
  body decoded as JSON (absent when `resp.json()` would raise), or a timeout,
  or any other error of the HTTP client;
- each tool returns an `Invocation`: the request it sent (none when a header is
  missing) and an `Outcome`, which is either a success value or one `Failure`
  (missing headers, not found, authentication failed, HTTP error with a body
  excerpt, timeout, unexpected error).

Modules, one per concern:

| file | module | what it holds |
|---|---|---|
| `wrappers.dfy` | `Wrappers` | `Option`, `Result` |
| `text.dfy` | `Text` | `rstrip`, slicing, `join`, `str(int)`, and "occurs in" for texts |
| `json.dfy` | `Json` | decoded JSON, dict lookup with Python's last-duplicate-wins rule, paths into a document |
| `credentials.dfy` | `Credentials` | the three required headers and the ordered list of missing ones |
| `adf.dfy` | `Adf` | the Atlassian Document Format envelope of the description and its reader |
| `payload.dfy` | `Payload` | the create arguments, the body built in place, its description and its round trip |
| `jira.dfy` | `Jira` | URLs, the exchange, outcome classification of both tools, the two tools |
| `render.dfy` | `Render` | the text each outcome is returned as |
| `scenarios.dfy` | `Scenarios` | end-to-end consequences for typical answers of the server |

`get_jira_issue` contains no in-place updates and is a function. The body of
`create_jira_issue` builds its `fields` dict and then inserts `assignee` and
`labels` into it. So `Payload.BuildPayload` is a method that extends a local
member list step by step, and `Jira.CreateJiraIssue`, which calls it, is a
method too. Both are proved against `Payload.PayloadFor`, which describes the
body by its keys and by what a lookup of each key yields.

Some behaviour of the code worth stating plainly:

- The fetch tool accepts only status 200 (`app/tools/jira.py:43`).
- A non-empty `assignee_email` adds `"assignee": {"accountId": null}` to the body (`app/tools/jira.py:124-125`).
- Credentials come only from the request headers; the environment lines of `app/server.py:6-8` are commented out.
- A present but non-dict `status` (for example `null`) makes `.get` raise, which ends in the unexpected-error outcome. An absent `status` gives "Unknown".

## Model

| member | source | states |
|---|---|---|
| `Text.RStrip` | app/tools/jira.py:28 | `rstrip("/")` returns a prefix of the header value that does not end in `/`; everything it removed is `/` |
| `Text.RStripUnique` | app/tools/jira.py:28 | those three properties determine the stripped URL uniquely |
| `Text.RStripPadded` | app/tools/jira.py:28 | adding any number of trailing slashes to the header value does not change the base URL |
| `Text.Take` | app/tools/jira.py:44 | `text[:n]` is a prefix of the body, at most `n` long, and the whole body when the body is shorter |
| `Text.JoinMentionsEach` | app/tools/jira.py:26 | every missing header name occurs in the `", ".join(...)` text |
| `Text.NatToString` | app/tools/jira.py:44 | the status code is printed as a canonical decimal numeral (digits only, no leading zero) whose value, read digit by digit, is the code |
| `Text.NatToStringOfValue` | app/tools/jira.py:44 | every canonical numeral is what the printer gives for its value, so the printer is the inverse of reading digits |
| `Json.Get` | app/tools/jira.py:47-52 | a key is found iff some member has it; the value found is a member's value under that key |
| `Credentials.Missing` | app/tools/jira.py:21-25 | a name is listed iff its header is absent or empty; the list keeps the order of the required headers |
| `Credentials.MissingHeaderNamesExact` | app/tools/jira.py:21-25 | the missing list is exactly the missing ones among `x-jira-url`, `x-jira-email`, `x-jira-token`, in that order |
| `Credentials.Resolve` | app/tools/jira.py:16-26 | resolution fails iff the missing list is non-empty and then reports that list; otherwise it yields the three non-empty header values |
| `Adf.DocumentRoundTrip` | app/tools/jira.py:109-120 | reading the description envelope back yields the description text |
| `Adf.DocumentTextExact` | app/tools/jira.py:109-120 | the reader accepts only the exact envelope: a `doc` of version 1 with one paragraph holding one text node |
| `Payload.WithDefaults` | app/tools/jira.py:69-76 | the three given arguments are kept; the omitted ones give issue type "Task" and no assignee or labels |
| `Payload.BuildPayload` | app/tools/jira.py:106-129 | the body is `{"fields": ...}` with project key, summary, description envelope and issue type; `assignee` and `labels` are added exactly under their conditions; no other key is present |
| `Payload.FieldsUnique` | app/tools/jira.py:106-127 | the description of `fields` admits only one member list for given arguments |
| `Payload.PayloadUnique` | app/tools/jira.py:129 | the same arguments always give the same body |
| `Payload.ScalarFieldsReadable` | app/tools/jira.py:106-122 | `fields.project.key`, `fields.summary` and `fields.issuetype.name` read back as the arguments |
| `Payload.DescriptionReadable` | app/tools/jira.py:109-120 | `fields.description.content[0].content[0].text` reads back as the description |
| `Payload.OptionalFieldsReadable` | app/tools/jira.py:124-127 | `fields.assignee` is `{"accountId": null}` iff a non-empty e-mail was given; `fields.labels` is the labels iff the list is non-empty |
| `Payload.PayloadRoundTrip` | app/tools/jira.py:106-129 | parsing the body back recovers every argument it carries |
| `Payload.EmptyLabelsOmitted` | app/tools/jira.py:126-127 | an empty label list and no list give the same body, and neither has a `labels` key |
| `Jira.TrailingSlashesIgnored` | app/tools/jira.py:28-29 | the issue, create and browse URLs do not depend on trailing slashes of the header, and the base never ends in `/` |
| `Jira.Index` | app/tools/jira.py:47 | `data["fields"]` succeeds iff the value is a dict with that key; otherwise it raises a key error or a type error |
| `Jira.GetOr` | app/tools/jira.py:49-52 | `.get(k, default)` succeeds iff the value is a dict and yields the member or the default; on a non-dict it raises `AttributeError` |
| `Jira.ReadIssue` | app/tools/jira.py:46-55 | reading succeeds iff the body is a JSON dict with `fields` that reads cleanly and with `key`; otherwise the fault is the first exception the source raises: not JSON, not subscriptable, `KeyError('fields')`, the `fields` fault, then `KeyError('key')`; a success reports the body's `key` |
| `Jira.StatusDefault` | app/tools/jira.py:50 | for any `status` value: a dict yields its `name`, or "Unknown" when it has none; a value that is not a dict raises `AttributeError` |
| `Jira.AssigneeDefault` | app/tools/jira.py:51-52 | for any `assignee` value: a falsy one (null, `{}`, `""`) is "Unassigned"; a non-empty dict yields its `displayName`, or "Unassigned" when it has none; a truthy non-dict raises |
| `Jira.ReadFields` | app/tools/jira.py:49-52 | the three reads succeed iff `fields` is a dict, its `status` is absent or a dict, and its `assignee` is absent, falsy or a dict; the only fault is a missing `.get` |
| `Jira.ReadIssueDefaults` | app/tools/jira.py:46-55 | for any answer that reads cleanly, whatever other members it and its nested objects carry: the key is its `key`, the summary its `summary` or "No summary", the status the `name` of its `status` or "Unknown" when either is absent, and the assignee the `displayName` of its assignee or "Unassigned" when the assignee is absent, falsy or nameless |
| `Jira.ClassifyFetch` | app/tools/jira.py:39-65 | 404 is not-found naming the key, then 401 is an authentication failure, then any status but 200 is an error with a body prefix of at most 200 characters; a 200 answer succeeds iff it reads cleanly, and otherwise becomes an unexpected error carrying the reading fault; a timeout and a client error become their failures |
| `Jira.GetJiraIssue` | app/tools/jira.py:6-65 | no request iff a header is missing, and then the outcome lists the missing headers; otherwise a GET of `base/rest/api/3/issue/key` with the e-mail and token, the header `Accept: application/json`, no body, a 15 s timeout, and the fetch classification |
| `Jira.MissingHeadersShortCircuit` | app/tools/jira.py:20-26 | with a header missing, the result does not depend on the network |
| `Jira.ReadCreatedKey` | app/tools/jira.py:141-142 | the new key is read iff the body is a JSON dict with a `key`; otherwise the fault is not-JSON, not-subscriptable or `KeyError('key')` |
| `Jira.ClassifyCreate` | app/tools/jira.py:140-160 | success iff the status is 200 or 201 and the body has a key, carrying the key, its browse link, the summary and the type; a 200/201 answer without a readable key is an unexpected error carrying the fault; every other status is an error with a body prefix of at most 300 characters; never not-found or 401 |
| `Jira.CreatedFromKey` | app/tools/jira.py:140-143 | a 200/201 answer `{"key": k}` yields `k` and the link `base + "/browse/" + k` |
| `Jira.CreateJiraIssue` | app/tools/jira.py:69-160 | no request iff a header is missing; otherwise a POST of the described body to `base/rest/api/3/issue` with the e-mail and token, the headers `Accept` and `Content-Type` both `application/json`, a 20 s timeout, and the create classification |
| `Render.FetchFailureText` | app/tools/jira.py:40-44 | every failure text of the fetch tool starts with the failure marker |
| `Render.CreateFailureText` | app/tools/jira.py:155 | every failure text of the create tool starts with the failure marker |
| `Render.FailureMarked` | app/tools/jira.py:26-65 | a returned text starts with the failure marker iff the outcome is a failure |
| `Render.IssueTextMentions` | app/tools/jira.py:54-60 | the fetch text contains the key, summary, status and assignee |
| `Render.CreatedTextMentions` | app/tools/jira.py:144-151 | the create text contains the new key and its link |
| `Render.FailureTextMentions` | app/tools/jira.py:40-44 | failure texts contain every missing header, the key not found, and the status code and body excerpt of an HTTP error |
| `Scenarios.FetchWithoutAssignee` | app/tools/jira.py:46-60 | a 200 answer with key, summary and status but no assignee yields a text with the key, summary, status and "Unassigned" |
| `Scenarios.CreateAnswered` | app/tools/jira.py:140-151 | a 201 answer `{"key": "KAN-9"}` yields a success naming the key, with a link ending in `/browse/KAN-9` |
| `Scenarios.CreateRejected` | app/tools/jira.py:153-155 | a 400 answer yields a failure text holding "400" and the body excerpt |
| `Scenarios.FetchWithoutToken` | app/tools/jira.py:20-26 | without the token header the fetch tool sends nothing and names only `x-jira-token` |
| `Scenarios.FetchedIssue` | app/tools/jira.py:46-52 | a 200 answer with summary "Fix bug" and status "Open" yields its display name as the assignee, and "Unassigned" when the assignee key is absent, null, or an object without `displayName` |
| `Scenarios.FetchWithoutFields` | app/tools/jira.py:46-65 | a 200 answer without `fields` ends in the unexpected-error outcome for that key, with a failure text |
| `Scenarios.CreateWithoutKey` | app/tools/jira.py:140-160 | a 201 answer `{}` ends in the unexpected-error outcome for `key`, with a failure text |
| `Scenarios.DefaultsPayload` | app/tools/jira.py:69-129 | with only the required arguments the body holds exactly project, summary, description and issue type "Task", and no assignee or labels |

## Left out

- The HTTP client itself (`httpx.AsyncClient`), connection handling and the real waiting: the exchange is an input, and the 15 s and 20 s timeouts are recorded on the request only.
- `get_http_headers()`: the headers arrive as a map. Case-insensitive matching of header names is the framework's job and is not modelled.
- Async/await and concurrent invocations: each invocation is a single evaluation.
- JSON decoding and encoding: the answer arrives already decoded (or marked as not JSON), and the request body stays a JSON tree. JSON numbers are integers here, so floating-point values are not modelled.
- `Json.Show`: `str()` of a list or dict is a placeholder, not Python's `repr`.
- `Render.FaultText`: only the text of a `KeyError` is Python's. The texts of the other exceptions (JSON decoding, type and attribute errors, client errors other than timeouts) are descriptive stand-ins.
- The rendered texts drop the per-line emoji and the bold markup. They also do not apply the final `.strip()`, which in the source removes trailing whitespace from the last value printed.
- Exceptions raised before the request is sent (inside `get_http_headers()`, or arguments of a type other than the one declared) are not modelled. Every argument is a string, an optional string or an optional list of strings.
- `app/server.py`: tool registration, `load_dotenv`, the startup banner and the transport start-up are framework glue.
