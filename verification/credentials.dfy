/**
  The per-request credential check shared by both tools
  (app/tools/jira.py:16-26 and 90-100): three request headers must carry a
  non-empty value, and the ones that do not are reported in a fixed order.
*/
module Credentials {
  import opened Wrappers

  const UrlHeader := "x-jira-url"
  const EmailHeader := "x-jira-email"
  const TokenHeader := "x-jira-token"

  /** The required headers, in the order the tools report them. */
  const RequiredHeaders: seq<string> := [UrlHeader, EmailHeader, TokenHeader]

  /** What a complete set of headers yields: base URL, account e-mail, API token. */
  datatype Credentials = Credentials(url: string, email: string, token: string)

  /** `headers.get(name)` is truthy: the header is there and its value is not empty. */
  predicate Present(headers: map<string, string>, name: string) {
    name in headers && headers[name] != ""
  }

  /** `xs` can be obtained from `ys` by deleting elements, so it keeps their order. */
  predicate IsSubsequence(xs: seq<string>, ys: seq<string>)
    decreases |ys|
  {
    || xs == []
    || (&& ys != []
        && ((xs[0] == ys[0] && IsSubsequence(xs[1..], ys[1..])) || IsSubsequence(xs, ys[1..])))
  }

  /** The names among `names` whose header is absent or empty, in the order of `names`. */
  function Missing(names: seq<string>, headers: map<string, string>): (r: seq<string>)
    ensures forall n :: n in r <==> n in names && !Present(headers, n)
    ensures IsSubsequence(r, names)
    decreases |names|
  {
    if names == [] then []
    else
      var rest := Missing(names[1..], headers);
      if Present(headers, names[0]) then rest
      else
        assert ([names[0]] + rest)[1..] == rest;
        [names[0]] + rest
  }

  /** The list of missing required headers, as the tools compute it. */
  function MissingHeaderNames(headers: map<string, string>): seq<string>
  {
    Missing(RequiredHeaders, headers)
  }

  /** The missing-header list, spelled out for the three required headers. */
  lemma MissingHeaderNamesExact(headers: map<string, string>)
    ensures MissingHeaderNames(headers)
         == (if Present(headers, UrlHeader) then [] else [UrlHeader])
          + (if Present(headers, EmailHeader) then [] else [EmailHeader])
          + (if Present(headers, TokenHeader) then [] else [TokenHeader])
  {
    var names := RequiredHeaders;
    assert names[1..] == [EmailHeader, TokenHeader];
    assert names[1..][1..] == [TokenHeader];
    assert names[1..][1..][1..] == [];
    assert Missing(names[1..][1..][1..], headers) == [];
    var m2 := Missing(names[1..][1..], headers);
    assert m2 == (if Present(headers, TokenHeader) then [] else [TokenHeader]);
    var m1 := Missing(names[1..], headers);
    assert m1 == (if Present(headers, EmailHeader) then [] else [EmailHeader]) + m2;
    assert Missing(names, headers) == (if Present(headers, UrlHeader) then [] else [UrlHeader]) + m1;
  }

  /**
    Credential resolution: the `all(...)` gate, then either the missing list or
    the three header values.
  */
  function Resolve(headers: map<string, string>): (r: Result<Credentials, seq<string>>)
    ensures r.Ok? <==> MissingHeaderNames(headers) == []
    ensures r.Err? ==> r.error == MissingHeaderNames(headers)
    ensures r.Ok? ==> && UrlHeader in headers && EmailHeader in headers && TokenHeader in headers
                      && r.value == Credentials(headers[UrlHeader], headers[EmailHeader], headers[TokenHeader])
                      && r.value.url != "" && r.value.email != "" && r.value.token != ""
  {
    MissingHeaderNamesExact(headers);
    if !(Present(headers, UrlHeader) && Present(headers, EmailHeader) && Present(headers, TokenHeader)) then
      Err(MissingHeaderNames(headers))
    else
      Ok(Credentials(headers[UrlHeader], headers[EmailHeader], headers[TokenHeader]))
  }
}
