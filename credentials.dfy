/**
 * The request context a `ProjectManagement` or `FileManagement` instance keeps
 * (account token, project id and its own copy of the headers), as a value, and
 * the resolver steps that update it. The classes in `Projects` and `Files` are
 * tied to these functions; the properties of the resolver are proved here.
 */
module Credentials {
  import opened Wrappers
  import opened Text
  import opened Api

  datatype Context = Context(accountToken: Option<string>, projectId: Option<string>, headers: Headers)

  /** The outcome of a call and the context it leaves behind, raised or not. */
  datatype Step<+T> = Step(result: Result<T, Error>, after: Context)

  /** Python truthiness of an `Optional[str]`: neither None nor the empty string. */
  predicate Truthy(s: Option<string>) {
    s.Some? && s.value != ""
  }

  /** Every stored credential is also in the headers, with the same value. */
  predicate Mirrored(c: Context) {
    && (c.accountToken.Some? ==>
          AccountTokenHeader in c.headers && c.headers[AccountTokenHeader] == c.accountToken.value)
    && (c.projectId.Some? ==>
          ProjectIdHeader in c.headers && c.headers[ProjectIdHeader] == c.projectId.value)
  }

  /** `_set_account_token`: store the token and put it in the headers. */
  function SetAccountToken(c: Context, token: string): (r: Context)
    ensures Mirrored(c) ==> Mirrored(r)
  {
    c.(accountToken := Some(token), headers := c.headers[AccountTokenHeader := token])
  }

  /** `_set_project_id`: store the project id and put it in the headers. */
  function SetProjectId(c: Context, id: string): (r: Context)
    ensures Mirrored(c) ==> Mirrored(r)
  {
    c.(projectId := Some(id), headers := c.headers[ProjectIdHeader := id])
  }

  /** `_add_include_source_fields`. */
  function AddIncludeSourceFields(c: Context, fields: seq<string>): (r: Context)
    ensures Mirrored(c) ==> Mirrored(r)
  {
    c.(headers := WithSourceFields(c.headers, fields))
  }

  /** `_ensure_account_token`: an override is adopted only while no token is stored. */
  function EnsureAccountToken(c: Context, token: Option<string>): (r: Result<Context, Error>)
    ensures r.Failure? <==> c.accountToken.None? && !Truthy(token)
    ensures r.Failure? ==> r.error == ValueError(AccountTokenRequired)
    ensures r.Success? ==> r.value.accountToken.Some? && r.value.projectId == c.projectId
    ensures r.Success? && Mirrored(c) ==> Mirrored(r.value)
  {
    if c.accountToken.None? then
      if Truthy(token) then Success(SetAccountToken(c, token.value))
      else Failure(ValueError(AccountTokenRequired))
    else Success(c)
  }

  /** `_ensure_project_id`: a non-empty override always replaces the stored id. */
  function EnsureProjectId(c: Context, id: Option<string>, required: bool): (r: Result<Context, Error>)
    ensures r.Failure? <==> required && !Truthy(id) && !Truthy(c.projectId)
    ensures r.Failure? ==> r.error == ValueError(ProjectIdRequired)
    ensures r.Success? ==> r.value.accountToken == c.accountToken
    ensures r.Success? && required ==> Truthy(r.value.projectId)
    ensures r.Success? && Mirrored(c) ==> Mirrored(r.value)
  {
    if Truthy(id) then Success(SetProjectId(c, id.value))
    else if required && !Truthy(c.projectId) then Failure(ValueError(ProjectIdRequired))
    else Success(c)
  }

  /** The two resolver calls every `ProjectManagement` accessor starts with; the token is resolved first. */
  function Resolve(c: Context, token: Option<string>, id: Option<string>, required: bool): (s: Step<Context>)
    ensures s.result.Success? ==> s.after == s.result.value
  {
    match EnsureAccountToken(c, token)
    case Failure(e) => Step(Failure(e), c)
    case Success(c1) =>
      match EnsureProjectId(c1, id, required)
      case Failure(e) => Step(Failure(e), c1)
      case Success(c2) => Step(Success(c2), c2)
  }

  /** What an accessor does once the credentials are resolved: add the field header and send `url`. */
  function Send(c: Context, fields: seq<string>, url: string): Step<Request> {
    var c' := AddIncludeSourceFields(c, fields);
    Step(Success(Request(url, c'.headers)), c')
  }

  /** One `ProjectManagement` accessor: resolve, then send `url` with the headers as they then stand. */
  function Call(c: Context, token: Option<string>, id: Option<string>, required: bool,
                fields: seq<string>, url: string): (s: Step<Request>)
    ensures s.result.Success? ==> s.result.value.url == url && s.result.value.headers == s.after.headers
    ensures s.result.Success? ==> s.after.headers == WithSourceFields(s.after.headers, fields)
    ensures s.result.Failure? ==>
      s.result.error in {ValueError(AccountTokenRequired), ValueError(ProjectIdRequired)}
  {
    var s := Resolve(c, token, id, required);
    match s.result
    case Failure(e) => Step(Failure(e), s.after)
    case Success(c2) => Send(c2, fields, url)
  }

  // ---- _ensure_account_token ----

  /** With no token stored and no usable override, the call raises and changes nothing. */
  lemma AccountTokenRequiredWhenAbsent(c: Context, token: Option<string>)
    requires c.accountToken.None? && !Truthy(token)
    ensures EnsureAccountToken(c, token) == Failure(ValueError(AccountTokenRequired))
    ensures Resolve(c, token, None, false) == Step(Failure(ValueError(AccountTokenRequired)), c)
  {
  }

  /** With no token stored, a non-empty override is stored and sent; no other header changes. */
  lemma AccountTokenAdopted(c: Context, token: string)
    requires c.accountToken.None? && token != ""
    ensures var r := EnsureAccountToken(c, Some(token));
      && r.Success?
      && r.value.accountToken == Some(token)
      && r.value.projectId == c.projectId
      && r.value.headers[AccountTokenHeader] == token
      && r.value.headers.Keys == c.headers.Keys + {AccountTokenHeader}
      && forall k :: k in c.headers && k != AccountTokenHeader ==> r.value.headers[k] == c.headers[k]
  {
  }

  /** Once a token is stored, every override is ignored: the call changes nothing. */
  lemma StoredAccountTokenWins(c: Context, token: Option<string>)
    requires c.accountToken.Some?
    ensures EnsureAccountToken(c, token) == Success(c)
  {
  }

  /** Resolving the token twice with the same override is the same as resolving it once. */
  lemma EnsureAccountTokenIdempotent(c: Context, token: Option<string>)
    ensures var r := EnsureAccountToken(c, token);
      r.Success? ==> EnsureAccountToken(r.value, token) == r
  {
  }

  // ---- _ensure_project_id ----

  /** A non-empty override is always stored and sent, whether or not an id was stored before. */
  lemma ProjectIdOverrideWins(c: Context, id: string, required: bool)
    requires id != ""
    ensures var r := EnsureProjectId(c, Some(id), required);
      && r.Success?
      && r.value.projectId == Some(id)
      && r.value.accountToken == c.accountToken
      && r.value.headers == c.headers[ProjectIdHeader := id]
  {
  }

  /** The call raises exactly when the id is required and neither an override nor a stored id is usable. */
  lemma ProjectIdFailsIff(c: Context, id: Option<string>, required: bool)
    ensures EnsureProjectId(c, id, required).Failure?
        <==> required && !Truthy(id) && !Truthy(c.projectId)
    ensures EnsureProjectId(c, id, required).Failure? ==>
              EnsureProjectId(c, id, required).error == ValueError(ProjectIdRequired)
    ensures !Truthy(id) && EnsureProjectId(c, id, required).Success? ==>
              EnsureProjectId(c, id, required).value == c
  {
  }

  /** With `required=False` the call never raises. */
  lemma OptionalProjectIdNeverFails(c: Context, id: Option<string>)
    ensures EnsureProjectId(c, id, false).Success?
  {
  }

  // ---- the resolvers together ----

  /**
   * The asymmetry of the two resolvers: with both credentials stored, new
   * overrides replace the project id but leave the account token alone.
   */
  lemma OverridesAreAsymmetric(c: Context, token: string, id: string, required: bool)
    requires c.accountToken.Some? && token != "" && id != ""
    ensures var s := Resolve(c, Some(token), Some(id), required);
      && s.result.Success?
      && s.after.accountToken == c.accountToken
      && s.after.projectId == Some(id)
  {
  }

  /**
   * A call that is given a token but finds no project id raises, yet the token
   * it was given stays stored (and in the headers) for later calls.
   */
  lemma TokenKeptWhenProjectIdMissing(c: Context, token: string)
    requires c.accountToken.None? && token != "" && !Truthy(c.projectId)
    ensures var s := Resolve(c, Some(token), None, true);
      && s.result == Failure(ValueError(ProjectIdRequired))
      && s.after.accountToken == Some(token)
      && s.after.headers[AccountTokenHeader] == token
  {
  }

  /** Every resolver step keeps the stored credentials mirrored in the headers. */
  lemma CallKeepsMirrored(c: Context, token: Option<string>, id: Option<string>, required: bool,
                          fields: seq<string>, url: string)
    requires Mirrored(c)
    ensures Mirrored(Call(c, token, id, required, fields, url).after)
  {
  }

  /**
   * No partial header state is sent: a request that goes out carries the stored
   * account token, and the stored project id whenever the accessor requires one.
   */
  lemma RequestCarriesCredentials(c: Context, token: Option<string>, id: Option<string>, required: bool,
                                  fields: seq<string>, url: string)
    requires Mirrored(c)
    ensures var s := Call(c, token, id, required, fields, url);
      s.result.Success? ==>
        && s.after.accountToken.Some?
        && s.result.value.headers[AccountTokenHeader] == s.after.accountToken.value
        && (required ==> s.after.projectId.Some? && s.after.projectId.value != ""
                         && s.result.value.headers[ProjectIdHeader] == s.after.projectId.value)
        && s.result.value.url == url
  {
  }

  /**
   * A token supplied once is enough: every later call on the same instance
   * gets past the token check without one, and sends that token.
   */
  lemma TokenSuppliedOnce(c: Context, token: string, id: Option<string>, required: bool,
                          fields: seq<string>, url: string,
                          id2: Option<string>, required2: bool, fields2: seq<string>, url2: string)
    requires c.accountToken.None? && token != ""
    ensures var first := Call(c, Some(token), id, required, fields, url);
      var second := Call(first.after, None, id2, required2, fields2, url2);
      && first.after.accountToken == Some(token)
      && second.result != Failure(ValueError(AccountTokenRequired))
      && (second.result.Success? ==> second.result.value.headers[AccountTokenHeader] == token)
  {
  }

  /**
   * The `Include-Source-Data` header persists: a later call that passes no
   * field list still sends the list of the earlier call.
   */
  lemma SourceFieldsPersist(c: Context, token: Option<string>, id: Option<string>, required: bool,
                            fields: seq<string>, url: string,
                            token2: Option<string>, id2: Option<string>, required2: bool, url2: string)
    requires |fields| > 0
    requires Call(c, token, id, required, fields, url).result.Success?
    ensures var second := Call(Call(c, token, id, required, fields, url).after, token2, id2, required2, [], url2);
      second.result.Success? ==>
        second.result.value.headers[IncludeSourceDataHeader] == Join(fields, ',')
  {
    var first := Call(c, token, id, required, fields, url);
    CallSetsSourceFields(c, token, id, required, fields, url);
    CallWithoutFieldsKeepsThem(first.after, token2, id2, required2, url2);
  }

  lemma CallSetsSourceFields(c: Context, token: Option<string>, id: Option<string>, required: bool,
                             fields: seq<string>, url: string)
    requires |fields| > 0
    requires Call(c, token, id, required, fields, url).result.Success?
    ensures var h := Call(c, token, id, required, fields, url).after.headers;
      IncludeSourceDataHeader in h && h[IncludeSourceDataHeader] == Join(fields, ',')
  {
  }

  lemma CallWithoutFieldsKeepsThem(c: Context, token: Option<string>, id: Option<string>, required: bool,
                                   url: string)
    requires IncludeSourceDataHeader in c.headers
    ensures var s := Call(c, token, id, required, [], url);
      s.result.Success? ==>
        s.result.value.headers[IncludeSourceDataHeader] == c.headers[IncludeSourceDataHeader]
  {
    ResolveKeepsSourceFields(c, token, id, required);
  }

  /** The resolvers never touch the `Include-Source-Data` header. */
  lemma ResolveKeepsSourceFields(c: Context, token: Option<string>, id: Option<string>, required: bool)
    ensures var h := Resolve(c, token, id, required).after.headers;
      && (IncludeSourceDataHeader in h <==> IncludeSourceDataHeader in c.headers)
      && (IncludeSourceDataHeader in h ==> h[IncludeSourceDataHeader] == c.headers[IncludeSourceDataHeader])
  {
  }
}
