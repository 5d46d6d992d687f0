/**
 * `ProjectManagement`: an object that keeps an account token, a project id and
 * its own copy of the client's headers, updates them in place while resolving
 * the credentials of each call, and builds one GET request per accessor.
 * Each accessor returns the request it would send (URL and a snapshot of the
 * headers) or the error it would raise; sending it is not modelled.
 */
module Projects {
  import opened Wrappers
  import opened Api
  import opened Query
  import opened Credentials

  const ProjectsPath: string := "/projects"
  const RfisPath: string := "/rfis"
  const SubmittalsPath: string := "/submittals"
  const SpecificationsPath: string := "/specification-sections"
  const ContactsPath: string := "/contacts"
  const VendorsPath: string := "/vendors"
  const DrawingsPath: string := "/drawings"

  /** `f"{x}"` for an `Optional[str]`: Python prints None as `None`. */
  function FormatOptional(x: Option<string>): string {
    if x.Some? then x.value else "None"
  }

  /** `{collection}/{id}`: the path of one item of a collection. */
  function ItemPath(collection: string, id: string): string {
    collection + "/" + id
  }

  /**
   * What `project` was evidently meant to do, as its docstring describes it: use the
   * given project id or else the stored one, and raise (here: yield no request) when
   * there is neither.
   */
  function ResolvedProjectCall(c: Context, baseUrl: string, token: Option<string>, id: Option<string>,
                               fields: seq<string>): (s: Step<Request>)
    ensures s.result.Success? ==>
      && s.after.projectId.Some? && s.after.projectId.value != ""
      && s.result.value.url == baseUrl + ItemPath(ProjectsPath, s.after.projectId.value)
      && (Truthy(id) ==> s.after.projectId == id)
      && (!Truthy(id) ==> s.after.projectId == c.projectId)
    ensures s.result.Failure? <==>
      (c.accountToken.None? && !Truthy(token)) || (!Truthy(id) && !Truthy(c.projectId))
  {
    var r := Resolve(c, token, id, true);
    match r.result
    case Failure(e) => Step(Failure(e), r.after)
    case Success(c2) => Send(c2, fields, baseUrl + ItemPath(ProjectsPath, c2.projectId.value))
  }

  /** The outcome a resolver method reports matches the resolver function; a raise changes nothing. */
  predicate Settled(o: Outcome<Error>, now: Context, before: Context, expected: Result<Context, Error>) {
    match expected
    case Success(c) => o == Pass && now == c
    case Failure(e) => o == Fail(e) && now == before
  }

  class ProjectManagement {
    const agaveClient: AgaveClient
    var headers: Headers
    var accountToken: Option<string>
    var projectId: Option<string>

    /** The instance's request context as a value. */
    function State(): Context
      reads this
    {
      Context(accountToken, projectId, headers)
    }

    /** The stored credentials are in the headers that will be sent. */
    ghost predicate Valid()
      reads this
    {
      Mirrored(State())
    }

    /**
     * A request that went out carries the stored account token, and, when the
     * accessor requires one, the stored project id.
     */
    ghost predicate Authorized(r: Result<Request, Error>, required: bool)
      reads this
    {
      r.Success? ==>
        && accountToken.Some? && AccountTokenHeader in r.value.headers
        && r.value.headers[AccountTokenHeader] == accountToken.value
        && (required ==> Truthy(projectId) && ProjectIdHeader in r.value.headers
                         && r.value.headers[ProjectIdHeader] == projectId.value)
    }

    constructor (agaveClient: AgaveClient)
      ensures this.agaveClient == agaveClient
      ensures State() == Context(None, None, agaveClient.headers)
      ensures Valid()
    {
      this.agaveClient := agaveClient;
      headers := agaveClient.headers;
      accountToken := None;
      projectId := None;
    }

    method SetProjectId(id: string)
      modifies this
      ensures State() == Credentials.SetProjectId(old(State()), id)
      ensures old(Valid()) ==> Valid()
    {
      projectId := Some(id);
      headers := headers[ProjectIdHeader := id];
    }

    method SetAccountToken(token: string)
      modifies this
      ensures State() == Credentials.SetAccountToken(old(State()), token)
      ensures old(Valid()) ==> Valid()
    {
      accountToken := Some(token);
      headers := headers[AccountTokenHeader := token];
    }

    method AddIncludeSourceFields(fields: seq<string>)
      modifies this
      ensures State() == Credentials.AddIncludeSourceFields(old(State()), fields)
      ensures old(Valid()) ==> Valid()
    {
      if |fields| > 0 {
        headers := headers[IncludeSourceDataHeader := Text.Join(fields, ',')];
      }
    }

    method EnsureAccountToken(token: Option<string> := None) returns (o: Outcome<Error>)
      modifies this
      ensures Settled(o, State(), old(State()), Credentials.EnsureAccountToken(old(State()), token))
      ensures old(Valid()) ==> Valid()
    {
      o := Pass;
      if accountToken.None? {
        if token.Some? && token.value != "" {
          SetAccountToken(token.value);
        } else {
          o := Fail(ValueError(AccountTokenRequired));
        }
      }
    }

    method EnsureProjectId(id: Option<string> := None, required: bool := true) returns (o: Outcome<Error>)
      modifies this
      ensures Settled(o, State(), old(State()), Credentials.EnsureProjectId(old(State()), id, required))
      ensures old(Valid()) ==> Valid()
    {
      o := Pass;
      if id.Some? && id.value != "" {
        SetProjectId(id.value);
      } else if required && (projectId.None? || projectId.value == "") {
        o := Fail(ValueError(ProjectIdRequired));
      }
    }

    /** The shared tail of every accessor: add the field header, then snapshot the headers. */
    method SendRequest(url: string, fields: seq<string>) returns (r: Result<Request, Error>)
      modifies this
      ensures Step(r, State()) == Send(old(State()), fields, url)
      ensures old(Valid()) ==> Valid()
    {
      AddIncludeSourceFields(fields);
      r := Success(Request(url, headers));
    }

    /**
     * `project`, as written: the URL is formatted from the argument itself, so an
     * omitted id requests `/projects/None`, and every raise becomes a None result.
     */
    method Project(id: Option<string> := None, fields: seq<string> := [], token: Option<string> := None)
      returns (r: Option<Request>)
      modifies this
      ensures var s := Call(old(State()), token, id, false, fields,
                            agaveClient.baseUrl + ItemPath(ProjectsPath, FormatOptional(id)));
        && State() == s.after
        && r == (if s.result.Success? then Some(s.result.value) else None)
      ensures old(Valid()) ==> Valid()
    {
      var o := EnsureAccountToken(token);
      if o.Fail? { return None; }
      o := EnsureProjectId(id, false);
      if o.Fail? { return None; }
      var url := agaveClient.baseUrl + ItemPath(ProjectsPath, FormatOptional(id));
      var req := SendRequest(url, fields);
      r := Some(req.value);
    }

    /** `project` as its docstring describes it: the resolved project id names the project. */
    method ProjectByResolvedId(id: Option<string> := None, fields: seq<string> := [],
                               token: Option<string> := None)
      returns (r: Option<Request>)
      modifies this
      ensures var s := ResolvedProjectCall(old(State()), agaveClient.baseUrl, token, id, fields);
        && State() == s.after
        && r == (if s.result.Success? then Some(s.result.value) else None)
      ensures old(Valid()) ==> Valid()
    {
      var o := EnsureAccountToken(token);
      if o.Fail? { return None; }
      o := EnsureProjectId(id, true);
      if o.Fail? { return None; }
      var url := agaveClient.baseUrl + ItemPath(ProjectsPath, projectId.value);
      var req := SendRequest(url, fields);
      r := Some(req.value);
    }

    method Projects(fields: seq<string> := [], page: Option<int> := Some(1), perPage: Option<int> := Some(100),
                    token: Option<string> := None)
      returns (r: Result<Request, Error>)
      modifies this
      ensures Step(r, State()) == Call(old(State()), token, None, false, fields,
                                       WithQuery(agaveClient.baseUrl + ProjectsPath, page, perPage))
      ensures old(Valid()) ==> Valid() && Authorized(r, false)
    {
      var o := EnsureAccountToken(token);
      if o.Fail? { return Failure(o.error); }
      var url := WithQuery(agaveClient.baseUrl + ProjectsPath, page, perPage);
      r := SendRequest(url, fields);
    }

    /** `rfis`, as written: `page` and `per_page` are collected but never put on the URL. */
    method Rfis(fields: seq<string> := [], page: Option<int> := Some(1), perPage: Option<int> := Some(100),
                token: Option<string> := None, id: Option<string> := None)
      returns (r: Result<Request, Error>)
      modifies this
      ensures Step(r, State()) == Call(old(State()), token, id, true, fields, agaveClient.baseUrl + RfisPath)
      ensures old(Valid()) ==> Valid() && Authorized(r, true)
    {
      var o := EnsureAccountToken(token);
      if o.Fail? { return Failure(o.error); }
      o := EnsureProjectId(id, true);
      if o.Fail? { return Failure(o.error); }
      var url := agaveClient.baseUrl + RfisPath;
      var params := PageParams(page, perPage);
      r := SendRequest(url, fields);
    }

    /** `rfis` with its query string appended, as every other list accessor does. */
    method RfisPaged(fields: seq<string> := [], page: Option<int> := Some(1), perPage: Option<int> := Some(100),
                     token: Option<string> := None, id: Option<string> := None)
      returns (r: Result<Request, Error>)
      modifies this
      ensures Step(r, State()) == Call(old(State()), token, id, true, fields,
                                       WithQuery(agaveClient.baseUrl + RfisPath, page, perPage))
      ensures old(Valid()) ==> Valid() && Authorized(r, true)
    {
      r := ListRequest(RfisPath, fields, page, perPage, token, id, true);
    }

    method Rfi(rfiId: string, fields: seq<string> := [], token: Option<string> := None,
               id: Option<string> := None)
      returns (r: Result<Request, Error>)
      modifies this
      ensures Step(r, State()) == Call(old(State()), token, id, true, fields,
                                       agaveClient.baseUrl + ItemPath(RfisPath, rfiId))
      ensures old(Valid()) ==> Valid() && Authorized(r, true)
    {
      r := ItemRequest(RfisPath, rfiId, fields, token, id, true);
    }

    method Submittals(fields: seq<string> := [], page: Option<int> := Some(1), perPage: Option<int> := Some(100),
                      token: Option<string> := None, id: Option<string> := None)
      returns (r: Result<Request, Error>)
      modifies this
      ensures Step(r, State()) == Call(old(State()), token, id, true, fields,
                                       WithQuery(agaveClient.baseUrl + SubmittalsPath, page, perPage))
      ensures old(Valid()) ==> Valid() && Authorized(r, true)
    {
      r := ListRequest(SubmittalsPath, fields, page, perPage, token, id, true);
    }

    method Submittal(submittalId: string, fields: seq<string> := [], token: Option<string> := None,
                     id: Option<string> := None)
      returns (r: Result<Request, Error>)
      modifies this
      ensures Step(r, State()) == Call(old(State()), token, id, true, fields,
                                       agaveClient.baseUrl + ItemPath(SubmittalsPath, submittalId))
      ensures old(Valid()) ==> Valid() && Authorized(r, true)
    {
      r := ItemRequest(SubmittalsPath, submittalId, fields, token, id, true);
    }

    /** `specifications`: unlike the other list accessors, no page parameters by default. */
    method Specifications(fields: seq<string> := [], page: Option<int> := None, perPage: Option<int> := None,
                          token: Option<string> := None, id: Option<string> := None)
      returns (r: Result<Request, Error>)
      modifies this
      ensures Step(r, State()) == Call(old(State()), token, id, true, fields,
                                       WithQuery(agaveClient.baseUrl + SpecificationsPath, page, perPage))
      ensures old(Valid()) ==> Valid() && Authorized(r, true)
    {
      r := ListRequest(SpecificationsPath, fields, page, perPage, token, id, true);
    }

    method Specification(specificationId: string, fields: seq<string> := [], token: Option<string> := None,
                         id: Option<string> := None)
      returns (r: Result<Request, Error>)
      modifies this
      ensures Step(r, State()) == Call(old(State()), token, id, true, fields,
                                       agaveClient.baseUrl + ItemPath(SpecificationsPath, specificationId))
      ensures old(Valid()) ==> Valid() && Authorized(r, true)
    {
      r := ItemRequest(SpecificationsPath, specificationId, fields, token, id, true);
    }

    method Contacts(fields: seq<string> := [], page: Option<int> := Some(1), perPage: Option<int> := Some(100),
                    token: Option<string> := None, id: Option<string> := None)
      returns (r: Result<Request, Error>)
      modifies this
      ensures Step(r, State()) == Call(old(State()), token, id, false, fields,
                                       WithQuery(agaveClient.baseUrl + ContactsPath, page, perPage))
      ensures old(Valid()) ==> Valid() && Authorized(r, false)
    {
      r := ListRequest(ContactsPath, fields, page, perPage, token, id, false);
    }

    method Contact(contactId: string, fields: seq<string> := [], token: Option<string> := None,
                   id: Option<string> := None)
      returns (r: Result<Request, Error>)
      modifies this
      ensures Step(r, State()) == Call(old(State()), token, id, false, fields,
                                       agaveClient.baseUrl + ItemPath(ContactsPath, contactId))
      ensures old(Valid()) ==> Valid() && Authorized(r, false)
    {
      r := ItemRequest(ContactsPath, contactId, fields, token, id, false);
    }

    method Vendors(fields: seq<string> := [], page: Option<int> := Some(1), perPage: Option<int> := Some(100),
                   token: Option<string> := None, id: Option<string> := None)
      returns (r: Result<Request, Error>)
      modifies this
      ensures Step(r, State()) == Call(old(State()), token, id, false, fields,
                                       WithQuery(agaveClient.baseUrl + VendorsPath, page, perPage))
      ensures old(Valid()) ==> Valid() && Authorized(r, false)
    {
      r := ListRequest(VendorsPath, fields, page, perPage, token, id, false);
    }

    method Vendor(vendorId: string, fields: seq<string> := [], token: Option<string> := None,
                  id: Option<string> := None)
      returns (r: Result<Request, Error>)
      modifies this
      ensures Step(r, State()) == Call(old(State()), token, id, false, fields,
                                       agaveClient.baseUrl + ItemPath(VendorsPath, vendorId))
      ensures old(Valid()) ==> Valid() && Authorized(r, false)
    {
      r := ItemRequest(VendorsPath, vendorId, fields, token, id, false);
    }

    method Drawings(fields: seq<string> := [], page: Option<int> := Some(1), perPage: Option<int> := Some(100),
                    token: Option<string> := None, id: Option<string> := None)
      returns (r: Result<Request, Error>)
      modifies this
      ensures Step(r, State()) == Call(old(State()), token, id, true, fields,
                                       WithQuery(agaveClient.baseUrl + DrawingsPath, page, perPage))
      ensures old(Valid()) ==> Valid() && Authorized(r, true)
    {
      r := ListRequest(DrawingsPath, fields, page, perPage, token, id, true);
    }

    method Drawing(drawingId: string, fields: seq<string> := [], token: Option<string> := None,
                   id: Option<string> := None)
      returns (r: Result<Request, Error>)
      modifies this
      ensures Step(r, State()) == Call(old(State()), token, id, true, fields,
                                       agaveClient.baseUrl + ItemPath(DrawingsPath, drawingId))
      ensures old(Valid()) ==> Valid() && Authorized(r, true)
    {
      r := ItemRequest(DrawingsPath, drawingId, fields, token, id, true);
    }

    /** The body every paged list accessor repeats: resolve, build `collection?page=..&per_page=..`, send. */
    method ListRequest(collection: string, fields: seq<string>, page: Option<int>, perPage: Option<int>,
                       token: Option<string>, id: Option<string>, required: bool)
      returns (r: Result<Request, Error>)
      modifies this
      ensures Step(r, State()) == Call(old(State()), token, id, required, fields,
                                       WithQuery(agaveClient.baseUrl + collection, page, perPage))
      ensures old(Valid()) ==> Valid() && Authorized(r, required)
    {
      var o := EnsureAccountToken(token);
      if o.Fail? { return Failure(o.error); }
      o := EnsureProjectId(id, required);
      if o.Fail? { return Failure(o.error); }
      var url := WithQuery(agaveClient.baseUrl + collection, page, perPage);
      r := SendRequest(url, fields);
    }

    /** The body every single-item accessor repeats: resolve, build `collection/itemId`, send. */
    method ItemRequest(collection: string, itemId: string, fields: seq<string>,
                       token: Option<string>, id: Option<string>, required: bool)
      returns (r: Result<Request, Error>)
      modifies this
      ensures Step(r, State()) == Call(old(State()), token, id, required, fields,
                                       agaveClient.baseUrl + ItemPath(collection, itemId))
      ensures old(Valid()) ==> Valid() && Authorized(r, required)
    {
      var o := EnsureAccountToken(token);
      if o.Fail? { return Failure(o.error); }
      o := EnsureProjectId(id, required);
      if o.Fail? { return Failure(o.error); }
      var url := agaveClient.baseUrl + ItemPath(collection, itemId);
      r := SendRequest(url, fields);
    }
  }
}

module ProjectProperties {
  import opened Wrappers
  import opened Api
  import opened Query
  import opened Credentials
  import opened Projects

  /**
   * `project` as written ignores the stored project id: called without one it
   * requests `/projects/None`, even though a project id is stored and sent in
   * the `Project-Id` header.
   */
  lemma ProjectRequestsNoneWithoutId(c: Context, baseUrl: string, fields: seq<string>)
    requires c.accountToken.Some? && Truthy(c.projectId) && c.projectId.value != "None"
    ensures var s := Call(c, None, None, false, fields, baseUrl + ItemPath(ProjectsPath, FormatOptional(None)));
      && s.result.Success?
      && s.result.value.url == baseUrl + "/projects/None"
      && s.result.value.url != baseUrl + ItemPath(ProjectsPath, c.projectId.value)
  {
    var s := Call(c, None, None, false, fields, baseUrl + ItemPath(ProjectsPath, FormatOptional(None)));
    var u := baseUrl + ItemPath(ProjectsPath, c.projectId.value);
    assert s.result.value.url == baseUrl + "/projects/" + "None";
    assert (baseUrl + "/projects/" + "None")[|baseUrl| + 10..] == "None";
    assert u[|baseUrl| + 10..] == c.projectId.value;
  }

  /**
   * The corrected `project` requests the project the instance resolved: the
   * given id when there is one, else the stored one; with neither it yields no
   * request, as with a missing account token.
   */
  lemma ResolvedProjectRequestsResolvedId(c: Context, baseUrl: string, token: Option<string>,
                                          id: Option<string>, fields: seq<string>)
    requires Mirrored(c)
    ensures var s := ResolvedProjectCall(c, baseUrl, token, id, fields);
      && (s.result.Success? ==>
            && s.result.value.url == baseUrl + ItemPath(ProjectsPath, s.after.projectId.value)
            && s.result.value.headers[ProjectIdHeader] == s.after.projectId.value)
      && (Truthy(id) && s.result.Success? ==> s.result.value.url == baseUrl + ItemPath(ProjectsPath, id.value))
      && (!Truthy(id) && Truthy(c.projectId) && s.result.Success? ==>
            s.result.value.url == baseUrl + ItemPath(ProjectsPath, c.projectId.value))
      && (!Truthy(id) && !Truthy(c.projectId) ==> s.result.Failure?)
  {
  }

  /**
   * `rfis` as written drops its paging: a server reading the URL sees no `page`
   * and no `per_page`, whatever was passed, while the corrected URL carries both.
   */
  lemma RfisDropsPaging(baseUrl: string, page: Option<int>, perPage: Option<int>)
    requires '?' !in baseUrl
    ensures PagingOf(baseUrl + RfisPath) == Some((None, None))
    ensures PagingOf(WithQuery(baseUrl + RfisPath, page, perPage)) == Some((page, perPage))
  {
    assert '?' !in baseUrl + RfisPath;
    PagingRoundTrip(baseUrl + RfisPath, None, None);
    PagingRoundTrip(baseUrl + RfisPath, page, perPage);
  }

  /**
   * Accessors that require a project id (`rfis`, `rfi`, `submittals`, `submittal`,
   * `specifications`, `specification`, `drawings`, `drawing`) raise without one,
   * where those that do not (`project`, `contacts`, `contact`, `vendors`, `vendor`)
   * go ahead with the same context.
   */
  lemma RequiredProjectIdDecides(c: Context, id: Option<string>, fields: seq<string>, url: string)
    requires c.accountToken.Some? && !Truthy(c.projectId) && !Truthy(id)
    ensures Call(c, None, id, true, fields, url) == Step(Failure(ValueError(ProjectIdRequired)), c)
    ensures Call(c, None, id, false, fields, url).result == Success(Request(url, WithSourceFields(c.headers, fields)))
  {
  }

  /** `project` never raises: without an account token it yields no request and changes nothing. */
  lemma ProjectWithoutTokenYieldsNothing(c: Context, id: Option<string>, fields: seq<string>, url: string,
                                         baseUrl: string)
    requires c.accountToken.None?
    ensures Call(c, None, id, false, fields, url) == Step(Failure(ValueError(AccountTokenRequired)), c)
    ensures ResolvedProjectCall(c, baseUrl, None, id, fields) == Step(Failure(ValueError(AccountTokenRequired)), c)
  {
  }
}
