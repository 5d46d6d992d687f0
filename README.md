# Agave API client: request context and folder tree, in Dafny

This project models the two parts of the Agave API Python client that carry logic
beyond HTTP plumbing.

**`ProjectManagement`: the request-context state machine.** Each instance keeps three
pieces of state:

- an account token;
- a project id;
- its own copy of the client's header map.

Before building a request, every accessor resolves the credentials in place:

- `_ensure_account_token` adopts an override only while no token is stored.
- `_ensure_project_id` lets a non-empty override replace the stored id. Without an
  override it raises only when the accessor requires an id and none is stored.
- `_add_include_source_fields` writes the comma-joined field list into the
  `Include-Source-Data` header. The header then stays for later calls.

The accessors then build a URL and, on the list endpoints, a `page`/`per_page` query
string, and send the headers as they stand at that moment.

In the model, `Projects.ProjectManagement` is a class with those three fields. Each
accessor is a method that returns the request it would send (the URL and a snapshot of
the headers) or the error it would raise. Each method's new state and result are tied to
value-level functions in `Credentials` and `Query`, and the properties are proved about
those functions.

**`FileManagement`: accessors and the recursive `file_tree`.**

- `file`, `files`, `folder` and `root_folder` set the `Include-Source-Data` header in
  place and build GET requests.
- `root_folder` takes its project id from the argument, or else requires a stored one.
- `file_tree` fetches the root folder or a given folder. It walks the record's `folders`
  list in order, and replaces each stub, in place, by the stub updated with its own
  recursively built subtree (`dict.update`).

The remote service is a store of folder records (`Folders.Remote`). The source has no
cycle guard, so the walk requires a rank on folder ids that every child stays below. That
rank is the termination measure. `Files.FileManagement.FileTree` and its loop
`ExpandFolderList` are proved to compute the recursive specification `Folders.Subtree` /
`Files.RootTree`, and the lemmas in `FolderProperties` state what that specification
guarantees.

Modules:

- `Wrappers`: `Option`, `Result`, `Outcome`.
- `Text`: join and split on a character; Python's `str(int)` and its inverse.
- `Api`: client defaults, header names, errors, the request record and the
  `Include-Source-Data` update.
- `Query`: the pagination query string, and an independent decoder for it.
- `Credentials`: the request context as a value, and the resolver steps.
- `Projects`, `ProjectProperties`: the `ProjectManagement` class and the findings about it.
- `Folders`, `FolderProperties`: JSON values, the remote store, the tree expansion and
  its properties.
- `Files`, `FileProperties`: the `FileManagement` class and the `root_folder` properties.

Behaviour modelled as written:

- `FileManagement.root_folder()` with no argument and a stored project id only copies that
  id into a local variable. The `Project-Id` header is not set from it, so the request
  goes out with whatever headers the instance already has
  (`FileProperties.RootFolderStoredIdNotSent`).
- `FileManagement.__init__` sets `project_id` to None and no method of the class ever
  sets it. So the stored-id branch of `root_folder` runs only when a caller assigns
  `project_id` from outside. An explicit id takes the other branch and sets only the
  header.
- As a consequence, `file_tree()` with no folder id always raises "Project ID is
  required" on an instance the class itself manages, even after `root_folder("p1")` has
  put `p1` into the `Project-Id` header
  (`FileProperties.TreeFromRootAfterExplicitId`).

## Model

| member | source | states |
|---|---|---|
| Api.NewAgaveClient | agave_api/client.py:13-29 | a new client has base URL `https://api.agaveapi.com` and exactly the headers `API-Version` (`2021-11-21`), `Client-Id` and `Client-Secret` with the given credentials; no token, project or field header |
| Api.WithSourceFields | agave_api/project_management.py:56-64 | a non-empty field list adds or overwrites `Include-Source-Data` and no other key; an empty (or None) list leaves the headers identical |
| Api.SourceFieldsRecoverable | agave_api/project_management.py:63-64 | splitting the `Include-Source-Data` value at commas gives back the field list, when no field name holds a comma |
| Api.SourceFieldsIdempotent | agave_api/project_management.py:63-64 | setting the same field list twice is the same as setting it once |
| Text.Join | agave_api/project_management.py:64 | joining one part gives that part; joining none gives the empty string |
| Text.Split | agave_api/project_management.py:151 | splitting gives at least one part, and no part contains the separator |
| Text.SplitJoin | agave_api/project_management.py:64 | splitting a join of separator-free parts gives back the parts |
| Text.JoinSplit | agave_api/project_management.py:64 | joining the parts of a split gives back the string |
| Text.IntToString | agave_api/project_management.py:151 | `f"{v}"` of an integer is non-empty, all digits apart from a leading `-`, which appears exactly for negative values |
| Text.ParseNat | agave_api/project_management.py:151 | a numeral parses exactly when it is non-empty and all digits |
| Text.NatRoundTrip | agave_api/project_management.py:151 | parsing the decimal print of a natural number gives it back |
| Text.IntRoundTrip | agave_api/project_management.py:151 | parsing the decimal print of any integer gives it back |
| Query.PageParams | agave_api/project_management.py:144-148 | the params dict has one entry for each of `page` and `per_page` that is not None, `page` first and `per_page` last |
| Query.WithQuery | agave_api/project_management.py:150-152 | with neither parameter the URL is unchanged; otherwise it is the URL followed by `?` and the query string |
| Query.RenderedQuery | agave_api/project_management.py:144-152 | with both parameters the URL is `url?page=P&per_page=Q`, in that order |
| Query.RenderedPageOnly | agave_api/project_management.py:144-152 | with only `page` the URL is `url?page=P` |
| Query.RenderedPerPageOnly | agave_api/project_management.py:144-152 | with only `per_page` the URL is `url?per_page=Q` |
| Query.RenderParams | agave_api/project_management.py:151 | one `k=v` item per parameter |
| Query.PagingRoundTrip | agave_api/project_management.py:144-152 | a server reading the built URL finds exactly the `page` and `per_page` passed, absent when None |
| Query.DefaultPaging | agave_api/project_management.py:122-123 | the default arguments give `url?page=1&per_page=100` |
| Query.NoPaging | agave_api/project_management.py:306-307 | with both arguments None (the `specifications` defaults) the URL is bare, with no `?` |
| Credentials.SetAccountToken | agave_api/project_management.py:76-84 | storing a token keeps every stored credential mirrored in the headers |
| Credentials.SetProjectId | agave_api/project_management.py:66-74 | storing a project id keeps every stored credential mirrored in the headers |
| Credentials.AddIncludeSourceFields | agave_api/project_management.py:56-64 | adding the field header keeps every stored credential mirrored in the headers |
| Credentials.EnsureAccountToken | agave_api/project_management.py:28-39 | fails, with "Account token is required", if and only if no token is stored and the override is not truthy; on success a token is stored, the project id is unchanged and the credentials stay mirrored in the headers |
| Credentials.EnsureProjectId | agave_api/project_management.py:41-54 | fails, with "Project ID is required", if and only if required and neither override nor stored id is truthy; on success the token is unchanged, a required id is truthy, and the credentials stay mirrored |
| Credentials.Call | agave_api/project_management.py:182-195 | one accessor: a sent request has the given URL and the headers the instance keeps afterwards, field header included; a failure is one of the two credential errors |
| Credentials.Resolve | agave_api/project_management.py:107-109 | the two resolvers, token first; on success the context left behind is the resolved one |
| Credentials.AccountTokenRequiredWhenAbsent | agave_api/project_management.py:35-39 | no stored token and a None or empty override: "Account token is required", nothing changed |
| Credentials.AccountTokenAdopted | agave_api/project_management.py:35-37 | no stored token and a non-empty override: token stored, `Account-Token` set to it, project id and every other header unchanged |
| Credentials.StoredAccountTokenWins | agave_api/project_management.py:35 | once a token is stored, the call changes nothing, whatever the override |
| Credentials.EnsureAccountTokenIdempotent | agave_api/project_management.py:35-39 | resolving the token twice with the same override equals resolving it once |
| Credentials.ProjectIdOverrideWins | agave_api/project_management.py:50-51 | a non-empty override is stored and put in `Project-Id` (only that header changes), even over a stored id |
| Credentials.ProjectIdFailsIff | agave_api/project_management.py:50-54 | fails, with "Project ID is required", if and only if required and neither the override nor the stored id is truthy; without an override a success changes nothing |
| Credentials.OptionalProjectIdNeverFails | agave_api/project_management.py:41-54 | with `required=False` the call never raises |
| Credentials.OverridesAreAsymmetric | agave_api/project_management.py:35-51 | with a token stored, new overrides replace the project id but not the token |
| Credentials.TokenKeptWhenProjectIdMissing | agave_api/project_management.py:184 | a call given a token but no project id raises, and the token stays stored and in the headers |
| Credentials.CallKeepsMirrored | agave_api/project_management.py:28-84 | after any accessor, raised or not, each stored credential is in the headers with its value |
| Credentials.RequestCarriesCredentials | agave_api/project_management.py:184-195 | a request that goes out carries the stored token, and the stored non-empty project id when the accessor requires one |
| Credentials.TokenSuppliedOnce | agave_api/project_management.py:35-37 | after one call supplies a token, later calls without one pass the token check and send that token |
| Credentials.SourceFieldsPersist | agave_api/project_management.py:63-64 | a later call without a field list still sends the list of an earlier call |
| Credentials.ResolveKeepsSourceFields | agave_api/project_management.py:28-54 | the resolvers never touch `Include-Source-Data` |
| Projects.ResolvedProjectCall | agave_api/project_management.py:86-105 | the project fetch as its docstring describes it: the URL names the resolved id (the override if truthy, else the stored one); fails if and only if the token cannot be resolved or there is no truthy id |
| Projects.ProjectManagement.constructor | agave_api/project_management.py:13-26 | a new instance has no token, no project id and a copy of the client headers |
| Projects.ProjectManagement.SetProjectId | agave_api/project_management.py:66-74 | the new state is the old one with the id stored and in `Project-Id` |
| Projects.ProjectManagement.SetAccountToken | agave_api/project_management.py:76-84 | the new state is the old one with the token stored and in `Account-Token` |
| Projects.ProjectManagement.AddIncludeSourceFields | agave_api/project_management.py:56-64 | the new headers are the old ones with the field header added when the list is non-empty |
| Projects.ProjectManagement.EnsureAccountToken | agave_api/project_management.py:28-39 | reports pass or the raised error as the resolver function does; a raise leaves the state unchanged |
| Projects.ProjectManagement.EnsureProjectId | agave_api/project_management.py:41-54 | reports pass or the raised error as the resolver function does; a raise leaves the state unchanged |
| Projects.ProjectManagement.Project | agave_api/project_management.py:86-117 | as written: resolves with the id optional, requests `/projects/{project_id}` formatted from the argument, and turns any raise into None |
| Projects.ProjectManagement.ProjectByResolvedId | agave_api/project_management.py:86-105 | the corrected `project`: requests the resolved project, or None when the token or the id cannot be resolved |
| Projects.ProjectManagement.Projects | agave_api/project_management.py:119-156 | resolves the token only, then requests `/projects` with the pagination query and the current headers; from a valid state, a request that goes out carries the stored token (and the stored project id where one is required) |
| Projects.ProjectManagement.Rfis | agave_api/project_management.py:158-196 | as written: requires a project id and requests bare `/rfis`, whatever the paging arguments; from a valid state, a request that goes out carries the stored token (and the stored project id where one is required) |
| Projects.ProjectManagement.RfisPaged | agave_api/project_management.py:158-196 | the corrected `rfis`: the same resolution, with the pagination query appended; from a valid state, a request that goes out carries the stored token (and the stored project id where one is required) |
| Projects.ProjectManagement.Rfi | agave_api/project_management.py:198-227 | requires a project id; requests `/rfis/{id}`; from a valid state, a request that goes out carries the stored token (and the stored project id where one is required) |
| Projects.ProjectManagement.Submittals | agave_api/project_management.py:229-270 | requires a project id; requests `/submittals` with the pagination query; from a valid state, a request that goes out carries the stored token (and the stored project id where one is required) |
| Projects.ProjectManagement.Submittal | agave_api/project_management.py:272-301 | requires a project id; requests `/submittals/{id}`; from a valid state, a request that goes out carries the stored token (and the stored project id where one is required) |
| Projects.ProjectManagement.Specifications | agave_api/project_management.py:303-345 | requires a project id; requests `/specification-sections`, with no paging by default; from a valid state, a request that goes out carries the stored token (and the stored project id where one is required) |
| Projects.ProjectManagement.Specification | agave_api/project_management.py:347-376 | requires a project id; requests `/specification-sections/{id}`; from a valid state, a request that goes out carries the stored token (and the stored project id where one is required) |
| Projects.ProjectManagement.Contacts | agave_api/project_management.py:378-414 | project id optional; requests `/contacts` with the pagination query; from a valid state, a request that goes out carries the stored token (and the stored project id where one is required) |
| Projects.ProjectManagement.Contact | agave_api/project_management.py:416-440 | project id optional; requests `/contacts/{id}`; from a valid state, a request that goes out carries the stored token (and the stored project id where one is required) |
| Projects.ProjectManagement.Vendors | agave_api/project_management.py:442-478 | project id optional; requests `/vendors` with the pagination query; from a valid state, a request that goes out carries the stored token (and the stored project id where one is required) |
| Projects.ProjectManagement.Vendor | agave_api/project_management.py:480-504 | project id optional; requests `/vendors/{id}`; from a valid state, a request that goes out carries the stored token (and the stored project id where one is required) |
| Projects.ProjectManagement.Drawings | agave_api/project_management.py:506-535 | requires a project id; requests `/drawings` with the pagination query; from a valid state, a request that goes out carries the stored token (and the stored project id where one is required) |
| Projects.ProjectManagement.Drawing | agave_api/project_management.py:537-555 | requires a project id; requests `/drawings/{id}`; from a valid state, a request that goes out carries the stored token (and the stored project id where one is required) |
| ProjectProperties.ProjectRequestsNoneWithoutId | agave_api/project_management.py:109-111 | with a token and a project id stored, `project()` requests `/projects/None`, not the stored project |
| ProjectProperties.ResolvedProjectRequestsResolvedId | agave_api/project_management.py:96 | the corrected fetch requests the given id if truthy, else the stored one, and fails without either |
| ProjectProperties.RfisDropsPaging | agave_api/project_management.py:186-196 | the `rfis` URL carries no paging for any arguments, while the corrected URL carries exactly the ones passed |
| ProjectProperties.RequiredProjectIdDecides | agave_api/project_management.py:184 | without a project id, a required-id accessor raises "Project ID is required" and changes nothing, while an optional-id one sends the request |
| ProjectProperties.ProjectWithoutTokenYieldsNothing | agave_api/project_management.py:106-117 | with no token, `project` yields no request and leaves the state unchanged |
| Folders.FetchRoot | agave_api/file_management.py:98-110 | the root folder is found exactly when the sent `Project-Id` header names a project of the store |
| Folders.FetchFolder | agave_api/file_management.py:78-82 | a folder is found exactly when the store holds its id |
| Folders.StubId | agave_api/file_management.py:137 | the id read from `subfolder["id"]`: a string as is, an integer as Python prints it, and none unless the stub is an object with an `id` key |
| Folders.Subtree | agave_api/file_management.py:129-142 | `file_tree(id)`: a result exists only for a stored folder and has the keys of its record; an unknown id fails with not-found for `/folders/{id}` |
| Folders.Expand | agave_api/file_management.py:135-142 | a record without `folders` comes back unchanged; an expanded record keeps exactly the keys of the fetched one |
| Folders.ExpandAll | agave_api/file_management.py:135-139 | an expanded `folders` list has as many entries as stubs |
| Folders.ExpandStub | agave_api/file_management.py:137-139 | an expanded stub is an object with an id and at least the stub's keys; a stub without `id` fails with a key error |
| Folders.RankAbove | agave_api/file_management.py:127-128 | the root record's stubs are all ranked below the bound the walk starts from |
| FolderProperties.LeafReturnedAsFetched | agave_api/file_management.py:135-142 | a record without `folders` comes back exactly as fetched |
| FolderProperties.ExpandAllShape | agave_api/file_management.py:135-139 | an expanded `folders` list has the length and order of the stubs, entry `i` being stub `i` expanded |
| FolderProperties.ExpandAllFailsAtFirst | agave_api/file_management.py:135-139 | the walk fails if and only if some stub fails, with the error of the first failing stub |
| FolderProperties.StubMerge | agave_api/file_management.py:137-139 | an expanded stub has the keys of stub and subtree; subtree values win, keys only in the stub keep their values |
| FolderProperties.ExpandKeepsOtherFields | agave_api/file_management.py:141-142 | expansion changes only `folders`: every other key, `files` included, is as fetched |
| FolderProperties.ExpandStubKeepsId | agave_api/file_management.py:137-139 | in a store serving each folder under its own id, expansion keeps the folder id a stub names |
| FolderProperties.ExpandAllKeepsIds | agave_api/file_management.py:135-139 | the ids of an expanded list are those of its stubs, position by position |
| Files.ExpandAllFailsHere | agave_api/file_management.py:135-139 | a failing stub ends the whole walk with its error |
| Files.ExpandAllStepsHere | agave_api/file_management.py:135-139 | an expanded stub moves from the rest of the walk to the finished prefix |
| Files.FileManagement.constructor | agave_api/file_management.py:14-31 | a new instance has no token, no project id and a copy of the client headers |
| Files.FileManagement.AddIncludeSourceFields | agave_api/file_management.py:45-46 | the new headers are the old ones with the field header added when the list is non-empty |
| Files.FileManagement.File | agave_api/file_management.py:33-48 | requests `/files/{id}` with the headers after the field update |
| Files.FileManagement.Files | agave_api/file_management.py:50-65 | requests `/folders/{id}/files` with the headers after the field update |
| Files.FileManagement.Folder | agave_api/file_management.py:67-82 | requests `/folders/{id}` with the headers after the field update |
| Files.FileManagement.RootFolder | agave_api/file_management.py:84-110 | requests `/root-folder`; an explicit id sets `Project-Id` only; without one a stored id is required |
| Files.RootFolderCall | agave_api/file_management.py:98-110 | fails if and only if no id is given and none is stored; a request goes to `/root-folder` with the headers kept afterwards; an explicit id is in `Project-Id`; without one only the field header is added; the stored id and token never change |
| Files.RootTree | agave_api/file_management.py:127-128 | `file_tree()` leaves token and stored id as they were; with no stored id it raises "Project ID is required" and changes nothing; otherwise it only adds the field header |
| Files.FileManagement.FileTree | agave_api/file_management.py:112-142 | returns the recursive subtree of the given folder, or of the root folder. The requests it sends are logged in order: the first fetches the given folder (or `/root-folder`), every later one fetches a `/folders/{id}`, and all carry the same headers, the old ones with the field header. Token and stored id unchanged |
| Files.FileManagement.ExpandFolderList | agave_api/file_management.py:134-142 | the in-place loop over `folders` computes the specified expansion, leaves the instance state as it was, and sends only folder fetches with the current headers |
| FileProperties.RootFolderNeedsProjectId | agave_api/file_management.py:100-102 | no argument and no stored id: "Project ID is required", nothing changed |
| FileProperties.RootFolderExplicitId | agave_api/file_management.py:104-105 | an explicit id is sent in `Project-Id` and kept in the headers; the stored id and token are unchanged |
| FileProperties.RootFolderStoredIdNotSent | agave_api/file_management.py:100-103 | with only a stored id, no `Project-Id` header is sent, so the root folder is not found |
| FileProperties.TreeFromRootAfterExplicitId | agave_api/file_management.py:27-31 | on a new instance, `root_folder(id)` followed by `file_tree()` raises "Project ID is required": the explicit id reaches only the header, and the class never stores a project id |
| FileProperties.RootTreeStartsAtRoot | agave_api/file_management.py:127-128 | `file_tree()` expands the root folder of the project named by the `Project-Id` header, and only adds the field header |

## Left out

- HTTP transport is not modelled: `AgaveClient.get`/`post` over httpx, connection
  closing, timeouts and retries. Requests are returned as values, and fetches are
  lookups in `Folders.Remote`.
- Authentication is not checked: `Folders.Remote` serves records whatever the
  credentials, and the records do not vary with `Include-Source-Data`.
- An error response from the server, which the source would parse as JSON, is modelled
  as a `NotFound` failure.
- `response.json()` parsing is not modelled. Responses are `Folders.Value` records, and
  JSON floats are not represented.
- `Link.create` and `Link.exchange` are one POST each with no logic, and are not modelled.
- The console `print` in `project`'s exception handler is left out; only its None result
  is modelled.
- The live-API test script and the package re-exports are not part of this model.
- The source's broken wiring is not reproduced. The accessors are modelled as intended:
  `ProjectManagement` takes one client, `FileManagement` builds URLs from the client's
  base URL, and fetches go through the client.
- Concurrent use of one instance is not modelled; the source is sequential.
- Folders.ExpandStub: a stub id other than a string or an integer fails with `TypeError`.
  Python would format it into the URL (a None id would even restart at the root folder).
- Folders.Subtree: terminates only on stores with a rank that every child stays below. A
  cyclic store, on which the source recurses until Python's recursion limit, is outside
  the model.
- Files.FileManagement.FileTree: the walk builds a new `folders` sequence in the local
  record rather than mutating dictionaries shared with the fetched response. Aliasing
  between the response and the result is not represented.

## Findings

| source | as written | input that shows it | evidently intended | confidence | as-written member | corrected member |
|---|---|---|---|---|---|---|
| agave_api/project_management.py:111 | the URL is formatted from the `project_id` argument, not the resolved id | a token and project id `p1` stored, `project()` called with no id: requests `/projects/None` | request `/projects/p1`, the stored project, as the docstring says | high, not executed | ProjectProperties.ProjectRequestsNoneWithoutId | ProjectProperties.ResolvedProjectRequestsResolvedId |
| agave_api/project_management.py:186-196 | `params` is computed but never appended to the URL | `rfis(page=2, per_page=10)`: requests bare `/rfis` | request `/rfis?page=2&per_page=10`, as every other list accessor does | high, not executed | ProjectProperties.RfisDropsPaging | Projects.ProjectManagement.RfisPaged |
