/**
 * `FileManagement`: an object with its own copy of the client's headers and a
 * project id, whose accessors set headers in place and build GET requests, and
 * whose `FileTree` walks the remote folder hierarchy, merging each stub of a
 * fetched `folders` list with its own subtree.
 */
module Files {
  import opened Wrappers
  import opened Api
  import opened Credentials
  import opened Folders

  function FilePath(id: string): string {
    "/files/" + id
  }

  function FolderFilesPath(id: FolderId): string {
    "/folders/" + id + "/files"
  }

  /**
   * `root_folder`: an explicit project id goes into the `Project-Id` header
   * (the stored id is left alone); without one the stored id must exist, and
   * then the headers are sent as they are.
   */
  function RootFolderCall(c: Context, baseUrl: string, id: Option<string>, fields: seq<string>): (s: Step<Request>)
    ensures s.result.Failure? <==> id.None? && c.projectId.None?
    ensures s.after.projectId == c.projectId && s.after.accountToken == c.accountToken
    ensures s.result.Success? ==>
      && s.result.value.url == baseUrl + RootFolderPath
      && s.result.value.headers == s.after.headers
      && (id.Some? ==> ProjectIdHeader in s.after.headers && s.after.headers[ProjectIdHeader] == id.value)
      && (id.None? ==> s.after.headers == WithSourceFields(c.headers, fields))
  {
    if id.None? then
      if c.projectId.None? then Step(Failure(ValueError(ProjectIdRequired)), c)
      else Send(c, fields, baseUrl + RootFolderPath)
    else Send(c.(headers := c.headers[ProjectIdHeader := id.value]), fields, baseUrl + RootFolderPath)
  }

  /** `file_tree()`: fetch the root folder of the project, then expand it. */
  ghost function RootTree(remote: Remote, rank: FolderId -> nat, c: Context, baseUrl: string, fields: seq<string>)
    : (t: Step<Record>)
    requires Ranked(remote, rank)
    ensures t.after.projectId == c.projectId && t.after.accountToken == c.accountToken
    ensures c.projectId.None? ==> t == Step(Failure(ValueError(ProjectIdRequired)), c)
    ensures c.projectId.Some? ==> t.after.headers == WithSourceFields(c.headers, fields)
  {
    var s := RootFolderCall(c, baseUrl, None, fields);
    match s.result
    case Failure(e) => Step(Failure(e), s.after)
    case Success(req) =>
      match FetchRoot(remote, req.headers)
      case Failure(e) => Step(Failure(e), s.after)
      case Success(root) => Step(Expand(remote, rank, root, RankAbove(Entries(root), rank)), s.after)
  }

  /** The remainder of `subtree` once `done` stubs have been expanded into `prefix`. */
  function Prepend(prefix: seq<Value>, rest: Result<seq<Value>, Error>): Result<seq<Value>, Error> {
    match rest
    case Success(vs) => Success(prefix + vs)
    case Failure(e) => Failure(e)
  }

  /** The record with its `folders` list replaced by the expanded one, or the error that stopped the walk. */
  function Rebuild(record: Record, expanded: Result<seq<Value>, Error>): Result<Record, Error> {
    match expanded
    case Success(xs) => Success(record[FoldersKey := Arr(xs)])
    case Failure(e) => Failure(e)
  }

  /** A request for one folder record: `/folders/{id}` on the client's base URL. */
  ghost predicate FolderFetch(req: Request, baseUrl: string) {
    exists id :: req.url == baseUrl + FolderPath(id)
  }

  /** Every request in `sent` fetches a folder record and carries the headers `h`. */
  ghost predicate FolderFetches(sent: seq<Request>, h: Headers, baseUrl: string) {
    forall k :: 0 <= k < |sent| ==> sent[k].headers == h && FolderFetch(sent[k], baseUrl)
  }

  /** The requests of a nested walk, which starts with a folder fetch, extend the log of folder fetches. */
  lemma FolderFetchesExtend(sent: seq<Request>, more: seq<Request>, h: Headers, baseUrl: string)
    requires FolderFetches(sent, h, baseUrl)
    requires |more| > 0 && more[0].headers == h && FolderFetch(more[0], baseUrl)
    requires FolderFetches(more[1..], h, baseUrl)
    ensures FolderFetches(sent + more, h, baseUrl)
  {
    forall k | 0 <= k < |sent + more|
      ensures (sent + more)[k].headers == h && FolderFetch((sent + more)[k], baseUrl)
    {
      if k > |sent| {
        assert (sent + more)[k] == more[1..][k - |sent| - 1];
      }
    }
  }

  lemma PrependNothing(rest: Result<seq<Value>, Error>)
    ensures Prepend([], rest) == rest
  {
    if rest.Success? {
      assert [] + rest.value == rest.value;
    }
  }

  /** A stub that fails ends the walk with its error. */
  lemma ExpandAllFailsHere(remote: Remote, rank: FolderId -> nat, stubs: seq<Value>, bound: nat, i: nat,
                           prefix: seq<Value>)
    requires Ranked(remote, rank) && StubsBelow(stubs, rank, bound) && i < |stubs|
    requires ExpandAll(remote, rank, stubs, bound) == Prepend(prefix, ExpandAll(remote, rank, stubs[i..], bound))
    ensures StubsBelow([stubs[i]], rank, bound)
    ensures ExpandStub(remote, rank, stubs[i], bound).Failure? ==>
      ExpandAll(remote, rank, stubs, bound) == Failure(ExpandStub(remote, rank, stubs[i], bound).error)
  {
    assert stubs[i] in stubs;
    assert stubs[i..][0] == stubs[i];
    assert StubsBelow(stubs[i..], rank, bound);
  }

  /** A stub that expands to `v` moves from the rest of the walk to the finished prefix. */
  lemma ExpandAllStepsHere(remote: Remote, rank: FolderId -> nat, stubs: seq<Value>, bound: nat, i: nat,
                           prefix: seq<Value>, v: Value)
    requires Ranked(remote, rank) && StubsBelow(stubs, rank, bound) && i < |stubs|
    requires StubsBelow([stubs[i]], rank, bound) && ExpandStub(remote, rank, stubs[i], bound) == Success(v)
    requires ExpandAll(remote, rank, stubs, bound) == Prepend(prefix, ExpandAll(remote, rank, stubs[i..], bound))
    ensures StubsBelow(stubs[i + 1..], rank, bound)
    ensures ExpandAll(remote, rank, stubs, bound) == Prepend(prefix + [v], ExpandAll(remote, rank, stubs[i + 1..], bound))
  {
    assert stubs[i..][0] == stubs[i];
    assert stubs[i..][1..] == stubs[i + 1..];
    assert StubsBelow(stubs[i..], rank, bound);
    assert StubsBelow(stubs[i + 1..], rank, bound);
    var rest := ExpandAll(remote, rank, stubs[i + 1..], bound);
    var tail := stubs[i..];
    assert ExpandStub(remote, rank, tail[0], bound) == Success(v);
    assert ExpandAll(remote, rank, tail, bound) == Prepend([v], rest);
    if rest.Success? {
      assert prefix + ([v] + rest.value) == (prefix + [v]) + rest.value;
    }
  }

  class FileManagement {
    const agaveClient: AgaveClient
    var headers: Headers
    var accountToken: Option<string>
    var projectId: Option<string>

    function State(): Context
      reads this
    {
      Context(accountToken, projectId, headers)
    }

    constructor (agaveClient: AgaveClient)
      ensures this.agaveClient == agaveClient
      ensures State() == Context(None, None, agaveClient.headers)
    {
      this.agaveClient := agaveClient;
      headers := agaveClient.headers;
      accountToken := None;
      projectId := None;
    }

    method AddIncludeSourceFields(fields: seq<string>)
      modifies this
      ensures State() == Credentials.AddIncludeSourceFields(old(State()), fields)
    {
      if |fields| > 0 {
        headers := headers[IncludeSourceDataHeader := Text.Join(fields, ',')];
      }
    }

    method File(fileId: string, fields: seq<string> := []) returns (req: Request)
      modifies this
      ensures Step(Success(req), State()) == Send(old(State()), fields, agaveClient.baseUrl + FilePath(fileId))
    {
      var url := agaveClient.baseUrl + FilePath(fileId);
      AddIncludeSourceFields(fields);
      req := Request(url, headers);
    }

    method Files(folderId: FolderId, fields: seq<string> := []) returns (req: Request)
      modifies this
      ensures Step(Success(req), State()) == Send(old(State()), fields, agaveClient.baseUrl + FolderFilesPath(folderId))
    {
      var url := agaveClient.baseUrl + FolderFilesPath(folderId);
      AddIncludeSourceFields(fields);
      req := Request(url, headers);
    }

    method Folder(folderId: FolderId, fields: seq<string> := []) returns (req: Request)
      modifies this
      ensures Step(Success(req), State()) == Send(old(State()), fields, agaveClient.baseUrl + FolderPath(folderId))
    {
      var url := agaveClient.baseUrl + FolderPath(folderId);
      AddIncludeSourceFields(fields);
      req := Request(url, headers);
    }

    method RootFolder(id: Option<string> := None, fields: seq<string> := []) returns (r: Result<Request, Error>)
      modifies this
      ensures Step(r, State()) == RootFolderCall(old(State()), agaveClient.baseUrl, id, fields)
    {
      var url := agaveClient.baseUrl + RootFolderPath;
      if id.None? {
        if projectId.None? {
          return Failure(ValueError(ProjectIdRequired));
        }
      } else {
        headers := headers[ProjectIdHeader := id.value];
      }
      AddIncludeSourceFields(fields);
      r := Success(Request(url, headers));
    }

    /**
     * `file_tree`: start from the root folder (no id) or the given folder, then
     * expand the fetched record's `folders` list. The same field list goes to
     * every fetch: `sent` lists the requests of the walk, in order, and all of
     * them carry the same headers.
     */
    method FileTree(remote: Remote, ghost rank: FolderId -> nat, folderId: Option<FolderId> := None,
                    fields: seq<string> := [])
      returns (r: Result<Record, Error>, ghost sent: seq<Request>)
      requires Ranked(remote, rank)
      modifies this
      ensures accountToken == old(accountToken) && projectId == old(projectId)
      ensures folderId.Some? ==> |sent| > 0 && sent[0].url == agaveClient.baseUrl + FolderPath(folderId.value)
      ensures folderId.None? && old(projectId).Some? ==>
        |sent| > 0 && sent[0].url == agaveClient.baseUrl + RootFolderPath
      ensures |sent| > 0 ==>
        && sent[0].headers == WithSourceFields(old(headers), fields)
        && FolderFetches(sent[1..], WithSourceFields(old(headers), fields), agaveClient.baseUrl)
      ensures folderId.Some? ==>
        r == Subtree(remote, rank, folderId.value) && headers == WithSourceFields(old(headers), fields)
      ensures folderId.None? ==>
        Step(r, State()) == RootTree(remote, rank, old(State()), agaveClient.baseUrl, fields)
      decreases if folderId.None? then 1 else 0, if folderId.Some? then rank(folderId.value) else 0, 1
    {
      sent := [];
      ghost var rest: seq<Request>;
      if folderId.None? {
        var req := RootFolder(None, fields);
        if req.Failure? {
          return Failure(req.error), sent;
        }
        sent := [req.value];
        var fetched := FetchRoot(remote, req.value.headers);
        if fetched.Failure? {
          return Failure(fetched.error), sent;
        }
        r, rest := ExpandFolderList(remote, rank, fetched.value, RankAbove(Entries(fetched.value), rank), fields);
      } else {
        var req := Folder(folderId.value, fields);
        sent := [req];
        var fetched := FetchFolder(remote, folderId.value);
        if fetched.Failure? {
          return Failure(fetched.error), sent;
        }
        r, rest := ExpandFolderList(remote, rank, fetched.value, rank(folderId.value), fields);
      }
      assert sent + rest == [sent[0]] + rest && (sent + rest)[1..] == rest;
      sent := sent + rest;
    }

    /**
     * The loop of `file_tree`: for each stub of `record.get("folders", [])`, in
     * order, fetch its subtree and update the stub with it, in place.
     */
    method ExpandFolderList(remote: Remote, ghost rank: FolderId -> nat, record: Record, ghost bound: nat,
                            fields: seq<string>)
      returns (r: Result<Record, Error>, ghost sent: seq<Request>)
      requires Ranked(remote, rank) && StubsBelow(Entries(record), rank, bound)
      requires headers == WithSourceFields(headers, fields)
      modifies this
      ensures r == Expand(remote, rank, record, bound)
      ensures State() == old(State())
      ensures FolderFetches(sent, headers, agaveClient.baseUrl)
      decreases 0, bound, 0
    {
      sent := [];
      if FoldersKey !in record {
        return Success(record), sent;
      }
      var listed := record[FoldersKey];
      if !listed.Arr? {
        if listed == Str("") || listed == Obj(map[]) {
          return Success(record), sent;
        }
        return Failure(TypeError), sent;
      }
      var stubs := listed.items;
      assert Entries(record) == stubs;
      ghost var expected := Expand(remote, rank, record, bound);
      assert expected == Rebuild(record, ExpandAll(remote, rank, stubs, bound));
      var items := stubs;
      var i := 0;
      assert items[..i] == [] && stubs[i..] == stubs;
      PrependNothing(ExpandAll(remote, rank, stubs, bound));
      while i < |items|
        invariant 0 <= i <= |items| == |stubs|
        invariant items[i..] == stubs[i..]
        invariant ExpandAll(remote, rank, stubs, bound) == Prepend(items[..i], ExpandAll(remote, rank, stubs[i..], bound))
        invariant State() == old(State())
        invariant FolderFetches(sent, headers, agaveClient.baseUrl)
      {
        var stub := items[i];
        assert stub == stubs[i];
        if !stub.Obj? {
          ExpandAllFailsHere(remote, rank, stubs, bound, i, items[..i]);
          return Failure(TypeError), sent;
        }
        if IdKey !in stub.fields {
          ExpandAllFailsHere(remote, rank, stubs, bound, i, items[..i]);
          return Failure(KeyError(IdKey)), sent;
        }
        var id := StubId(stub);
        if id.None? {
          ExpandAllFailsHere(remote, rank, stubs, bound, i, items[..i]);
          return Failure(TypeError), sent;
        }
        assert stub in stubs;
        var nested;
        ghost var nestedSent;
        nested, nestedSent := FileTree(remote, rank, Some(id.value), fields);
        assert FolderFetch(nestedSent[0], agaveClient.baseUrl);
        FolderFetchesExtend(sent, nestedSent, headers, agaveClient.baseUrl);
        sent := sent + nestedSent;
        if nested.Failure? {
          ExpandAllFailsHere(remote, rank, stubs, bound, i, items[..i]);
          return Failure(nested.error), sent;
        }
        ExpandAllStepsHere(remote, rank, stubs, bound, i, items[..i], Obj(stub.fields + nested.value));
        items := items[i := Obj(stub.fields + nested.value)];
        assert items[..i + 1] == items[..i] + [Obj(stub.fields + nested.value)];
        i := i + 1;
      }
      assert items[..i] == items && stubs[i..] == [];
      assert ExpandAll(remote, rank, stubs[i..], bound) == Success([]);
      assert items + [] == items;
      r := Success(record[FoldersKey := Arr(items)]);
    }
  }
}

module FileProperties {
  import opened Wrappers
  import opened Api
  import opened Credentials
  import opened Folders
  import opened Files

  /** `root_folder()` with no argument and no stored project id raises before touching the headers. */
  lemma RootFolderNeedsProjectId(c: Context, baseUrl: string, fields: seq<string>)
    requires c.projectId.None?
    ensures RootFolderCall(c, baseUrl, None, fields) == Step(Failure(ValueError(ProjectIdRequired)), c)
  {
  }

  /**
   * An explicit project id goes into the `Project-Id` header of this and every
   * later request, but the stored project id stays as it was.
   */
  lemma RootFolderExplicitId(c: Context, baseUrl: string, id: string, fields: seq<string>)
    ensures var s := RootFolderCall(c, baseUrl, Some(id), fields);
      && s.result.Success?
      && s.result.value.url == baseUrl + RootFolderPath
      && s.result.value.headers[ProjectIdHeader] == id
      && s.after.headers == s.result.value.headers
      && s.after.projectId == c.projectId
      && s.after.accountToken == c.accountToken
  {
  }

  /**
   * With no argument but a stored project id, `root_folder` goes ahead yet sends
   * the headers as they are: the stored id does not reach the `Project-Id` header,
   * so a remote that picks the root folder by that header finds none.
   */
  lemma RootFolderStoredIdNotSent(remote: Remote, rank: FolderId -> nat, c: Context, baseUrl: string,
                                  fields: seq<string>)
    requires Ranked(remote, rank)
    requires c.projectId.Some? && ProjectIdHeader !in c.headers
    ensures var s := RootFolderCall(c, baseUrl, None, fields);
      s.result.Success? && ProjectIdHeader !in s.result.value.headers
    ensures RootTree(remote, rank, c, baseUrl, fields).result == Failure(NotFound(RootFolderPath))
  {
  }

  /** `file_tree()` starts from the root folder of the project named by the `Project-Id` header. */
  lemma RootTreeStartsAtRoot(remote: Remote, rank: FolderId -> nat, c: Context, baseUrl: string,
                             fields: seq<string>)
    requires Ranked(remote, rank)
    requires c.projectId.Some? && ProjectIdHeader in c.headers && c.headers[ProjectIdHeader] in remote.rootFolders
    ensures var root := remote.rootFolders[c.headers[ProjectIdHeader]];
      var t := RootTree(remote, rank, c, baseUrl, fields);
      && t.after == c.(headers := WithSourceFields(c.headers, fields))
      && t.result == Expand(remote, rank, root, RankAbove(Entries(root), rank))
  {
  }

  /**
   * A `FileManagement` instance never stores a project id of its own, so
   * `file_tree()` from the root raises "Project ID is required" even after
   * `root_folder(id)` has put `id` into the `Project-Id` header.
   */
  method TreeFromRootAfterExplicitId(client: AgaveClient, remote: Remote, ghost rank: FolderId -> nat, id: string)
    returns (r: Result<Record, Error>)
    requires Ranked(remote, rank)
    ensures r == Failure(ValueError(ProjectIdRequired))
  {
    var files := new FileManagement(client);
    var root := files.RootFolder(Some(id));
    assert root.Success? && root.value.headers[ProjectIdHeader] == id;
    ghost var sent;
    r, sent := files.FileTree(remote, rank);
  }
}
