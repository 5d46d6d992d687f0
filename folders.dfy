/**
 * The folder tree that `FileManagement.file_tree` assembles, as values: JSON
 * records, the remote service as a store of folder records, and the expansion
 * that replaces every stub in a `folders` list by the stub merged with its own
 * expanded subtree (`stub.update(subtree)`).
 *
 * The source has no cycle guard; here the store comes with a rank on folder ids
 * that every child's id stays below, and that rank is the termination measure.
 */
module Folders {
  import opened Wrappers
  import opened Text
  import opened Api

  type FolderId = string

  /** A JSON value as `response.json()` returns it. */
  datatype Value =
    | Null
    | Bool(b: bool)
    | Num(n: int)
    | Str(s: string)
    | Arr(items: seq<Value>)
    | Obj(fields: map<string, Value>)

  /** A JSON object: a folder record, a folder stub, a file. */
  type Record = map<string, Value>

  const FoldersKey: string := "folders"
  const FilesKey: string := "files"
  const IdKey: string := "id"

  const RootFolderPath: string := "/root-folder"

  function FolderPath(id: FolderId): string {
    "/folders/" + id
  }

  /**
   * The remote service as far as the tree walk sees it: the record served for
   * `/folders/{id}`, and the root-folder record served for each `Project-Id` header.
   */
  datatype Remote = Remote(folders: map<FolderId, Record>, rootFolders: map<string, Record>)

  /** The record `/root-folder` yields for the given headers. */
  function FetchRoot(remote: Remote, h: Headers): (r: Result<Record, Error>)
    ensures r.Success? <==> ProjectIdHeader in h && h[ProjectIdHeader] in remote.rootFolders
  {
    if ProjectIdHeader in h && h[ProjectIdHeader] in remote.rootFolders
    then Success(remote.rootFolders[h[ProjectIdHeader]])
    else Failure(NotFound(RootFolderPath))
  }

  /** The record `/folders/{id}` yields. */
  function FetchFolder(remote: Remote, id: FolderId): (r: Result<Record, Error>)
    ensures r.Success? <==> id in remote.folders
  {
    if id in remote.folders then Success(remote.folders[id]) else Failure(NotFound(FolderPath(id)))
  }

  /**
   * The folder id `file_tree(subfolder["id"])` fetches: the string itself, or an
   * integer as Python prints it. Other id values are outside the model.
   */
  function StubId(stub: Value): (r: Option<FolderId>)
    ensures r.Some? ==> stub.Obj? && IdKey in stub.fields
    ensures stub.Obj? && IdKey in stub.fields && stub.fields[IdKey].Str? ==> r == Some(stub.fields[IdKey].s)
    ensures stub.Obj? && IdKey in stub.fields && stub.fields[IdKey].Num? ==> r == Some(IntToString(stub.fields[IdKey].n))
  {
    if stub.Obj? && IdKey in stub.fields then
      match stub.fields[IdKey]
      case Str(s) => Some(s)
      case Num(n) => Some(IntToString(n))
      case _ => None
    else None
  }

  /** The stubs the walk recurses into: the `folders` list of a record, if it has one. */
  function Entries(r: Record): seq<Value> {
    if FoldersKey in r && r[FoldersKey].Arr? then r[FoldersKey].items else []
  }

  /** Every stub in `stubs` names a folder ranked below `bound`. */
  ghost predicate StubsBelow(stubs: seq<Value>, rank: FolderId -> nat, bound: nat) {
    forall v :: v in stubs && StubId(v).Some? ==> rank(StubId(v).value) < bound
  }

  /** The acyclicity the walk relies on: a folder's children are ranked below the folder. */
  ghost predicate Ranked(remote: Remote, rank: FolderId -> nat) {
    forall id :: id in remote.folders ==> StubsBelow(Entries(remote.folders[id]), rank, rank(id))
  }

  /** A rank above every child of a record that is not itself in the ranked store (the root folder). */
  ghost function RankAbove(stubs: seq<Value>, rank: FolderId -> nat): (b: nat)
    ensures StubsBelow(stubs, rank, b)
    decreases |stubs|
  {
    if |stubs| == 0 then 0
    else
      var rest := RankAbove(stubs[1..], rank);
      assert forall v :: v in stubs ==> v == stubs[0] || v in stubs[1..];
      var here := if StubId(stubs[0]).Some? then rank(StubId(stubs[0]).value) + 1 else 0;
      if here < rest then rest else here
  }

  /** `file_tree(id)`: fetch the folder, then expand its `folders` list. */
  ghost function Subtree(remote: Remote, rank: FolderId -> nat, id: FolderId): (x: Result<Record, Error>)
    requires Ranked(remote, rank)
    ensures x.Success? ==> id in remote.folders && x.value.Keys == remote.folders[id].Keys
    ensures id !in remote.folders ==> x == Failure(NotFound(FolderPath(id)))
    decreases rank(id), 2, 0
  {
    match FetchFolder(remote, id)
    case Failure(e) => Failure(e)
    case Success(r) => Expand(remote, rank, r, rank(id))
  }

  /**
   * The loop of `file_tree` over `record.get("folders", [])`. A record without the
   * key, or whose `folders` is an empty string or object, comes back as fetched;
   * any other non-list value cannot be walked (Python raises a TypeError).
   */
  ghost function Expand(remote: Remote, rank: FolderId -> nat, r: Record, bound: nat): (x: Result<Record, Error>)
    requires Ranked(remote, rank) && StubsBelow(Entries(r), rank, bound)
    ensures FoldersKey !in r ==> x == Success(r)
    ensures x.Success? ==> x.value.Keys == r.Keys
    decreases bound, 1, 0
  {
    if FoldersKey !in r then Success(r)
    else
      match r[FoldersKey]
      case Arr(stubs) =>
        (match ExpandAll(remote, rank, stubs, bound)
         case Success(xs) => Success(r[FoldersKey := Arr(xs)])
         case Failure(e) => Failure(e))
      case Str(s) => if s == "" then Success(r) else Failure(TypeError)
      case Obj(m) => if m == map[] then Success(r) else Failure(TypeError)
      case _ => Failure(TypeError)
  }

  /** The stubs in order, each expanded; the first failure aborts the walk. */
  ghost function ExpandAll(remote: Remote, rank: FolderId -> nat, stubs: seq<Value>, bound: nat)
    : (x: Result<seq<Value>, Error>)
    requires Ranked(remote, rank) && StubsBelow(stubs, rank, bound)
    ensures x.Success? ==> |x.value| == |stubs|
    decreases bound, 0, |stubs|
  {
    if |stubs| == 0 then Success([])
    else
      match ExpandStub(remote, rank, stubs[0], bound)
      case Failure(e) => Failure(e)
      case Success(v) =>
        match ExpandAll(remote, rank, stubs[1..], bound)
        case Failure(e) => Failure(e)
        case Success(vs) => Success([v] + vs)
  }

  /** One iteration: `subfolder.update(file_tree(subfolder["id"]))`. */
  ghost function ExpandStub(remote: Remote, rank: FolderId -> nat, stub: Value, bound: nat): (x: Result<Value, Error>)
    requires Ranked(remote, rank) && StubsBelow([stub], rank, bound)
    ensures x.Success? ==> && stub.Obj? && StubId(stub).Some? && x.value.Obj?
                           && stub.fields.Keys <= x.value.fields.Keys
    ensures stub.Obj? && IdKey !in stub.fields ==> x == Failure(KeyError(IdKey))
    decreases bound, 0, 0
  {
    if !stub.Obj? then Failure(TypeError)
    else if IdKey !in stub.fields then Failure(KeyError(IdKey))
    else
      match StubId(stub)
      case None => Failure(TypeError)
      case Some(id) =>
        assert stub in [stub];
        match Subtree(remote, rank, id)
        case Failure(e) => Failure(e)
        case Success(nested) => Success(Obj(stub.fields + nested))
  }
}

module FolderProperties {
  import opened Wrappers
  import opened Api
  import opened Folders

  /** A record without a `folders` key is returned exactly as fetched. */
  lemma LeafReturnedAsFetched(remote: Remote, rank: FolderId -> nat, id: FolderId)
    requires Ranked(remote, rank)
    requires id in remote.folders && FoldersKey !in remote.folders[id]
    ensures Subtree(remote, rank, id) == Success(remote.folders[id])
  {
  }

  /**
   * The expanded list keeps the length and the order of the stubs: entry `i` of
   * the result is stub `i` expanded.
   */
  lemma {:induction false} ExpandAllShape(remote: Remote, rank: FolderId -> nat, stubs: seq<Value>, bound: nat)
    requires Ranked(remote, rank) && StubsBelow(stubs, rank, bound)
    ensures var x := ExpandAll(remote, rank, stubs, bound);
      x.Success? ==>
        && |x.value| == |stubs|
        && forall i :: 0 <= i < |stubs| ==>
             StubsBelow([stubs[i]], rank, bound) && ExpandStub(remote, rank, stubs[i], bound) == Success(x.value[i])
    decreases |stubs|
  {
    if |stubs| > 0 {
      assert StubsBelow(stubs[1..], rank, bound);
      ExpandAllShape(remote, rank, stubs[1..], bound);
      var x := ExpandAll(remote, rank, stubs, bound);
      if x.Success? {
        forall i | 0 <= i < |stubs|
          ensures StubsBelow([stubs[i]], rank, bound)
                  && ExpandStub(remote, rank, stubs[i], bound) == Success(x.value[i])
        {
          assert stubs[i] in stubs;
          if i > 0 {
            assert stubs[i] == stubs[1..][i - 1];
          }
        }
      }
    }
  }

  /**
   * Fail-fast: the walk fails exactly when some stub fails, and then with the
   * error of the first stub that fails; every stub before it expanded.
   */
  lemma {:induction false} ExpandAllFailsAtFirst(remote: Remote, rank: FolderId -> nat, stubs: seq<Value>, bound: nat)
    requires Ranked(remote, rank) && StubsBelow(stubs, rank, bound)
    ensures var x := ExpandAll(remote, rank, stubs, bound);
      x.Failure? <==>
        exists i :: 0 <= i < |stubs| && StubsBelow([stubs[i]], rank, bound)
                    && ExpandStub(remote, rank, stubs[i], bound).Failure?
    ensures var x := ExpandAll(remote, rank, stubs, bound);
      x.Failure? ==>
        exists i :: 0 <= i < |stubs| && StubsBelow([stubs[i]], rank, bound)
                    && ExpandStub(remote, rank, stubs[i], bound) == Failure(x.error)
                    && (forall j :: 0 <= j < i ==>
                          StubsBelow([stubs[j]], rank, bound) && ExpandStub(remote, rank, stubs[j], bound).Success?)
    decreases |stubs|
  {
    if |stubs| > 0 {
      assert StubsBelow(stubs[1..], rank, bound);
      assert stubs[0] in stubs;
      ExpandAllFailsAtFirst(remote, rank, stubs[1..], bound);
      ExpandAllShape(remote, rank, stubs, bound);
      var x := ExpandAll(remote, rank, stubs, bound);
      var first := ExpandStub(remote, rank, stubs[0], bound);
      if first.Success? && x.Failure? {
        var k :| 0 <= k < |stubs[1..]| && StubsBelow([stubs[1..][k]], rank, bound)
                 && ExpandStub(remote, rank, stubs[1..][k], bound) == Failure(x.error)
                 && (forall j :: 0 <= j < k ==>
                       StubsBelow([stubs[1..][j]], rank, bound) && ExpandStub(remote, rank, stubs[1..][j], bound).Success?);
        assert stubs[k + 1] == stubs[1..][k];
        forall j | 0 <= j < k + 1
          ensures StubsBelow([stubs[j]], rank, bound) && ExpandStub(remote, rank, stubs[j], bound).Success?
        {
          if j > 0 { assert stubs[j] == stubs[1..][j - 1]; }
        }
      }
      if first.Success? && x.Success? {
        forall i | 0 <= i < |stubs| && StubsBelow([stubs[i]], rank, bound)
          ensures ExpandStub(remote, rank, stubs[i], bound).Success?
        {
        }
      }
    }
  }

  /**
   * `stub.update(nested)`: the merged entry has the keys of both; a key of the
   * expanded subtree wins, and a key only the stub has keeps the stub's value.
   */
  lemma StubMerge(remote: Remote, rank: FolderId -> nat, stub: Value, bound: nat)
    requires Ranked(remote, rank) && StubsBelow([stub], rank, bound)
    requires ExpandStub(remote, rank, stub, bound).Success?
    ensures stub.Obj? && StubId(stub).Some?
    ensures var nested := Subtree(remote, rank, StubId(stub).value);
      var merged := ExpandStub(remote, rank, stub, bound).value;
      && nested.Success?
      && merged.Obj?
      && merged.fields.Keys == stub.fields.Keys + nested.value.Keys
      && (forall k :: k in nested.value ==> merged.fields[k] == nested.value[k])
      && (forall k :: k in stub.fields && k !in nested.value ==> merged.fields[k] == stub.fields[k])
  {
  }

  /**
   * Expanding a record changes nothing but its `folders` value: every other key,
   * `files` among them, is the fetched one. No file is fetched separately.
   */
  lemma ExpandKeepsOtherFields(remote: Remote, rank: FolderId -> nat, r: Record, bound: nat)
    requires Ranked(remote, rank) && StubsBelow(Entries(r), rank, bound)
    ensures var x := Expand(remote, rank, r, bound);
      x.Success? ==>
        && x.value.Keys == r.Keys
        && (forall k :: k in r && k != FoldersKey ==> x.value[k] == r[k])
        && |Entries(x.value)| == |Entries(r)|
  {
    var x := Expand(remote, rank, r, bound);
    if x.Success? && FoldersKey in r && r[FoldersKey].Arr? {
      ExpandAllShape(remote, rank, r[FoldersKey].items, bound);
    }
  }

  /** The store serves each folder under its own id (or without an `id` key). */
  ghost predicate Consistent(remote: Remote) {
    forall id :: id in remote.folders && IdKey in remote.folders[id] ==>
      StubId(Obj(remote.folders[id])) == Some(id)
  }

  /** Expanding a stub does not change the folder id it names. */
  lemma ExpandStubKeepsId(remote: Remote, rank: FolderId -> nat, stub: Value, bound: nat)
    requires Ranked(remote, rank) && Consistent(remote) && StubsBelow([stub], rank, bound)
    requires ExpandStub(remote, rank, stub, bound).Success?
    ensures StubId(ExpandStub(remote, rank, stub, bound).value) == StubId(stub)
  {
    var id := StubId(stub).value;
    var r := remote.folders[id];
    ExpandKeepsOtherFields(remote, rank, r, rank(id));
  }

  /** The folder ids of an expanded list are those of its stubs, position by position. */
  lemma ExpandAllKeepsIds(remote: Remote, rank: FolderId -> nat, stubs: seq<Value>, bound: nat)
    requires Ranked(remote, rank) && Consistent(remote) && StubsBelow(stubs, rank, bound)
    ensures var x := ExpandAll(remote, rank, stubs, bound);
      x.Success? ==> |x.value| == |stubs| && forall i :: 0 <= i < |stubs| ==> StubId(x.value[i]) == StubId(stubs[i])
  {
    ExpandAllShape(remote, rank, stubs, bound);
    var x := ExpandAll(remote, rank, stubs, bound);
    if x.Success? {
      forall i | 0 <= i < |stubs| ensures StubId(x.value[i]) == StubId(stubs[i]) {
        ExpandStubKeepsId(remote, rank, stubs[i], bound);
      }
    }
  }
}
