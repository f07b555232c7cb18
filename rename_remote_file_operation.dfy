/**
 * RenameRemoteFileOperation: renames a remote file or folder on an ownCloud
 * server. The constructor derives the destination path from the old path and
 * the new name; `Run` validates it, short-circuits an unchanged name, checks
 * that the destination is free and issues a non-overwriting WebDAV MOVE.
 *
 * Every collaborator (the client, the path validator, the existence check)
 * is an input here; `Run` returns the result together with the calls it made
 * to them, so that "no network call" and ordering can be stated.
 */
module RenameRemoteFile {
  import opened Wrappers
  import opened JavaFile

  /** `FileUtils.PATH_SEPARATOR`. */
  const PathSeparator: string := [Separator]

  /** `HttpConstants.HTTP_CREATED` and `HttpConstants.HTTP_NO_CONTENT`. */
  const HttpCreated: int := 201
  const HttpNoContent: int := 204

  /** `RemoteOperationResult`, reduced to what this operation produces. */
  datatype RemoteOperationResult =
    | Ok                                   // ResultCode.OK
    | InvalidCharacterInName               // ResultCode.INVALID_CHARACTER_IN_NAME
    | InvalidOverwrite                     // ResultCode.INVALID_OVERWRITE
    | FromStatus(status: int)              // built from an executed HTTP method
    | FromException(exception: string)     // built from a caught exception
  {
    predicate IsSuccess() { Ok? }
  }

  /** What a collaborator call did: returned a value, or threw an exception. */
  datatype Reply<T> = Returned(value: T) | Threw(exception: string)

  /** The server version the client negotiated (`OwnCloudVersion`). */
  datatype ServerVersion = ServerVersion(isVersionWithForbiddenCharacters: bool)

  /**
   * The answers of the `OwnCloudClient` and of the network for one run:
   * the negotiated version (null when unknown), the result of the existence
   * check on the destination, the status of the MOVE, the exception raised
   * while building a result from the executed MOVE (consulted only for a
   * status other than 201 and 204), and the exception raised while
   * exhausting the MOVE's response, if any.
   */
  datatype Client = Client(
    ownCloudVersion: Option<ServerVersion>,
    existenceCheck: Reply<RemoteOperationResult>,
    moveStatus: Reply<int>,
    statusResultFailure: Option<string>,
    exhaustFailure: Option<string>)
  {
    /** The MOVE returned a status that the operation reports as success. */
    predicate MoveSucceeded() {
      moveStatus.Returned? && (moveStatus.value == HttpCreated || moveStatus.value == HttpNoContent)
    }

    /** The MOVE returned a status, and building a result from the method threw. */
    predicate StatusResultFails() {
      moveStatus.Returned? && !MoveSucceeded() && statusResultFailure.Some?
    }
  }

  /** A call made to a collaborator, in the order `Run` makes it. */
  datatype Call =
    | IsValidPath(path: string, versionWithForbiddenChars: bool)
    | ExistenceCheck(path: string, successIfAbsent: bool)
    | Move(source: string, target: string, overwrite: bool)
    | ExhaustResponse

  /** The parent string with a separator appended when it lacks one. */
  function WithTrailingSeparator(parent: string): (r: string)
    ensures EndsWithSeparator(r)
    ensures parent <= r && |r| <= |parent| + 1
    ensures EndsWithSeparator(parent) ==> r == parent
    ensures NoDoubleSeparator(parent) && parent != [] ==> NoDoubleSeparator(r)
  {
    if EndsWithSeparator(parent) then parent else parent + PathSeparator
  }

  /** The directory, ending with a separator, under which the renamed entry goes. */
  function ParentDirectory(oldRemotePath: string): (r: string)
    requires HasParent(oldRemotePath)
    ensures EndsWithSeparator(r) && NoDoubleSeparator(r)
  {
    WithTrailingSeparator(GetParent(oldRemotePath).value)
  }

  /** The destination path the constructor derives: the parent directory, the new name, and a separator for a folder. */
  function NewRemotePath(oldRemotePath: string, newName: string, isFolder: bool): string
    requires HasParent(oldRemotePath)
  {
    ParentDirectory(oldRemotePath) + EntryName(newName, isFolder)
  }

  /** The part of the destination after the parent directory. */
  function EntryName(newName: string, isFolder: bool): string {
    if isFolder then newName + PathSeparator else newName
  }

  /**
   * The destination lies under the old path's parent directory, whose
   * trailing separator is the only one at the join; it ends with a separator
   * for every folder, and for a file only when the new name is empty or
   * itself ends with one.
   */
  lemma NewRemotePathShape(oldRemotePath: string, newName: string, isFolder: bool)
    requires HasParent(oldRemotePath)
    ensures var r, dir := NewRemotePath(oldRemotePath, newName, isFolder), ParentDirectory(oldRemotePath);
      dir <= r && EndsWithSeparator(dir) && r[|dir|..] == EntryName(newName, isFolder) &&
      (isFolder ==> r == dir + newName + PathSeparator) &&
      (!isFolder ==> r == dir + newName) &&
      (EndsWithSeparator(r) <==> isFolder || newName == [] || EndsWithSeparator(newName))
  {
    var dir := ParentDirectory(oldRemotePath);
    var entry := EntryName(newName, isFolder);
    var r := dir + entry;
    assert r[|dir|..] == entry;
    if isFolder {
      assert r == dir + newName + PathSeparator;
    } else if newName == [] {
      assert r == dir;
    } else {
      assert r[|r| - 1] == newName[|newName| - 1];
    }
  }

  /**
   * The parent directory is the old path, once normalised, cut just after its
   * last separator: what is left is the old entry's own, non-empty name.
   */
  lemma ParentDirectorySplitsPath(oldRemotePath: string)
    requires HasParent(oldRemotePath)
    ensures var path, dir := Normalize(oldRemotePath), ParentDirectory(oldRemotePath);
      |dir| < |path| && path[..|dir|] == dir && Separator !in path[|dir|..]
  {
    var path := Normalize(oldRemotePath);
    var parent := GetParent(oldRemotePath).value;
    var dir := ParentDirectory(oldRemotePath);
    var index := LastIndexOf(path, Separator);
    if index < PrefixLength(path) {
      assert parent == [Separator] && index == 0;
    } else {
      assert index > 0 && parent == path[..index];
      assert path[index - 1] != Separator;
      assert dir == path[..index] + PathSeparator;
      assert path[..index + 1] == path[..index] + [path[index]];
    }
    assert |dir| == index + 1 && path[..|dir|] == dir;
    forall k | 0 <= k < |path| - |dir| ensures path[|dir|..][k] != Separator {
      assert path[|dir|..][k] == path[|dir| + k];
    }
  }

  /**
   * Renaming to a plain name (non-empty, without a separator) keeps the entry
   * in the same directory: the new path has the old path's parent, and its
   * normalised form ends with exactly the new name.
   */
  lemma RenamedEntryKeepsParent(oldRemotePath: string, newName: string, isFolder: bool)
    requires HasParent(oldRemotePath)
    requires newName != [] && Separator !in newName
    ensures Normalize(NewRemotePath(oldRemotePath, newName, isFolder)) == ParentDirectory(oldRemotePath) + newName
    ensures GetParent(NewRemotePath(oldRemotePath, newName, isFolder)) == GetParent(oldRemotePath)
  {
    var parent := GetParent(oldRemotePath).value;
    var dir := ParentDirectory(oldRemotePath);
    var r := NewRemotePath(oldRemotePath, newName, isFolder);
    NewRemotePathShape(oldRemotePath, newName, isFolder);
    NormalizeEntry(dir, newName, isFolder);
    NewParentOfEntry(parent, dir, newName);
  }

  /** An entry joined under a directory is already normal, up to the folder's trailing separator. */
  lemma NormalizeEntry(dir: string, name: string, isFolder: bool)
    requires EndsWithSeparator(dir) && NoDoubleSeparator(dir)
    requires name != [] && Separator !in name
    ensures Normalize(dir + name) == dir + name
    ensures var entry := dir + name;
      Normalize(if isFolder then entry + PathSeparator else entry) == entry
  {
    var entry := dir + name;
    NoDoubleSeparatorJoin(dir, name);
    assert |entry| > 1 && !EndsWithSeparator(entry);
    NormalizeNormalPath(entry);
    if isFolder {
      var r := entry + PathSeparator;
      CollapseRunFree(r);
      assert r[..|r| - 1] == entry;
    }
  }

  /** Joining a separator-free name under a directory, with or without a trailing separator, doubles no separator. */
  lemma NoDoubleSeparatorJoin(dir: string, name: string)
    requires EndsWithSeparator(dir) && NoDoubleSeparator(dir)
    requires name != [] && Separator !in name
    ensures NoDoubleSeparator(dir + name) && NoDoubleSeparator(dir + name + PathSeparator)
  {
    var r := dir + name + PathSeparator;
    forall i | 0 < i < |r| ensures r[i - 1] != Separator || r[i] != Separator {
      if i < |dir| {
        assert r[i - 1] == dir[i - 1] && r[i] == dir[i];
      } else if i < |dir| + |name| {
        assert r[i] == name[i - |dir|];
      } else {
        assert r[i - 1] == name[i - 1 - |dir|];
      }
    }
    NoDoubleSeparatorPrefix(r, |dir| + |name|);
    assert r[..|dir| + |name|] == dir + name;
  }

  /** The parent of `dir + name`, for a separator-free `name`, is the parent `dir` was built from. */
  lemma NewParentOfEntry(parent: string, dir: string, name: string)
    requires parent != [] && NoDoubleSeparator(parent)
    requires parent == [Separator] || !EndsWithSeparator(parent)
    requires dir == WithTrailingSeparator(parent)
    requires name != [] && Separator !in name
    requires Normalize(dir + name) == dir + name
    ensures GetParent(dir + name) == Some(parent)
  {
    var entry := dir + name;
    var index := LastIndexOf(entry, Separator);
    assert entry[|dir| - 1] == Separator;
    forall i | |dir| <= i < |entry| ensures entry[i] != Separator {
      assert entry[i] == name[i - |dir|];
    }
    assert index == |dir| - 1;
    if parent == [Separator] {
      assert dir == [Separator] && index == 0 && PrefixLength(entry) == 1;
    } else {
      assert dir == parent + PathSeparator;
      assert entry[..index] == parent;
    }
  }

  /** `targetPathIsUsed` counts the destination as used exactly when the existence check succeeded. */
  predicate TargetUsed(client: Client) {
    client.existenceCheck.Returned? && client.existenceCheck.value.IsSuccess()
  }

  /** The existence check returned a result that is not a success: the destination counts as free. */
  predicate TargetFree(client: Client) {
    client.existenceCheck.Returned? && !client.existenceCheck.value.IsSuccess()
  }

  /** The flag handed to the path validator: only a known version can enable the stricter policy. */
  function VersionWithForbiddenChars(version: Option<ServerVersion>): (flag: bool)
    ensures flag ==> version.Some?
    ensures version.Some? ==> (flag <==> version.value.isVersionWithForbiddenCharacters)
  {
    version != None && version.value.isVersionWithForbiddenCharacters
  }

  class RenameRemoteFileOperation {
    var oldName: string
    var oldRemotePath: string
    var newName: string
    var newRemotePath: string

    /** Stores the names and the old path and derives the destination path. */
    constructor (oldName: string, oldRemotePath: string, newName: string, isFolder: bool)
      requires HasParent(oldRemotePath)
      ensures this.oldName == oldName && this.oldRemotePath == oldRemotePath && this.newName == newName
      ensures newRemotePath == NewRemotePath(oldRemotePath, newName, isFolder)
    {
      this.oldName := oldName;
      this.oldRemotePath := oldRemotePath;
      this.newName := newName;
      new;
      var parent := GetParent(this.oldRemotePath).value;
      parent := if EndsWithSeparator(parent) then parent else parent + PathSeparator;
      assert parent == ParentDirectory(oldRemotePath);
      newRemotePath := parent + this.newName;
      if isFolder {
        newRemotePath := newRemotePath + PathSeparator;
      }
      assert newRemotePath == parent + EntryName(newName, isFolder);
    }

    /** Probes the destination path; an exception of the probe propagates. */
    method TargetPathIsUsed(client: Client) returns (used: Reply<bool>, call: Call)
      ensures call == ExistenceCheck(newRemotePath, false)
      ensures used.Returned? <==> client.existenceCheck.Returned?
      ensures used.Returned? ==> (used.value <==> TargetUsed(client))
      ensures used.Threw? ==> used.exception == client.existenceCheck.exception
    {
      call := ExistenceCheck(newRemotePath, false);
      match client.existenceCheck
      case Returned(existence) =>
        used := Returned(existence.IsSuccess());
      case Threw(e) =>
        used := Threw(e);
    }

    /** Performs the rename. */
    method Run(client: Client, isValidPath: (string, bool) -> bool)
      returns (result: RemoteOperationResult, calls: seq<Call>)
      // validation always comes first, with the version-dependent flag
      ensures 1 <= |calls| <= 4
      ensures calls[0] == IsValidPath(newRemotePath, VersionWithForbiddenChars(client.ownCloudVersion))
      ensures result == InvalidCharacterInName <==> !isValidPath(newRemotePath, calls[0].versionWithForbiddenChars)
      ensures result == InvalidCharacterInName ==> |calls| == 1
      // an unchanged name is a success without any network call
      ensures isValidPath(newRemotePath, calls[0].versionWithForbiddenChars) && newName == oldName ==>
                result == Ok && |calls| == 1
      // otherwise the destination is probed next
      ensures |calls| >= 2 <==> isValidPath(newRemotePath, calls[0].versionWithForbiddenChars) && newName != oldName
      ensures |calls| >= 2 ==> calls[1] == ExistenceCheck(newRemotePath, false)
      ensures |calls| >= 2 && client.existenceCheck.Threw? ==>
                result == FromException(client.existenceCheck.exception) && |calls| == 2
      ensures result == InvalidOverwrite <==> |calls| >= 2 && TargetUsed(client)
      ensures result == InvalidOverwrite ==> |calls| == 2
      // the move is issued exactly when the destination was found free
      ensures |calls| >= 3 <==> |calls| >= 2 && TargetFree(client)
      ensures |calls| >= 3 ==> calls[2] == Move(oldRemotePath, newRemotePath, false)
      ensures |calls| >= 3 && client.moveStatus.Threw? ==>
                result == FromException(client.moveStatus.exception) && |calls| == 3
      ensures |calls| >= 3 && client.StatusResultFails() ==>
                result == FromException(client.statusResultFailure.value) && |calls| == 3
      // the response is exhausted only after a move whose status became a result
      ensures |calls| == 4 <==> |calls| >= 3 && client.moveStatus.Returned? && !client.StatusResultFails()
      ensures |calls| == 4 ==> calls[3] == ExhaustResponse
      ensures |calls| == 4 && client.exhaustFailure.Some? ==> result == FromException(client.exhaustFailure.value)
      ensures |calls| == 4 && client.exhaustFailure.None? ==>
                result == if client.MoveSucceeded() then Ok else FromStatus(client.moveStatus.value)
      // a success is an unchanged name or a completed move answered with 201 or 204
      ensures result.IsSuccess() <==>
                (|calls| == 1 && result != InvalidCharacterInName) ||
                (|calls| == 4 && client.exhaustFailure.None? && client.MoveSucceeded())
    {
      var version := client.ownCloudVersion;
      var versionWithForbiddenChars := version != None && version.value.isVersionWithForbiddenCharacters;
      var noInvalidChars := isValidPath(newRemotePath, versionWithForbiddenChars);
      calls := [IsValidPath(newRemotePath, versionWithForbiddenChars)];

      if noInvalidChars {
        // the try block; each `Threw` reply is the catch clause
        if newName == oldName {
          result := Ok;
          return;
        }

        var used, probe := TargetPathIsUsed(client);
        calls := calls + [probe];
        if used.Threw? {
          result := FromException(used.exception);
          return;
        }
        if used.value {
          result := InvalidOverwrite;
          return;
        }

        calls := calls + [Move(oldRemotePath, newRemotePath, false)];
        match client.moveStatus
        case Threw(e) =>
          result := FromException(e);
        case Returned(status) =>
          if status == HttpCreated || status == HttpNoContent {
            result := Ok;
          } else if client.statusResultFailure.Some? {
            // `new RemoteOperationResult(move)` threw: the catch clause, no drain
            result := FromException(client.statusResultFailure.value);
            return;
          } else {
            result := FromStatus(status);
          }
          calls := calls + [ExhaustResponse];
          if client.exhaustFailure.Some? {
            result := FromException(client.exhaustFailure.value);
          }
      } else {
        result := InvalidCharacterInName;
      }
    }
  }
}
