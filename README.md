# RenameRemoteFileOperation, modelled in Dafny

This project models the rename operation of the ownCloud Android library
(`RenameRemoteFileOperation`). The operation renames a remote file or folder on
an ownCloud server:

- the constructor stores the old name, the old remote path and the new name,
  and derives the destination path: the parent of the old path (as
  `java.io.File.getParent` computes it), a separator if the parent lacks one,
  the new name, and a trailing separator for a folder;
- `run` asks the path validator about the destination, with a flag that only a
  known server version can set. An invalid path gives
  `INVALID_CHARACTER_IN_NAME`. An unchanged name gives `OK`. If the
  existence check finds the destination, the result is `INVALID_OVERWRITE`.
  Otherwise `run` sends a non-overwriting WebDAV MOVE: 201 or 204 gives `OK`,
  any other status gives a result carrying that status, and the response is
  then drained. Any exception in that block gives a result built from the
  exception.

Files:

- `wrappers.dfy`: `Option`, standing for Java's nullable references.
- `java_file.dfy` (module `JavaFile`): the JDK's Unix path handling that the
  constructor relies on: normalisation by `new File(path)` (runs of `/`
  collapsed, a trailing `/` dropped except for the root), `String.lastIndexOf`
  and `File.getParent`, with `None` for a null parent.
- `rename_remote_file_operation.dfy` (module `RenameRemoteFile`): the result
  type, the collaborators' answers, the class `RenameRemoteFileOperation` with
  its four fields, its constructor, `TargetPathIsUsed` and `Run`, and the
  lemmas about the destination path.
- `scenarios.dfy` (module `RenameScenarios`): concrete renames under `/docs`.
  They cover an unchanged name, a 201 answer, a forbidden character with and
  without a known server version, a 403 answer, a 409 answer whose result
  cannot be built, a connection failure and an existing folder, and the parent
  of paths with a trailing or a doubled separator. Each is checked against the
  contracts alone.

The collaborators are inputs. `Client` holds the server version (or none), the
existence check's result or exception, the MOVE's status or exception, the
exception thrown while building a result from the executed MOVE, and the
exception thrown while draining the response, if any. The validator
`FileUtils.isValidPath` is a function parameter that is never interpreted.
`Run` returns the result together with the sequence of calls it made. Those
calls are validation, existence check, MOVE (with its source, target and
overwrite flag) and draining. This makes "no network call", "no move" and the
order of the calls statable.

Behaviour worth noting:

- a file's destination ends with `/` when the new name is empty or itself ends
  with `/` (`NewRemotePathShape` states exactly when);
- an old path without a parent makes the constructor throw a
  `NullPointerException` at line 79; the model makes "has a parent" a
  precondition of the constructor;
- an unchanged name gives the same `OK` result as a completed rename;
- when building the result from a MOVE with a status other than 201 or 204
  throws (line 121), the catch clause builds the result from that exception
  and the response is not drained.

## Model

| member | source | states |
|---|---|---|
| `JavaFile.Collapse` | src/com/owncloud/android/lib/resources/files/RenameRemoteFileOperation.java:78 | collapsing the runs of separators (the first step of `new File`'s normalisation) leaves no doubled separator, keeps the first and last character, and never lengthens the path |
| `JavaFile.CollapseRunFree` | src/com/owncloud/android/lib/resources/files/RenameRemoteFileOperation.java:78 | a path without a run of separators is left unchanged by the collapsing step |
| `JavaFile.Normalize` | src/com/owncloud/android/lib/resources/files/RenameRemoteFileOperation.java:78 | the normalised path has no doubled separator and no trailing separator (except the root "/"), is empty only for an empty input, and starts with the input's first character |
| `JavaFile.NormalizeNormalPath` | src/com/owncloud/android/lib/resources/files/RenameRemoteFileOperation.java:78 | a path with no doubled separator and no trailing separator (or of length at most one) is kept unchanged by `new File` |
| `JavaFile.CollapseDouble` | src/com/owncloud/android/lib/resources/files/RenameRemoteFileOperation.java:78 | removing one separator of a doubled pair anywhere in a path does not change the collapsed string; together with `CollapseRunFree`, this makes the collapsed string the run-free path that such removals end at |
| `JavaFile.CollapseTrailing` | src/com/owncloud/android/lib/resources/files/RenameRemoteFileOperation.java:78 | appending a separator to a non-empty path adds one to the collapsed string exactly when that string does not already end with one |
| `JavaFile.NormalizeTrailing` | src/com/owncloud/android/lib/resources/files/RenameRemoteFileOperation.java:78 | `new File(p + "/")` keeps the same path as `new File(p)` for every non-empty p |
| `JavaFile.NormalizeDouble` | src/com/owncloud/android/lib/resources/files/RenameRemoteFileOperation.java:78 | a doubled separator anywhere in a path gives the same normalised path as a single one |
| `JavaFile.GetParentTrailing` | src/com/owncloud/android/lib/resources/files/RenameRemoteFileOperation.java:78 | a trailing separator does not change the parent: "/a/b/" has the parent of "/a/b" |
| `JavaFile.GetParentDouble` | src/com/owncloud/android/lib/resources/files/RenameRemoteFileOperation.java:78 | a doubled separator does not change the parent: "/a//b" has the parent of "/a/b" |
| `JavaFile.LastIndexOf` | src/com/owncloud/android/lib/resources/files/RenameRemoteFileOperation.java:78 | the index returned holds the character and no later index does; -1 exactly when the character does not occur |
| `JavaFile.GetParent` | src/com/owncloud/android/lib/resources/files/RenameRemoteFileOperation.java:78 | a parent exists exactly when the normalised path contains a separator and is not the root; it is non-empty, has no doubled separator, and ends with a separator only when it is the root |
| `RenameRemoteFile.WithTrailingSeparator` | src/com/owncloud/android/lib/resources/files/RenameRemoteFileOperation.java:79-80 | the result ends with a separator, extends the parent by at most one character, leaves a parent that already ends with one unchanged, and so never doubles the separator at the join |
| `RenameRemoteFile.ParentDirectory` | src/com/owncloud/android/lib/resources/files/RenameRemoteFileOperation.java:78-80 | the directory the new name is appended to ends with a separator and has no doubled separator |
| `RenameRemoteFile.ParentDirectorySplitsPath` | src/com/owncloud/android/lib/resources/files/RenameRemoteFileOperation.java:78-80 | that directory is the normalised old path cut just after its last separator; the rest, the old entry's own name, is non-empty and has no separator |
| `RenameRemoteFile.NewRemotePathShape` | src/com/owncloud/android/lib/resources/files/RenameRemoteFileOperation.java:78-84 | the new path starts with the old path's parent directory, is that directory + newName + "/" for a folder and that directory + newName for a file, and ends with a separator exactly for a folder, an empty new name or a new name ending with one |
| `RenameRemoteFile.RenamedEntryKeepsParent` | src/com/owncloud/android/lib/resources/files/RenameRemoteFileOperation.java:72-85 | for a non-empty new name without separators, the new path normalises to the parent directory + newName and has the same parent as the old path |
| `RenameRemoteFile.VersionWithForbiddenChars` | src/com/owncloud/android/lib/resources/files/RenameRemoteFileOperation.java:98-100 | the flag handed to the validator is false whenever the server version is null, and is the version's own answer otherwise |
| `RenameRemoteFile.RenameRemoteFileOperation.constructor` | src/com/owncloud/android/lib/resources/files/RenameRemoteFileOperation.java:72-85 | stores the old name, old path and new name and sets the new remote path to the derived destination |
| `RenameRemoteFile.RenameRemoteFileOperation.TargetPathIsUsed` | src/com/owncloud/android/lib/resources/files/RenameRemoteFileOperation.java:148-153 | probes the new remote path with successIfAbsent = false; the target is used exactly when the check's result is a success, so a failed check counts as free; an exception of the check propagates |
| `RenameRemoteFile.RenameRemoteFileOperation.Run` | src/com/owncloud/android/lib/resources/files/RenameRemoteFileOperation.java:93-141 | validation comes first. `INVALID_CHARACTER_IN_NAME` happens exactly when the validator rejects the path, with no further call, even for an unchanged name. An unchanged name gives OK with no network call. Otherwise the destination is probed, and a success gives `INVALID_OVERWRITE` exactly then, with no move. A MOVE from the old to the new path with overwrite false is issued exactly when the probe returned a non-success. 201/204 gives OK and any other status a result carrying it; when building that result throws, the exception gives the result and nothing is drained. Otherwise the response is drained exactly when the move returned. An exception of the probe, the move, the result building or the drain replaces the result. At most four calls are made. `Run` has no `modifies` clause, so the fields set by the constructor keep their values. |

## Left out

- The HTTP/WebDAV transport: building the URLs with `client.getWebdavUri`,
  `WebdavUtils.encodePath` and `HttpUrl.parse`, and executing the MOVE. The
  MOVE call records the two remote paths, not the encoded URLs. Each
  collaborator answers once per run with a fixed reply.
- `FileUtils.isValidPath`: its source is not part of this model; it is an
  uninterpreted function parameter of `(path, flag)`.
- `ExistenceCheckRemoteOperation`: a network probe, represented by its result
  (or the exception it threw).
- `OwnCloudVersion.isVersionWithForbiddenCharacters`: represented by a boolean
  in `ServerVersion`.
- How `RemoteOperationResult` turns an executed method or an exception into a
  result code: the model keeps the status (`FromStatus`) or the exception's
  name (`FromException`). In particular a 2xx status other than 201 or 204 is
  kept as `FromStatus`, whatever success code the library would derive for it.
  Whether building a result from the executed MOVE throws is an input
  (`Client.statusResultFailure`), not derived from the response.
- Logging with `Log_OC` (including the `result.getLogMessage()` call, taken
  never to throw) and the unused timeout constants at lines 55-56.
- Null names: strings are never null here, so the `NullPointerException` that
  `mNewName.equals` would raise for a null new name is not modelled.
- `RenameRemoteFile.RenameRemoteFileOperation.constructor`: requires the old
  path to have a parent; the source would throw at line 79 instead.
- An exception of the validator or of `client.getOwnCloudVersion()`, which
  happens outside the try block and would escape `run`, is not modelled.
- `java.io.File` is modelled with the JDK's Unix semantics; other platforms'
  path prefixes (drive letters, UNC names) are not.
- Concurrency and the time-of-check/time-of-use race between the existence
  check and the MOVE: outside a sequential model.
