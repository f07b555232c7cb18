/**
 * Concrete renames under the directory "/docs", checked against the
 * contracts of `RenameRemoteFile` alone.
 */
module RenameScenarios {
  import opened Wrappers
  import opened JavaFile
  import opened RenameRemoteFile

  /** Accepts every path, whatever the policy. */
  function AcceptAll(path: string, withForbiddenChars: bool): bool { true }

  /** Rejects a path holding '?' under the stricter policy only. */
  function RejectQuestionMark(path: string, withForbiddenChars: bool): bool {
    !(withForbiddenChars && '?' in path)
  }

  /** An entry directly under "/docs" has the parent "/docs". */
  lemma DocsParent(name: string)
    requires name != [] && Separator !in name
    ensures GetParent("/docs/" + name) == Some("/docs")
    ensures ParentDirectory("/docs/" + name) == "/docs/"
  {
    NormalizeEntry("/docs/", name, false);
    NewParentOfEntry("/docs", "/docs/", name);
  }

  /** A trailing separator leaves the parent "/docs" unchanged. */
  lemma DocsParentTrailing(name: string)
    requires name != [] && Separator !in name
    ensures GetParent("/docs/" + name + "/") == Some("/docs")
  {
    DocsParent(name);
    var p := "/docs/" + name;
    GetParentTrailing(p);
    assert p + [Separator] == "/docs/" + name + "/";
  }

  /** A doubled separator leaves the parent "/docs" unchanged. */
  lemma DocsParentDoubled(name: string)
    requires name != [] && Separator !in name
    ensures GetParent("/docs//" + name) == Some("/docs")
  {
    DocsParent(name);
    var dir := "/docs";
    GetParentDouble(dir, name);
    assert "/docs//" + name == dir + [Separator, Separator] + name;
    assert "/docs/" + name == dir + [Separator] + name;
  }

  /** A server that knows its version, finds no destination and answers the MOVE with 201. */
  function Created(): Client {
    Client(Some(ServerVersion(true)), Returned(FromStatus(404)), Returned(HttpCreated), None, None)
  }

  /** An unchanged name: success, and no network call. */
  method UnchangedNameScenario() {
    DocsParent("report.txt");
    var same := new RenameRemoteFileOperation("report.txt", "/docs/" + "report.txt", "report.txt", false);
    var r, calls := same.Run(Created(), AcceptAll);
    assert AcceptAll(same.newRemotePath, true);
    assert r == Ok && |calls| == 1;
  }

  /** A file goes to "/docs/" + its new name; a folder gets a trailing separator as well. */
  method DestinationScenario() {
    DocsParent("report.txt");
    var file := new RenameRemoteFileOperation("report.txt", "/docs/" + "report.txt", "report final.txt", false);
    assert file.newRemotePath == "/docs/" + "report final.txt";
    var folder := new RenameRemoteFileOperation("report.txt", "/docs/" + "report.txt", "archive", true);
    assert folder.newRemotePath == "/docs/" + "archive" + "/";
  }

  /** A free destination and a 201 answer: one probe, one move, one drain. */
  method RenameFileScenario() {
    DocsParent("report.txt");
    var path := "/docs/" + "report.txt";
    var op := new RenameRemoteFileOperation("report.txt", path, "report final.txt", false);
    assert AcceptAll(op.newRemotePath, true) && |"report final.txt"| != |"report.txt"|;
    var client := Created();
    assert TargetFree(client) && VersionWithForbiddenChars(client.ownCloudVersion);
    var r, calls := op.Run(client, AcceptAll);
    assert |calls| == 4;
    assert r == Ok;
    assert calls[0] == IsValidPath(op.newRemotePath, true);
    assert calls[1] == ExistenceCheck(op.newRemotePath, false);
    assert calls[2] == Move(path, op.newRemotePath, false);
    assert calls[3] == ExhaustResponse;
  }

  /** A rename to "report?.txt", whose destination holds the character '?'. */
  method QuestionMarkRename() returns (odd: RenameRemoteFileOperation)
    ensures odd.oldName == "report.txt" && odd.newName == "report?.txt"
    ensures !RejectQuestionMark(odd.newRemotePath, true) && RejectQuestionMark(odd.newRemotePath, false)
  {
    DocsParent("report.txt");
    odd := new RenameRemoteFileOperation("report.txt", "/docs/" + "report.txt", "report?.txt", false);
    var dir: string := "/docs/";
    assert odd.newRemotePath == dir + "report?.txt";
    assert odd.newRemotePath[|dir| + 6] == '?';
  }

  /** A forbidden character is rejected, with no network call, when the server enforces the policy. */
  method ForbiddenCharacterScenario() {
    var odd := QuestionMarkRename();
    var client := Created();
    assert VersionWithForbiddenChars(client.ownCloudVersion);
    var r, calls := odd.Run(client, RejectQuestionMark);
    assert r == InvalidCharacterInName && |calls| == 1;
  }

  /** The same name passes validation when the server version is unknown. */
  method UnknownVersionScenario() {
    var odd := QuestionMarkRename();
    var client := Created().(ownCloudVersion := None);
    assert TargetFree(client) && !VersionWithForbiddenChars(client.ownCloudVersion);
    assert |"report?.txt"| != |"report.txt"|;
    var r, calls := odd.Run(client, RejectQuestionMark);
    assert |calls| == 4;
    assert r == Ok;
  }

  /** A 403 answer is reported with its status after the response is drained. */
  method ForbiddenMoveScenario() {
    DocsParent("report.txt");
    var op := new RenameRemoteFileOperation("report.txt", "/docs/" + "report.txt", "report final.txt", false);
    assert AcceptAll(op.newRemotePath, true) && |"report final.txt"| != |"report.txt"|;
    var client := Created().(moveStatus := Returned(403));
    assert TargetFree(client);
    var r, calls := op.Run(client, AcceptAll);
    assert |calls| == 4;
    assert r == FromStatus(403) && calls[3] == ExhaustResponse;
  }

  /** A 409 answer whose result cannot be built: an exception result, and no drain. */
  method StatusResultFailureScenario() {
    DocsParent("report.txt");
    var op := new RenameRemoteFileOperation("report.txt", "/docs/" + "report.txt", "report final.txt", false);
    assert AcceptAll(op.newRemotePath, true) && |"report final.txt"| != |"report.txt"|;
    var client := Created().(moveStatus := Returned(409), statusResultFailure := Some("IOException"));
    assert client.moveStatus == Returned(409) && !client.MoveSucceeded();
    assert TargetFree(client) && client.StatusResultFails();
    var r, calls := op.Run(client, AcceptAll);
    assert r == FromException("IOException") && |calls| == 3;
  }

  /** A connection failure during the move: an exception result, and no drain. */
  method ConnectionFailureScenario() {
    DocsParent("report.txt");
    var op := new RenameRemoteFileOperation("report.txt", "/docs/" + "report.txt", "report final.txt", false);
    assert AcceptAll(op.newRemotePath, true) && |"report final.txt"| != |"report.txt"|;
    var client := Created().(moveStatus := Threw("ConnectException"));
    assert TargetFree(client);
    var r, calls := op.Run(client, AcceptAll);
    assert r == FromException("ConnectException") && |calls| == 3;
  }

  /** An existing destination stops the rename of a folder before the move. */
  method ExistingFolderScenario() {
    DocsParent("report.txt");
    var folder := new RenameRemoteFileOperation("report.txt", "/docs/" + "report.txt", "archive", true);
    var used := Client(None, Returned(Ok), Returned(HttpCreated), None, None);
    assert TargetUsed(used) && |"archive"| != |"report.txt"|;
    var r, calls := folder.Run(used, AcceptAll);
    assert AcceptAll(folder.newRemotePath, false);
    assert r == InvalidOverwrite && |calls| == 2;
  }
}
