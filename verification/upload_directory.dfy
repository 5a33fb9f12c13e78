/** The upload module: create the destination directory (create only), then,
    if that succeeded, check that the share exists exactly once, select local
    files and upload them one by one, stopping at the first failure. */
module UploadDirectory {
  import opened Outcomes
  import opened Paths
  import ManageDirectory

  /** `create_directory` of this module: always creates, and has no clause for
      a missing resource, so that outcome lands in the generic error. */
  function CreateDirectory(printPath: string, outcome: Outcome): (r: DirResult)
    ensures r.content == printPath
    ensures r.status <==> outcome == Ok
    ensures r.status ==> r.msg == Done(Created)
    ensures outcome == Exists ==> r.msg == AlreadyExists(Created)
    ensures outcome == NotFound || outcome.Other? ==> r.msg == ManageError(outcome)
  {
    match outcome
    case Ok => DirResult(true, Done(Created), printPath)
    case Exists => DirResult(false, AlreadyExists(Created), printPath)
    case _ => DirResult(false, ManageError(outcome), printPath)
  }

  /** `create_subdirectory` of this module: always creates; the content is the
      parent's display path directly followed by the child's. */
  function CreateSubdirectory(printPath: string, printParent: string, outcome: Outcome): (r: DirResult)
    ensures r.content == printParent + printPath
    ensures r.status <==> outcome == Ok
    ensures r.status ==> r.msg == Done(Created)
    ensures outcome == Exists ==> r.msg == AlreadyExists(Created)
    ensures outcome == NotFound ==> r.msg == DoesNotExist(Created)
    ensures outcome.Other? ==> r.msg == ManageError(outcome)
  {
    match outcome
    case Ok => DirResult(true, Done(Created), printParent + printPath)
    case Exists => DirResult(false, AlreadyExists(Created), printParent + printPath)
    case NotFound => DirResult(false, DoesNotExist(Created), printParent + printPath)
    case Other(_) => DirResult(false, ManageError(outcome), printParent + printPath)
  }

  /** The helpers of this module are those of the directory-management module
      with state "present", except that a missing resource at the top level
      becomes a generic error instead of a "does not exist" failure. */
  lemma HelpersAgreeWithManage(printPath: string, printParent: string, outcome: Outcome)
    ensures outcome != NotFound ==>
      CreateDirectory(printPath, outcome) == ManageDirectory.CreateDirectory("present", printPath, outcome)
    ensures CreateDirectory(printPath, NotFound) == DirResult(false, ManageError(NotFound), printPath)
    ensures ManageDirectory.CreateDirectory("present", printPath, NotFound) ==
      DirResult(false, DoesNotExist(Created), printPath)
    ensures CreateSubdirectory(printPath, printParent, outcome) ==
      ManageDirectory.CreateSubdirectory("present", printPath, printParent, outcome)
  {
  }

  /** What the share listing returned: its success flag and the share names. */
  datatype ShareListing = ShareListing(ok: bool, names: seq<string>)

  /** Everything `upload_files` learns from outside: whether the local source
      directory could be listed, the share listing, the files the pattern
      selected (in order), and whether opening and uploading each selected
      file succeeded (one entry per selected file, in the same order). */
  datatype World = World(localDirReadable: bool, shares: ShareListing, selection: seq<string>, uploads: seq<bool>)

  /** One file transfer: local file name read, remote file name written. */
  datatype Transfer = Transfer(local: string, remote: string)

  /** What `upload_files` returns: status, message and the selected file names. */
  datatype UploadResult = UploadResult(status: bool, msg: Message, content: seq<string>)

  /** The share names equal to the requested share, in listing order. */
  function SharesNamed(names: seq<string>, share: string): (r: seq<string>)
    ensures |r| == multiset(names)[share]
    ensures forall i :: 0 <= i < |r| ==> r[i] == share
  {
    if names == [] then []
    else
      assert names == [names[0]] + names[1..];
      (if names[0] == share then [names[0]] else []) + SharesNamed(names[1..], share)
  }

  /** A file name under a directory: `dir + "/" + name`, or `name` alone when
      the directory is empty. */
  function JoinName(dir: string, name: string): string
  {
    if dir == "" then name else dir + "/" + name
  }

  /** Distinct file names give distinct joined names under the same directory. */
  lemma JoinNameInjective(dir: string, a: string, b: string)
    requires JoinName(dir, a) == JoinName(dir, b)
    ensures a == b
  {
    if dir != "" {
      assert a == JoinName(dir, a)[|dir| + 1..];
      assert b == JoinName(dir, b)[|dir| + 1..];
    }
  }

  /** The transfers for a selection: the local name is formed from the source
      path as given, the remote name from the normalised destination. */
  function Planned(selection: seq<string>, sourcePath: string, destSub: string): (t: seq<Transfer>)
    ensures |t| == |selection|
    ensures forall i :: 0 <= i < |t| ==>
      t[i] == Transfer(JoinName(sourcePath, selection[i]), JoinName(destSub, selection[i]))
  {
    seq(|selection|, i requires 0 <= i < |selection| =>
      Transfer(JoinName(sourcePath, selection[i]), JoinName(destSub, selection[i])))
  }

  /** A selection without repeated names plans distinct remote files and reads
      distinct local files, so no upload overwrites another. */
  lemma PlannedNamesDistinct(selection: seq<string>, sourcePath: string, destSub: string)
    requires forall i, j :: 0 <= i < j < |selection| ==> selection[i] != selection[j]
    ensures var t := Planned(selection, sourcePath, destSub);
      forall i, j :: 0 <= i < j < |t| ==> t[i].remote != t[j].remote && t[i].local != t[j].local
  {
    var t := Planned(selection, sourcePath, destSub);
    forall i, j | 0 <= i < j < |t|
      ensures t[i].remote != t[j].remote && t[i].local != t[j].local
    {
      if t[i].remote == t[j].remote {
        JoinNameInjective(destSub, selection[i], selection[j]);
      }
      if t[i].local == t[j].local {
        JoinNameInjective(sourcePath, selection[i], selection[j]);
      }
    }
  }

  /** The index of the first failed upload, or the number of uploads if none fails. */
  function FirstFailure(oks: seq<bool>): (k: nat)
    ensures k <= |oks|
    ensures forall j :: 0 <= j < k ==> oks[j]
    ensures k < |oks| ==> !oks[k]
  {
    if oks == [] || !oks[0] then 0 else 1 + FirstFailure(oks[1..])
  }

  /** The checks `upload_files` makes before selecting files: the local source
      directory was listed, the share listing succeeded, and exactly one listed
      share name equals the requested share. */
  predicate ChecksPass(share: string, w: World)
  {
    w.localDirReadable && w.shares.ok && multiset(w.shares.names)[share] == 1
  }

  /** What `upload_files` does, as a function of what it learns from outside:
      its result and the transfers it attempts, in order. */
  function UploadFilesSpec(share: string, sourcePath: string, destPath: string, w: World): (res: (UploadResult, seq<Transfer>))
    requires |w.uploads| == |w.selection|
    // success needs every check to pass and every upload to succeed
    ensures res.0.status <==>
      ChecksPass(share, w) && w.selection != [] && forall j :: 0 <= j < |w.uploads| ==> w.uploads[j]
    ensures res.0.status ==> res.0.msg == Uploaded
    // exactly-one-share check
    ensures res.0.msg == ShareNotFound <==>
      w.localDirReadable && w.shares.ok && multiset(w.shares.names)[share] != 1
    // empty-selection check
    ensures res.0.msg == NoFiles <==> ChecksPass(share, w) && w.selection == []
    // a failed share listing leaves the share-match list unbound: generic error
    ensures w.localDirReadable && !w.shares.ok ==> res.0.msg == UploadError(ShareListingFailed)
    // the content is the selection once it is made, and empty before
    ensures res.0.content == if ChecksPass(share, w) then w.selection else []
    // uploads only happen once the checks pass and the selection is not empty
    ensures res.1 != [] ==> ChecksPass(share, w) && w.selection != []
  {
    var destSub := RightPath(destPath).path;
    if !w.localDirReadable then (UploadResult(false, UploadError(LocalDirUnreadable), []), [])
    else if !w.shares.ok then (UploadResult(false, UploadError(ShareListingFailed), []), [])
    else if |SharesNamed(w.shares.names, share)| != 1 then (UploadResult(false, ShareNotFound, []), [])
    else if w.selection == [] then (UploadResult(false, NoFiles, []), [])
    else
      var k := FirstFailure(w.uploads);
      var plan := Planned(w.selection, sourcePath, destSub);
      if k == |w.uploads| then (UploadResult(true, Uploaded, w.selection), plan)
      else (UploadResult(false, UploadError(TransferFailed(w.selection[k])), w.selection), plan[..k + 1])
  }

  /** The transfers follow the selection order, with the names formed from the
      source path and the normalised destination; every attempted upload but
      the last succeeded, a failed run stops right after its first failure,
      and a successful run transfers the whole selection. */
  lemma TransfersInOrder(share: string, sourcePath: string, destPath: string, w: World)
    requires |w.uploads| == |w.selection|
    ensures var (res, tried) := UploadFilesSpec(share, sourcePath, destPath, w);
      var plan := Planned(w.selection, sourcePath, RightPath(destPath).path);
      && tried <= plan
      && (forall j :: 0 <= j < |tried| - 1 ==> w.uploads[j])
      && (res.status ==> tried == plan)
      && (ChecksPass(share, w) && w.selection != [] ==>
            |tried| == if FirstFailure(w.uploads) == |w.uploads| then |w.uploads| else FirstFailure(w.uploads) + 1)
      && (!res.status && tried != [] ==>
            !w.uploads[|tried| - 1] && res.msg == UploadError(TransferFailed(w.selection[|tried| - 1])))
  {
  }

  /** `upload_files`: the checks, then one upload per selected file in order,
      aborting at the first failure. `tried` lists the transfers begun. */
  method UploadFiles(share: string, sourcePath: string, destPath: string, w: World)
    returns (r: UploadResult, tried: seq<Transfer>)
    requires |w.uploads| == |w.selection|
    ensures (r, tried) == UploadFilesSpec(share, sourcePath, destPath, w)
  {
    var destSub := RightPath(destPath).path;
    tried := [];
    if !w.localDirReadable {
      return UploadResult(false, UploadError(LocalDirUnreadable), []), tried;
    }
    if !w.shares.ok {
      return UploadResult(false, UploadError(ShareListingFailed), []), tried;
    }
    var shareExist := SharesNamed(w.shares.names, share);
    if |shareExist| != 1 {
      return UploadResult(false, ShareNotFound, []), tried;
    }
    var found := w.selection;
    if |found| == 0 {
      return UploadResult(false, NoFiles, found), tried;
    }
    ghost var plan := Planned(found, sourcePath, destSub);
    var i := 0;
    while i < |found|
      invariant 0 <= i <= |found|
      invariant tried == plan[..i]
      invariant forall j :: 0 <= j < i ==> w.uploads[j]
    {
      tried := tried + [Transfer(JoinName(sourcePath, found[i]), JoinName(destSub, found[i]))];
      assert tried == plan[..i + 1];
      if !w.uploads[i] {
        assert FirstFailure(w.uploads) == i;
        return UploadResult(false, UploadError(TransferFailed(found[i])), found), tried;
      }
      i := i + 1;
    }
    assert tried == plan;
    return UploadResult(true, Uploaded, found), tried;
  }

  /** The module's parameters that the model needs. */
  datatype Params = Params(share: string, parentPath: string, sourcePath: string, destPath: string)

  /** One run of the module: how it ends, the directory call it makes, and the
      file transfers it attempts. */
  datatype Run = Run(exit: Exit, dirCall: Option<RemoteCall>, transfers: seq<Transfer>)

  /** `main` as evidently intended (the destination read from the parameters
      before it is normalised): create the destination directory, and upload
      only if that succeeded. */
  function Main(p: Params, dirOutcome: Outcome, w: World): (run: Run)
    requires |w.uploads| == |w.selection|
    ensures run.exit.Exit?
    ensures run.dirCall.Some? && run.dirCall.value.Creates()
    ensures run.dirCall.value.dir == RightPath(p.destPath).path
    ensures run.dirCall.value.TopLevel() <==> RightPath(p.parentPath).path == ""
    ensures RightPath(p.parentPath).path != "" ==> run.dirCall.value.parent == RightPath(p.parentPath).path
    // an existing destination, or any other directory failure, means no upload
    ensures dirOutcome != Ok ==> run.exit.failed && run.transfers == []
    ensures dirOutcome != Ok ==> run.exit.content == Text(
      if RightPath(p.parentPath).path == "" then RightPath(p.destPath).display
      else RightPath(p.parentPath).display + RightPath(p.destPath).display)
    ensures dirOutcome == Exists ==> run.exit.msg == AlreadyExists(Created)
    ensures dirOutcome.Other? ==> run.exit.msg == ManageError(dirOutcome)
    ensures dirOutcome == NotFound ==>
      run.exit.msg == if RightPath(p.parentPath).path == "" then ManageError(NotFound) else DoesNotExist(Created)
    ensures dirOutcome == Ok ==>
      var (res, tried) := UploadFilesSpec(p.share, p.sourcePath, p.destPath, w);
      run.transfers == tried && run.exit == Exit(!res.status, res.msg, Names(res.content))
    ensures !run.exit.failed <==> dirOutcome == Ok && UploadFilesSpec(p.share, p.sourcePath, p.destPath, w).0.status
  {
    var (pathSub, printPath) := (RightPath(p.destPath).path, RightPath(p.destPath).display);
    var (parentSub, printParent) := (RightPath(p.parentPath).path, RightPath(p.parentPath).display);
    var call := if parentSub == "" then MakeDirectory(pathSub) else MakeSubdirectory(parentSub, pathSub);
    var d := if parentSub == ""
      then CreateDirectory(printPath, dirOutcome)
      else CreateSubdirectory(printPath, printParent, dirOutcome);
    if d.status then
      var (res, tried) := UploadFilesSpec(p.share, p.sourcePath, p.destPath, w);
      Run(Report(res.status, res.msg, Names(res.content)), Some(call), tried)
    else
      Run(Report(d.status, d.msg, Text(d.content)), Some(call), [])
  }

  /** The locals `main` has bound when it reaches line 218: lines 214-217
      bind these four, and `dest_path` is bound only at line 222. */
  const BoundAt218: set<string> := {"account_name", "share", "connection_string", "parent_path"}

  /** `main` from line 218 on, given the locals bound by then: reading
      `dest_path` while it is unbound raises UnboundLocalError, which no
      handler catches, so the run ends there with no remote call and no
      transfer; once it is bound to the parameter, the run is `Main`. */
  function MainWithLocals(bound: set<string>, p: Params, dirOutcome: Outcome, w: World): Run
    requires |w.uploads| == |w.selection|
  {
    if "dest_path" !in bound then Run(Crashed, None, []) else Main(p, dirOutcome, w)
  }

  /** `main` as written: line 218 reads `dest_path` with only the locals of
      lines 214-217 bound. */
  function MainAsWritten(p: Params, dirOutcome: Outcome, w: World): (run: Run)
    requires |w.uploads| == |w.selection|
    ensures run.exit.Crashed? && run.dirCall.None? && run.transfers == []
  {
    MainWithLocals(BoundAt218, p, dirOutcome, w)
  }

  /** The discrepancy: for every input the module as written crashes, while
      the corrected `main` always reports, and uploads every selected file
      when the directory is created and every check and upload succeeds. */
  lemma AsWrittenNeverUploads(p: Params, dirOutcome: Outcome, w: World)
    requires |w.uploads| == |w.selection|
    ensures MainAsWritten(p, dirOutcome, w).exit == Crashed
    ensures MainWithLocals(BoundAt218 + {"dest_path"}, p, dirOutcome, w) == Main(p, dirOutcome, w)
    ensures Main(p, dirOutcome, w).exit != Crashed
    ensures dirOutcome == Ok && ChecksPass(p.share, w) && (forall j :: 0 <= j < |w.uploads| ==> w.uploads[j]) ==>
      Main(p, dirOutcome, w).transfers == Planned(w.selection, p.sourcePath, RightPath(p.destPath).path)
  {
  }

  /** With a parent path the destination is created under the parent, but the
      files go to the destination path taken from the share root: parent "/p"
      and destination "/d" create "p/d" and upload "f" to "d/f". */
  lemma UploadIgnoresParent(w: World)
    requires w == World(true, ShareListing(true, ["s"]), ["f"], [true])
    ensures Main(Params("s", "/p", "", "/d"), Ok, w).dirCall == Some(MakeSubdirectory("p", "d"))
    ensures Main(Params("s", "/p", "", "/d"), Ok, w).transfers == [Transfer("f", "d/f")]
  {
    assert RightPath("/d").path == "d";
    assert multiset(w.shares.names)["s"] == 1;
    assert FirstFailure(w.uploads) == 1;
    assert JoinName("d", "f") == "d/f";
    assert Planned(w.selection, "", "d") == [Transfer("f", "d/f")];
  }
}
