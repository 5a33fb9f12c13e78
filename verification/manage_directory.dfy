/** The directory-management module: create or delete a directory at the
    share root, or a sub-directory under a parent, depending on `state`, and
    map the outcome of the one remote call to (status, message, content). */
module ManageDirectory {
  import opened Outcomes
  import opened Paths

  /** Lower-casing of one character (ASCII letters only). */
  function LowerChar(c: char): char
  {
    if 'A' <= c <= 'Z' then (c as int + 32) as char else c
  }

  /** `str.lower()` as far as the comparisons with "present" and "absent" need
      it: no upper-case letter is left, and every other character stays. */
  function Lower(s: string): (r: string)
    ensures |r| == |s|
    ensures forall i :: 0 <= i < |r| ==> !('A' <= r[i] <= 'Z')
    ensures forall i :: 0 <= i < |s| && !('A' <= s[i] <= 'Z') ==> r[i] == s[i]
  {
    seq(|s|, i requires 0 <= i < |s| => LowerChar(s[i]))
  }

  /** Lower-casing twice is lower-casing once. */
  lemma LowerIdempotent(s: string)
    ensures Lower(Lower(s)) == Lower(s)
  {
  }

  /** The action chosen from `state`, compared lower-cased. */
  function ActionFor(state: string): (a: Action)
    ensures a == Created <==> Lower(state) == "present"
    ensures a == Deleted <==> Lower(state) == "absent"
  {
    var s := Lower(state);
    if s == "present" then Created else if s == "absent" then Deleted else NoAction
  }

  /** The comparison ignores case: a lower-cased state selects the same action. */
  lemma ActionIgnoresCase(state: string)
    ensures ActionFor(Lower(state)) == ActionFor(state)
    ensures ActionFor("PRESENT") == ActionFor("Present") == ActionFor("present") == Created
    ensures ActionFor("ABSENT") == ActionFor("absent") == Deleted
  {
  }

  /** How the outcome of the remote call, or its absence, becomes a status and
      a message kind. No outcome escapes as an exception. */
  function Settle(action: Action, outcome: Outcome): (r: (bool, Message))
    ensures r.0 <==> r.1.Done?
    ensures r.0 <==> action == NoAction || outcome == Ok
    ensures r.0 ==> r.1 == Done(action)
    ensures action != NoAction && outcome == Exists ==> r.1 == AlreadyExists(action)
    ensures action != NoAction && outcome == NotFound ==> r.1 == DoesNotExist(action)
    ensures action != NoAction && outcome.Other? ==> r.1 == ManageError(outcome)
  {
    if action == NoAction then (true, Done(NoAction))
    else match outcome
      case Ok => (true, Done(action))
      case Exists => (false, AlreadyExists(action))
      case NotFound => (false, DoesNotExist(action))
      case Other(_) => (false, ManageError(outcome))
  }

  /** `create_directory`: the display path is the content whatever happens. */
  function CreateDirectory(state: string, printPath: string, outcome: Outcome): (r: DirResult)
    ensures r.content == printPath
    ensures r.status <==> ActionFor(state) == NoAction || outcome == Ok
    ensures (r.status, r.msg) == Settle(ActionFor(state), outcome)
  {
    var (status, msg) := Settle(ActionFor(state), outcome);
    DirResult(status, msg, printPath)
  }

  /** `create_subdirectory`: the content is the parent's display path directly
      followed by the child's, with no separator, whatever happens. */
  function CreateSubdirectory(state: string, printPath: string, printParent: string, outcome: Outcome): (r: DirResult)
    ensures |r.content| == |printParent| + |printPath|
    ensures r.content[..|printParent|] == printParent && r.content[|printParent|..] == printPath
    ensures r.status <==> ActionFor(state) == NoAction || outcome == Ok
    ensures (r.status, r.msg) == Settle(ActionFor(state), outcome)
  {
    var (status, msg) := Settle(ActionFor(state), outcome);
    DirResult(status, msg, printParent + printPath)
  }

  /** The remote call `main` makes, if any, with the normalised paths. */
  function Call(path: string, parentPath: string, state: string): (c: Option<RemoteCall>)
    ensures c.None? <==> ActionFor(state) == NoAction
    ensures c.Some? ==> c.value.dir == RightPath(path).path
    ensures c.Some? ==> (c.value.TopLevel() <==> RightPath(parentPath).path == "")
    ensures c.Some? && !c.value.TopLevel() ==> c.value.parent == RightPath(parentPath).path
    ensures c.Some? ==> (c.value.Creates() <==> ActionFor(state) == Created)
  {
    var dir := RightPath(path).path;
    var parent := RightPath(parentPath).path;
    match ActionFor(state)
    case NoAction => None
    case Created => Some(if parent == "" then MakeDirectory(dir) else MakeSubdirectory(parent, dir))
    case Deleted => Some(if parent == "" then RemoveDirectory(dir) else RemoveSubdirectory(parent, dir))
  }

  /** `main`: normalise both paths, dispatch on whether the normalised parent
      is empty, and report; `outcome` is what the remote call answers. */
  function Main(path: string, parentPath: string, state: string, outcome: Outcome): (e: Exit)
    ensures e.Exit?
    ensures e.failed <==> ActionFor(state) != NoAction && outcome != Ok
    ensures e.msg == Settle(ActionFor(state), outcome).1
    ensures RightPath(parentPath).path == "" ==> e.content == Text(RightPath(path).display)
    ensures RightPath(parentPath).path != "" ==>
      e.content == Text(RightPath(parentPath).display + RightPath(path).display)
  {
    var printPath := RightPath(path).display;
    var (parentSub, printParent) := (RightPath(parentPath).path, RightPath(parentPath).display);
    var r := if parentSub == ""
      then CreateDirectory(state, printPath, outcome)
      else CreateSubdirectory(state, printPath, printParent, outcome);
    Report(r.status, r.msg, Text(r.content))
  }

  /** A parent of "", "/" or "//" means a top-level operation, any other
      parent a sub-directory operation. */
  lemma TopLevelParents(path: string, parentPath: string, state: string)
    requires ActionFor(state) != NoAction
    ensures Call(path, parentPath, state).value.TopLevel() <==>
      parentPath == "" || parentPath == "/" || parentPath == "//"
  {
  }

  /** An unrecognised state makes no call, and the result does not depend on
      what a call would have answered: success with action "none". */
  lemma UnknownStateIsNoOp(path: string, parentPath: string, state: string, o1: Outcome, o2: Outcome)
    requires Lower(state) != "present" && Lower(state) != "absent"
    ensures Call(path, parentPath, state).None?
    ensures Main(path, parentPath, state, o1) == Main(path, parentPath, state, o2)
    ensures Main(path, parentPath, state, o1).msg == Done(NoAction)
    ensures !Main(path, parentPath, state, o1).failed
  {
  }

  /** The sub-directory content joins the display paths without a separator:
      parent "/dir1" and path "/dir3" report "dir1dir3". */
  lemma SubdirectoryContentExample()
    ensures Main("/dir3", "/dir1", "present", Ok) == Exit(false, Done(Created), Text("dir1dir3"))
  {
  }
}
