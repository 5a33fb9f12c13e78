/** Values shared by the modules: what a remote call can answer, which remote
    call a module issues, and the (status, message, content) results the
    modules hand back to the automation runner. */
module Outcomes {

  datatype Option<T> = None | Some(value: T)

  /** What one call into the storage SDK ended with: success, or the exception
      it raised (ResourceExistsError, ResourceNotFoundError, anything else). */
  datatype Outcome = Ok | Exists | NotFound | Other(error: string)

  /** The action a directory operation performs; the source spells these
      "created", "deleted" and "none" in its messages. */
  datatype Action = Created | Deleted | NoAction

  /** A remote operation on a share, with the normalised paths it is given. */
  datatype RemoteCall =
    | MakeDirectory(dir: string)
    | RemoveDirectory(dir: string)
    | MakeSubdirectory(parent: string, dir: string)
    | RemoveSubdirectory(parent: string, dir: string)
  {
    /** The call works on a directory directly under the share root. */
    predicate TopLevel() { MakeDirectory? || RemoveDirectory? }

    /** The call creates rather than deletes. */
    predicate Creates() { MakeDirectory? || MakeSubdirectory? }
  }

  /** Why an upload failed in the catch-all branch. */
  datatype UploadCause =
    | LocalDirUnreadable          // listing the local source directory raised
    | ShareListingFailed          // the share listing reported failure
    | TransferFailed(file: string) // opening or uploading this file raised

  /** The kind of the message a module returns; the exact text is not modelled. */
  datatype Message =
    | Done(action: Action)           // "... <created|deleted|none> ..."
    | AlreadyExists(action: Action)  // "... The Directory already exist"
    | DoesNotExist(action: Action)   // "... does not exist" / "... do not exist"
    | ManageError(cause: Outcome)    // "Error managing ..."
    | Uploaded                       // "Files uploaded to Directory ..."
    | ShareNotFound                  // "... Share <...> not found"
    | NoFiles                        // "... No file to upload"
    | UploadError(reason: UploadCause) // "File not uploaded ... Error: ..."

  /** What a directory helper returns: status, message and the display path. */
  datatype DirResult = DirResult(status: bool, msg: Message, content: string)

  /** The `content` a module reports: a path, or a list of file names. */
  datatype Content = Text(path: string) | Names(files: seq<string>)

  /** How a module invocation ends: `exit_json`/`fail_json` with a `failed`
      flag, or an exception that escapes the module. */
  datatype Exit = Exit(failed: bool, msg: Message, content: Content) | Crashed

  /** `exit_json(failed=False, ...)` on success, `fail_json(failed=True, ...)`
      otherwise, with the same message and content. */
  function Report(status: bool, msg: Message, content: Content): (e: Exit)
    ensures e.Exit? && e.msg == msg && e.content == content
    ensures e.failed != status
  {
    Exit(!status, msg, content)
  }
}
