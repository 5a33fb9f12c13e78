# Azure File Share directory and upload modules — Dafny model

This project models the decision logic of three pieces of an Ansible collection for Azure Storage File Shares:

- `right_path` normalises paths. It removes one leading `/` and one trailing `/` and derives a display path, which is `/` when the result is empty.
- `o4n_azure_manage_directory` creates or deletes a directory, either at the share root or under a parent directory. The choice depends on `state` and on whether the normalised parent path is empty. It turns the outcome of the single remote call into a (status, message, content) triple, and the status decides the module's `failed` flag.
- `o4n_azure_upload_directory` first creates the destination directory. Only if that succeeds does it run `upload_files`. That function checks that the requested share is listed exactly once and that the file selection is not empty. It then uploads the selected files one by one, in order, and stops at the first failure.

Each storage SDK call is modelled as an input `Outcome` (`Ok | Exists | NotFound | Other(error)`). Where a module issues a remote call, the model returns that call as a `RemoteCall` value, built from the normalised paths the call receives. The upload function takes a `World` record as input. It holds whether the local source directory could be listed, the share listing, the files the pattern selected, and whether each selected file was opened and uploaded successfully.

Files: `outcomes.dfy` (shared datatypes), `right_path.dfy` (module `Paths`), `manage_directory.dfy` (module `ManageDirectory`), `upload_directory.dfy` (module `UploadDirectory`).

Normalisation is not idempotent, because the code strips only one slash at each end: `"//a//"` becomes `"/a/"`, and normalising that again gives `"a"` (`Paths.NotIdempotent`). The directory-management module documents a sample content of `"/dir1/dir3"`. Its code joins the two display paths without a separator, so the content is actually `"dir1dir3"`. The model follows the code (`ManageDirectory.SubdirectoryContentExample`).

In the upload module, `main` creates the destination directory under the parent path, but `upload_files` receives the destination path alone and uploads from the share root. With parent `"/p"` and destination `"/d"`, the module creates `p/d` and uploads file `f` to `d/f` (`UploadDirectory.UploadIgnoresParent`). The module's documentation describes `dest_path` as the directory "where files should be uploaded". The model follows the code.

## Model

| member | source | states |
|---|---|---|
| Paths.DropLeadingSlash | plugins/module_utils/util_get_right_path.py:4 | exactly one leading `/` is removed when present; otherwise the string is unchanged |
| Paths.DropTrailingSlash | plugins/module_utils/util_get_right_path.py:5 | one trailing `/` is removed; a `/` just before a final newline is removed and the newline kept; otherwise unchanged |
| Paths.RightPath | plugins/module_utils/util_get_right_path.py:3-12 | total; the path is at most 2 characters shorter than the input and never longer; the display is never empty, equals the path when the path is non-empty, and is `/` exactly when the path is `""` or `"/"` |
| Paths.Infix | plugins/module_utils/util_get_right_path.py:4-5 | without a final "/\n", the normalised path is the contiguous infix of the input that starts after the optional leading slash |
| Paths.NewlineQuirk | plugins/module_utils/util_get_right_path.py:5 | for every t, `t + "/\n"` normalises to t without its leading slash, followed by "\n" |
| Paths.FixedPointIff | plugins/module_utils/util_get_right_path.py:4-5 | a string is returned unchanged if and only if it neither starts nor ends with `/` and does not end with "/\n" |
| Paths.EmptyIff | plugins/module_utils/util_get_right_path.py:4-10 | the normalised path is empty (the share root, displayed `/`) if and only if the input is `""`, `"/"` or `"//"` |
| Paths.SlashVariants | plugins/module_utils/util_get_right_path.py:4-5 | "/c/", "/c", "c/" and "c" all normalise to c whenever c has no slash at either end |
| Paths.OneSlashPerEnd | plugins/module_utils/util_get_right_path.py:4-10 | "", "/" and "//" give ("", "/"); "///" gives ("/", "/") |
| Paths.NotIdempotent | plugins/module_utils/util_get_right_path.py:4-5 | "//a//" normalises to "/a/", and normalising that again gives "a" |
| ManageDirectory.Lower | plugins/modules/o4n_azure_manage_directory.py:152 | lower-casing keeps the length, leaves no upper-case letter, and leaves every other character unchanged |
| ManageDirectory.LowerIdempotent | plugins/modules/o4n_azure_manage_directory.py:152 | lower-casing twice gives the same string as lower-casing once |
| ManageDirectory.ActionFor | plugins/modules/o4n_azure_manage_directory.py:152-158 | the action is "created" if and only if the lower-cased state is "present", and "deleted" if and only if it is "absent"; otherwise "none" |
| ManageDirectory.ActionIgnoresCase | plugins/modules/o4n_azure_manage_directory.py:178-183 | lower-casing the state first selects the same action; "PRESENT"/"Present" create and "ABSENT" deletes |
| ManageDirectory.Settle | plugins/modules/o4n_azure_manage_directory.py:152-169 | status is True exactly when no call is made or the call succeeds, and then the message names the action; already-exists gives an "already exist" failure, not-found a "does not exist" failure, and any other error an "Error managing" failure; nothing escapes |
| ManageDirectory.CreateDirectory | plugins/modules/o4n_azure_manage_directory.py:147-171 | content is the display path whatever the outcome; status and message follow the outcome mapping |
| ManageDirectory.CreateSubdirectory | plugins/modules/o4n_azure_manage_directory.py:173-196 | content is the parent's display path immediately followed by the child's, with no separator, for success and failure alike; status and message follow the outcome mapping |
| ManageDirectory.Call | plugins/modules/o4n_azure_manage_directory.py:215-221 | no call exactly when the action is "none"; otherwise the call gets the normalised path, is a top-level call if and only if the normalised parent is empty (else it gets the normalised parent), and creates if and only if the action is "created" |
| ManageDirectory.Main | plugins/modules/o4n_azure_manage_directory.py:215-226 | the module always reports; `failed` is True exactly when a call was made and did not succeed; the content is the display path at top level and the concatenated display paths otherwise |
| ManageDirectory.TopLevelParents | plugins/modules/o4n_azure_manage_directory.py:215-221 | a parent of "", "/" or "//" (and no other) selects the top-level operation |
| ManageDirectory.UnknownStateIsNoOp | plugins/modules/o4n_azure_manage_directory.py:152-160 | a state other than present/absent makes no call and reports success with action "none", whatever a call would have answered |
| ManageDirectory.SubdirectoryContentExample | plugins/modules/o4n_azure_manage_directory.py:196 | parent "/dir1" and path "/dir3" report content "dir1dir3" |
| UploadDirectory.CreateDirectory | plugins/modules/o4n_azure_upload_directory.py:123-140 | always creates; success only on a completed call; already-exists gives an "already exist" failure; not-found and any other error give the generic "Error managing" failure; content is the display path |
| UploadDirectory.CreateSubdirectory | plugins/modules/o4n_azure_upload_directory.py:142-161 | always creates; already-exists, not-found and other errors give their own failures; content is the parent's display path immediately followed by the child's |
| UploadDirectory.HelpersAgreeWithManage | plugins/modules/o4n_azure_upload_directory.py:123-161 | both helpers equal the directory-management helpers with state "present", except that a top-level not-found becomes a generic error instead of "does not exist" |
| UploadDirectory.SharesNamed | plugins/modules/o4n_azure_upload_directory.py:174 | the share names equal to the requested share; their number is the share's multiplicity in the listing |
| UploadDirectory.JoinNameInjective | plugins/modules/o4n_azure_upload_directory.py:178-184 | under the same directory prefix, distinct file names give distinct joined names |
| UploadDirectory.PlannedNamesDistinct | plugins/modules/o4n_azure_upload_directory.py:178-184 | a selection without repeated names plans pairwise distinct remote names and pairwise distinct local names, so no upload overwrites another |
| UploadDirectory.FirstFailure | plugins/modules/o4n_azure_upload_directory.py:181-185 | the index of the first failing upload: every earlier upload succeeded, and the one at the index failed unless the index is the end |
| UploadDirectory.UploadFilesSpec | plugins/modules/o4n_azure_upload_directory.py:163-198 | success if and only if the local listing and share listing succeed, the share is listed exactly once, the selection is non-empty and every upload succeeds; "Share not found" exactly when the share count is not 1; "No file to upload" exactly for an empty selection; a failed share listing gives the generic error; content is the selection once made, else []; no transfer before the checks pass |
| UploadDirectory.TransfersInOrder | plugins/modules/o4n_azure_upload_directory.py:181-185 | the attempted transfers are a prefix of the planned ones, in selection order; once the checks pass with a non-empty selection, exactly the files up to and including the first failure are attempted (all of them if none fails); all but the last attempt succeeded; a failed run names its first failing file |
| UploadDirectory.UploadFiles | plugins/modules/o4n_azure_upload_directory.py:163-198 | the loop method returns exactly the result and the ordered transfers of UploadFilesSpec |
| UploadDirectory.Main | plugins/modules/o4n_azure_upload_directory.py:225-236 | always makes one create call for the normalised destination: top-level if and only if the normalised parent is empty, otherwise under the normalised parent. Any directory failure, including an existing directory, reports failure and uploads nothing. On such a failure the content is the destination's display path (parent display + destination display under a parent). The message is "already exist", generic for other errors, and generic for not-found at top level but "do not exist" under a parent. Otherwise the upload result decides `failed`, msg and content |
| UploadDirectory.MainAsWritten | plugins/modules/o4n_azure_upload_directory.py:214-222 | with only the locals of lines 214-217 bound, reading `dest_path` at line 218 crashes the module with no directory call and no transfer, for every input |
| UploadDirectory.AsWrittenNeverUploads | plugins/modules/o4n_azure_upload_directory.py:218-231 | as written the module always crashes; binding `dest_path` first gives exactly the corrected main, which always reports and transfers the whole planned selection when the directory is created and every check and upload succeeds |
| UploadDirectory.UploadIgnoresParent | plugins/modules/o4n_azure_upload_directory.py:225-231 | parent "/p" and destination "/d" create sub-directory "p/d" but upload file "f" to "d/f" |

## Findings

| source | as written | input that shows it | evidently intended | confidence | as-written member | corrected member |
|---|---|---|---|---|---|---|
| plugins/modules/o4n_azure_upload_directory.py:218 | `right_path(dest_path)` reads the local `dest_path`, but `main` binds it only at line 222, so Python raises UnboundLocalError outside any handler | every invocation | read `dest_path` from the parameters before normalising it | high; not executed | UploadDirectory.MainAsWritten | UploadDirectory.Main |

## Left out

- Azure SDK calls are not simulated. `create_directory`, `delete_directory`, `create_subdirectory`, `delete_subdirectory` and `upload_file` are inputs (an `Outcome`, or one boolean per file). No share state is kept.
- The directory helpers call `ShareClient.from_connection_string` outside their `try` blocks, so if it raises, the exception escapes the module. The model assumes it succeeds. The same call inside `upload_files` is also assumed to succeed, since it uses the connection string the share listing has just accepted.
- `list_shares_in_service` and `select_files` come from files that are not part of this model. Their results are inputs. The status and message from `select_files` are overwritten by `upload_files` and are not modelled.
- Filesystem I/O (`os.getcwd`, `os.listdir`, `open`) is not modelled. Listing the source directory is one boolean. Opening and uploading a file are folded into one per-file boolean.
- UploadDirectory.UploadFiles, UploadDirectory.UploadFilesSpec and UploadDirectory.Main require one upload result per selected file. This is how the model pairs outcomes with files; the source has no such requirement.
- Ansible argument parsing, including the `choices` restriction on `state`, is not modelled, and neither is JSON output. `exit_json` and `fail_json` are reduced to the `failed` flag, the message kind and the content.
- Messages are modelled as kinds (`Done`, `AlreadyExists`, `DoesNotExist`, `ManageError`, `Uploaded`, `ShareNotFound`, `NoFiles`, `UploadError`), not as formatted text. Exception text appears only as the `Other(error)` payload.
- ManageDirectory.Lower folds ASCII letters only. Python's `str.lower()` folds all of Unicode, but no non-ASCII character lowers to a letter of "present" or "absent", so the action chosen is the same.
