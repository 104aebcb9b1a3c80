# Notebook backend: request-handling logic

A Dafny model of the decision logic in `backend/main.py`, the FastAPI backend of a
web notebook. The backend stores `.ipynb` notebooks and uploaded files, and it runs
cells in throw-away Docker containers behind a websocket. The model covers:

- **Filename validation** (`SafePaths`). `get_safe_path` and `get_safe_workspace_path`
  are modelled over a lexical model of `pathlib`. A path is the list of its components
  below `/`. `dir / name` splits the name on `/` and drops `""` and `"."` pieces.
  `resolve()` also pops a component for each `..`. `dir in p.parents` means that
  `dir` is a proper prefix of `p`.
- **Renaming a notebook** (`Notebooks`). `rename_notebook` is modelled as a decision
  function over an abstract set of paths that exist on disk. A `NotebookStore` class
  holds that set, and its `Rename` method updates it in place.
- **The wire format** (`Protocol`). It covers the JSON values a client sends, the
  `{type, content}` messages the server returns, and what `data.get("code")` makes
  of a frame.
- **Preparing and reporting one run** (`Sandbox`):
  - normalising `HOST_WORKSPACE_PATH` for Docker, and the volume spec;
  - choosing between `python -c` and `/bin/sh -c`;
  - the container request;
  - composing the result message from the stripped logs or the exception raised.
- **The `/v1/execute` handler** (`Session`). It is modelled as a trace of effects:
  accept, send, close, run a container and remove it.
  - The inputs are the token verifier's answer, whether the Docker client connected
    at start-up, the host workspace setting, and the incoming frames. Each frame is
    paired with what Docker does if its code is run.
  - `SessionTrace` is the specification. The imperative `Serve` method (with
    `ServeFrames`, `HandleFrame`, `RunCode`, `BuildMounts` and `Report`) follows the
    handler's statements and is proved equal to it.
- **The Python string operations the handler uses** (`Text`): `strip()` with Python's
  whitespace set, `startswith`, `endswith`, `".." in s`, `replace` and `split`.

## Scope

What `websocket_execute` does, and so what the model does:

- It keeps no state from one code frame to the next. There is no registry of
  sessions or containers, and no way to stop or restart a run.
- Output is sent once, when the run is over, not while it runs.
- Each code frame leads to one `containers.run` call.
- When that call returns a container object, the handler waits on it, reads its
  logs and force-removes it in `finally`. When the call raises, `container` stays
  `None`, and nothing is waited on or removed.
- The exit code that `wait()` returns is ignored.
- A command is classified by the first character of the stripped code (`!` means
  shell), not line by line.
- An incoming frame is an object with a `code` field. A frame without `code`, or
  with `code` set to `null`, is skipped, not rejected.

Some facts were proved about the code as written:

- With lexical resolution, that is with no symbolic links under the two
  directories (see "## Left out"), `get_safe_path` never answers 403. A name that
  passes its first guard and holds no NUL character always resolves to a direct
  child of the notebook directory (`SafePaths.NotebookPathCases`). On a real file system a symbolic link
  under `NOTEBOOK_DIR` that points outside it makes `resolve()` leave the
  directory. That is the case the 403 check guards against.
- With lexical resolution, `get_safe_workspace_path` answers 403 only for `""` and
  `"."`. A symbolic link under `WORKSPACE_DIR` that points outside it would also
  draw a 403 in the code.
- A name ending in `.` (say `a.`) without a NUL is accepted and stored as `a..ipynb`. That is a
  name the validator refuses when it is asked for directly
  (`SafePaths.TrailingDotName`).

The model rests on two assumptions. The first concerns names holding a
NUL character (U+0000). Such a name passes the traversal guard, and `resolve()` then
raises `ValueError` ("embedded null byte"), because CPython's `realpath` ignores only
`OSError`. Neither validator catches it, so the request ends with the framework's
500 "Internal Server Error". The model takes this as given: `SafePaths.ResolveRaises`
is defined as "the name holds a NUL", for both validators and for either name of a
rename.

The second concerns the rename body (`backend/main.py:101-105`). The
comment on `new_filename` says the name should not be empty. But `min_length` sits
in the nested `Config` class of `RenameRequest`, where no field constraint reads it. So the model takes
`new_filename` to be any string. An empty name passes validation and becomes
`.ipynb`.

## Model

| member | source | states |
|---|---|---|
| Text.Strip | backend/main.py:449 | `code.strip()`: the result has no whitespace at either end and is no longer than its input |
| Text.TrimStartSpec | backend/main.py:449 | the left-trim of a text is a suffix of it, does not start with whitespace, and what it removed is all whitespace |
| Text.TrimEndSpec | backend/main.py:449 | the right-trim of a text is a prefix of it, does not end with whitespace, and what it removed is all whitespace |
| Text.StripPadded | backend/main.py:449 | stripping whitespace-only padding off a text with no whitespace at its ends gives back exactly that text |
| Text.StripSplit | backend/main.py:449 | every text is its stripped form with whitespace-only text before and after it |
| Text.StripIgnoresPadding | backend/main.py:449 | adding whitespace around a text never changes what it strips to |
| Text.StripIdempotent | backend/main.py:449 | stripping the already stripped code again changes nothing |
| Text.ReplaceCharSpec | backend/main.py:439 | `replace("\\", "/")` keeps the length and changes exactly the occurrences of the replaced character |
| Text.Split | backend/main.py:127 | splitting yields at least one piece, none containing the separator, and a text without the separator is its only piece |
| Text.SplitJoin | backend/main.py:127 | joining the pieces of a split with the separator gives back the text: nothing is lost or reordered |
| Text.IndexOf | backend/main.py:127 | the index found holds the separator and none occurs before it |
| Text.ReplaceChar | backend/main.py:439 | `str.replace` of one character by another, defined character by character; its meaning (same length, each character mapped, so no `from` left when `to` differs from it) is pinned by `Text.ReplaceCharSpec` |
| SafePaths.Components | backend/main.py:127 | the components `pathlib` parses out of a name are never `""` or `"."` |
| SafePaths.DropSingle | backend/main.py:127 | one piece is kept exactly when it is neither `""` nor `"."` |
| SafePaths.DropAppend | backend/main.py:127 | dropping distributes over concatenation, so every other piece is kept, in order |
| SafePaths.HasTraversal | backend/main.py:116 | the guard of both validators (also line 143): the name contains `..`, `/` or `\`; refusal on it is stated by `SafePaths.TraversalRejected` |
| SafePaths.WithNotebookSuffix | backend/main.py:123-124 | `.ipynb` appended unless the name already ends with it; pinned by `SafePaths.NotebookSuffixProperties` |
| SafePaths.Join | backend/main.py:127 | `dir / name` (also line 148): an absolute name replaces the directory, otherwise the name's components follow it; for guarded names pinned by `SafePaths.GuardedJoin` |
| SafePaths.Normalize | backend/main.py:127 | the lexical core of `resolve()`: components are pushed and `..` pops one (never past `/`); pinned on plain paths by `SafePaths.NormalizePlain` |
| SafePaths.Resolve | backend/main.py:127 | `resolve()` (also lines 130, 148, 150) as `Normalize` from the root; the base directories are their own resolved forms by `SafePaths.BaseDirsResolved` |
| SafePaths.IsAncestor | backend/main.py:130 | `dir in p.parents` (also line 150): `dir` is a proper prefix of `p`; both validators' results satisfy it by their own `ensures` |
| SafePaths.ResolveRaises | backend/main.py:127 | `resolve()` raises `ValueError` on a NUL character (also line 148); its effect (500) is stated by `SafePaths.NotebookPathCases` and `SafePaths.WorkspacePathCases` |
| SafePaths.SuffixKeepsNul | backend/main.py:123-127 | appending `.ipynb` neither adds nor removes a NUL, so the suffixed name raises in `resolve()` exactly when the given one does |
| SafePaths.SafeNotebookPath | backend/main.py:111-135 | `get_safe_path`: every path accepted lies strictly below the resolved notebook directory |
| SafePaths.SafeWorkspacePath | backend/main.py:138-155 | `get_safe_workspace_path`: every path accepted lies strictly below the resolved workspace directory |
| SafePaths.NormalizePlain | backend/main.py:127 | `resolve()` leaves paths made only of plain components unchanged |
| SafePaths.BaseDirsResolved | backend/main.py:34-36 | `/app/Arquivos/Notebooks` and `/app/Arquivos/Uploads` are their own resolved forms |
| SafePaths.SingleComponent | backend/main.py:116 | a name without `/` is one component, or none for `""` and `"."` |
| SafePaths.GuardedNotParent | backend/main.py:116 | a name passing the traversal guard is never `..` |
| SafePaths.GuardedJoin | backend/main.py:148 | joining a guarded name onto a plain directory and resolving gives the directory itself (for `""`, `"."`) or its child with exactly that name |
| SafePaths.TraversalRejected | backend/main.py:116-120 | any name with `..`, `/` or `\` is refused with 400 "Nome de arquivo inválido." by `get_safe_path` and `get_safe_workspace_path` (lines 143-146) |
| SafePaths.NotebookSuffixProperties | backend/main.py:123-124 | `.ipynb` is appended exactly when the name does not end with it, the result always ends with it, and appending is idempotent |
| SafePaths.SuffixedIsPlain | backend/main.py:123-127 | a guarded name with the suffix added is a single plain component |
| SafePaths.NotebookPathCases | backend/main.py:111-135 | `get_safe_path` succeeds iff the name has no traversal character and no NUL, the result is then `NOTEBOOK_DIR/<name>.ipynb`; it answers 400 exactly for traversal characters, 500 for a guarded name with a NUL, and under lexical resolution (no symbolic links) never 403, so the 403 branch is only reached through a link |
| SafePaths.NotebookPathEndsWithSuffix | backend/main.py:123-135 | every accepted notebook path is a direct child of the notebook directory whose name ends with `.ipynb` |
| SafePaths.WorkspacePathCases | backend/main.py:138-155 | `get_safe_workspace_path` succeeds iff the name is guarded, holds no NUL and is not `""` or `"."`, the result is then `WORKSPACE_DIR/<name>`; a guarded name with a NUL gives 500, and under lexical resolution (no symbolic links) 403 is answered exactly for `""` and `"."` |
| SafePaths.WorkspacePathInjective | backend/main.py:148-155 | distinct accepted workspace names address distinct files |
| SafePaths.NotebookAlias | backend/main.py:123-127 | `x` and `x.ipynb` address the same notebook when both are valid names |
| SafePaths.TrailingDotName | backend/main.py:116-127 | a guarded name ending in `.` is accepted iff it holds no NUL, and the file it then addresses is named `<stem>..ipynb`, which is refused with 400 when asked for directly |
| Notebooks.RenameOutcome | backend/main.py:163-184 | the handler's outcome over the set of existing paths: old name validated, then new name, then 404, 409, 500 on an OS failure, else the renamed set; pinned by `Notebooks.RenameValidatesFirst`, `Notebooks.RenameDecisionOrder` and `Notebooks.RenameMovesOnePath` |
| Notebooks.RenameValidatesFirst | backend/main.py:163-164 | a bad old or new name is refused with 400 whatever exists on disk, except that a guarded old name with a NUL fails first with 500 |
| Notebooks.RenameDecisionOrder | backend/main.py:163-184 | with two guarded names: 500 when either holds a NUL; otherwise 404 when the old notebook is missing (whether or not the new one exists), else 409 when the new one exists, else 500 when the OS rename fails, and success in exactly the remaining case |
| Notebooks.RenameMovesOnePath | backend/main.py:177-179 | a successful rename removes the old path, adds the new distinct one, keeps every other path, and keeps the number of notebooks |
| Notebooks.RenameOntoAlias | backend/main.py:163-175 | renaming an existing `x` to `x.ipynb` (both accepted names) is a rename onto itself and is refused with 409 |
| Notebooks.NotebookStore.constructor | backend/main.py:166-171 | the store holds the notebook directory's contents when the request arrives: the set that `exists()` consults at lines 166 and 171 |
| Notebooks.NotebookStore.Rename | backend/main.py:158-184 | the handler's steps in order: the reply is the decision function's, the store is unchanged on every error, and on success it holds exactly the renamed set |
| Protocol.ToJson | backend/main.py:486-488 | a server message is an object with exactly the keys `type` and `content` |
| Protocol.MessageRoundTrip | backend/main.py:486-512 | every server message reads back as itself: the `stdout`, `stderr` and `filesystem_update` tags are distinct |
| Protocol.CodeOf | backend/main.py:424-427 | `data.get("code")`: text exactly when the frame is an object whose `code` is a string (and then that string); skipped exactly when `code` is absent or `null` |
| Sandbox.NormaliseHostPath | backend/main.py:439-442 | every `\` replaced by `/`, then a leading `C:` replaced by `/c`, by cases; its meaning is pinned by `Sandbox.NormaliseHostPathSpec` |
| Sandbox.NormaliseHostPathSpec | backend/main.py:439-442 | normalisation keeps the length, leaves no `\`, maps every later character by `\`→`/`, turns a leading `C:` into `/c`, and otherwise maps every character by `\`→`/` |
| Sandbox.NormaliseIdempotent | backend/main.py:439-442 | normalising twice is normalising once |
| Sandbox.NormaliseFixpoints | backend/main.py:439-442 | the host paths left unchanged are exactly those with no `\` that do not start with `C:` |
| Sandbox.MountsSpec | backend/main.py:433-445 | with a host workspace: exactly one volume, the normalised path with no `\`, bound `rw` at `/data`, working directory `/data/Uploads`; without one: no volume and `/` |
| Sandbox.Command | backend/main.py:448-458 | the argv has three entries with `-c` second, starts with `/bin/sh` exactly for shell code and `python` otherwise, and its payload has no whitespace at either end |
| Sandbox.CommandIgnoresPadding | backend/main.py:449 | whitespace around the submitted code never changes the argv |
| Sandbox.ShellCommandPayload | backend/main.py:451-455 | `!<ws><cmd>` runs exactly `["/bin/sh", "-c", cmd]` for a stripped `cmd`, whatever whitespace follows the `!` |
| Sandbox.PythonCommandVerbatim | backend/main.py:456-458 | stripped code not starting with `!` runs verbatim as `["python", "-c", code]` |
| Sandbox.FirstCharacterDecides | backend/main.py:449-451 | for code starting with a non-blank character, that character alone decides shell (`!`) or Python, whatever follows |
| Sandbox.ContainerRequest | backend/main.py:462-470 | the `containers.run` arguments: image, command, detach, memory and CPU limits, volumes and working directory; pinned by `Session.ContainerRequestStandard`, `Sandbox.Command` and `Sandbox.MountsSpec` |
| Sandbox.Compose | backend/main.py:479-488 | the message is `stderr` exactly when the stripped stderr is non-empty, and is never a filesystem update |
| Sandbox.ComposeContent | backend/main.py:479-488 | without stderr the content is stdout; with stderr it ends with stderr, is stderr alone when stdout is empty, and otherwise starts with the "[Saída antes do erro]" header and carries stdout right after it |
| Sandbox.ComposeLayout | backend/main.py:485 | with both streams non-empty the content is exactly `[Saída antes do erro]:\n{stdout}\n\n[Erro]:\n{stderr}` |
| Sandbox.OutcomeKinds | backend/main.py:476-494 | a run reports `stdout` exactly when the container finished with empty stripped stderr (and then carries the stripped stdout); an unexpected failure carries the "Erro inesperado no orquestrador: " prefix |
| Session.Channel | backend/main.py:403-518 | the filtered trace holds only accept, send and close effects |
| Session.BuildMounts | backend/main.py:433-445 | the volumes dict and working directory built step by step equal the mount specification |
| Session.Report | backend/main.py:460-494 | the `output` the `try` block and its `except` clauses assign is the run's outcome message |
| Session.RunCode | backend/main.py:429-512 | one run of a code frame yields exactly the run specification's effects |
| Session.HandleFrame | backend/main.py:424-512 | one loop iteration yields exactly the step specification's effects and decision to leave |
| Session.ServeFrames | backend/main.py:422-518 | the `while True` loop appends exactly the loop trace of the frames to what was already done |
| Session.Serve | backend/main.py:400-518 | the whole handler produces exactly the session trace |
| Session.ChannelAppend | backend/main.py:504-512 | what the peer sees of two consecutive stretches is what it sees of each, in order |
| Session.AppendShape | backend/main.py:422-518 | a stretch without a close followed by one whose close is last has its close last, and keeps requests standard |
| Session.RunShape | backend/main.py:460-512 | one run never accepts, closes only as its last effect and only when it leaves the loop, and requests only its own container |
| Session.ContainerRequestStandard | backend/main.py:462-470 | every request uses `python:3.11-slim`, detached, `256m`, 512 CPU shares, a three-entry command and the host's mounts |
| Session.StepShape | backend/main.py:424-512 | one iteration never accepts, closes only last and only when leaving, and requests only standard containers |
| Session.LoopShape | backend/main.py:422-518 | over the whole loop: no accept, a close only as the last effect, every container request standard |
| Session.AbsentCodeIgnored | backend/main.py:425-427 | a frame whose `code` is absent or `null` has no effect and keeps the loop going |
| Session.RunRemoval | backend/main.py:495-501 | the container is requested first; a container that was created is removed exactly once, right after the run; only a failed removal leaves the loop |
| Session.RunChannel | backend/main.py:504-518 | the peer receives the result and then the filesystem hint, or only the 1011 close when the removal raised |
| Session.ChannelOfMessages | backend/main.py:504-512 | a stretch of channel effects is seen by the peer as it is |
| Session.CodeFrameEffects | backend/main.py:429-512 | a frame with a `code` string requests exactly one container from that code and the host's mounts, removes a created container exactly once right after, then sends result and hint, or only the 1011 close if removal raised |
| Session.MalformedFrameCloses | backend/main.py:514-518 | a frame that is not JSON, not an object, or whose `code` is not a string ends the session with close 1011 |
| Session.KeepsOpenCases | backend/main.py:422-518 | the loop continues exactly after skipped frames and after runs whose clean-up did not raise |
| Session.OpenStepChannel | backend/main.py:504-512 | an iteration that keeps the session open shows the peer exactly the reference replies for its frame |
| Session.LoopReplies | backend/main.py:425-427 | while every frame keeps the session open, the peer receives exactly, in order, result then filesystem hint for each frame with code and nothing for others: twice as many messages as code frames (lines 504-512) |
| Session.StopStepChannel | backend/main.py:514-518 | the frame that ends the loop shows the peer nothing when the peer disconnected, and only the 1011 close otherwise |
| Session.LoopRepliesUntilStop | backend/main.py:422-518 | when frame `j` is the first to leave the loop, the peer sees exactly the reference replies of the frames before `j`, then what frame `j` produces, and nothing of later frames |
| Session.DisconnectReplies | backend/main.py:504-514 | a session that ends with a disconnect showed the peer, in order, the result and the filesystem hint of each earlier frame with code, and nothing else: twice as many messages as those frames |
| Session.AcceptOnlyAfterAuthentication | backend/main.py:400-406 | a failed token check gives only close 1008; otherwise the connection is accepted first and exactly once |
| Session.PreludeOutcomes | backend/main.py:406-422 | without Docker: accept, one `stderr` message, normal close; without a host workspace: accept, one `stderr` warning, then the loop; otherwise accept, then the loop |
| Session.CloseIsFinal | backend/main.py:400-518 | in every session a close, if any, is the last effect: nothing is sent or run after it |

## Left out

- The Docker SDK calls (`containers.run`, `wait(timeout=10)`, `logs`, `remove`, the
  image pull at start-up) are foreign calls. Their results are the abstract input
  `Exec`. The 10-second timeout shows up only as a failure of `wait`, the
  `WaitFailed` outcome.
- The exit code that `wait()` returns is not read by the handler, so it is not modelled.
- Byte decoding of the logs, `decode('utf-8')`, is not modelled. Logs are given as text.
  A decoding error counts as a `WaitFailed` outcome.
- `e.stderr` of a `ContainerError` is taken to be bytes. The case where it is `None`,
  so that decoding it raises inside the `except` clause, is not modelled.
- The text of an exception, `f"{e}"`, is an abstract string.
- The reason text of the 1011 close is not modelled, because it is the text of
  whatever exception the transport raised. The model keeps only the close code.
- Failures of `send_json` or `accept` are not modelled. They are transport failures.
- The `print` calls in the handler's `except` clauses are not modelled, because they
  are logging.
- The websocket and HTTP transport are not modelled: FastAPI routing, CORS and the
  pydantic request models.
- `backend/auth.py` is not part of this model. It holds the JWT encoding, the bcrypt
  check and the clock. The token verifier is an input: a user, or `None` when it raises.
- The global `docker_client` set up at start-up is an input flag, `dockerReady`.
- File I/O is not modelled. This covers the endpoints that read, write, delete,
  download and upload notebooks and files, including `list_notebooks` and
  `list_files_in_workspace`. Only the check order of `rename_notebook` is kept, over
  an abstract set of existing paths.
- `size_kb` is not modelled, because it is floating point.
- `Path.resolve()` is lexical only. Symbolic links are not followed. So the model
  does not capture the 403 answers that a link pointing out of `NOTEBOOK_DIR` or
  `WORKSPACE_DIR` causes in the code (`backend/main.py:130-133`, `150-153`).
- A leading `//`, which POSIX `pathlib` keeps as a distinct root, is not modelled.
  Names containing `/` never reach the join.
- JSON numbers are integers. Floats in incoming frames are not modelled, because only
  the presence and type of `code` matter.
- Dafny's `char` is a Unicode scalar value, so a Python string holding a lone
  surrogate (which `json.loads` accepts in the rename body as `"\ud800"`) has no
  counterpart in the model.
- Python's `str.isspace()` is stated for the code points it accepts. This model does
  not derive it from a Unicode database.
