/**
 * `rename_notebook`: the order in which the handler validates, looks up
 * and renames, over an abstract set of paths that exist on disk.
 */
module Notebooks {
  import opened Wrappers
  import opened Text
  import opened SafePaths

  const OriginalMissing := HttpError(404, "Notebook original não encontrado.")
  const TargetExists := HttpError(409, "Já existe um notebook com esse nome.")

  /** The 500 raised when the rename call itself fails with error text `e`. */
  function RenameFailed(e: string): HttpError
  {
    HttpError(500, "Erro ao renomear o notebook: " + e)
  }

  /**
   * The outcome of `PATCH /v1/notebooks/{filename}` with body `newFilename`
   * when the paths in `present` exist and the operating system's rename
   * fails with `osError` (or succeeds, for `None`): the set of existing
   * paths afterwards, or the error raised.
   */
  function RenameOutcome(filename: string, newFilename: string, present: set<Path>, osError: Option<string>)
    : (r: Result<set<Path>, HttpError>)
  {
    match SafeNotebookPath(filename)
    case Err(e) => Err(e)
    case Ok(oldPath) =>
      match SafeNotebookPath(newFilename)
      case Err(e) => Err(e)
      case Ok(newPath) =>
        if oldPath !in present then Err(OriginalMissing)
        else if newPath in present then Err(TargetExists)
        else if osError.Some? then Err(RenameFailed(osError.value))
        else Ok(present - {oldPath} + {newPath})
  }

  /**
   * A bad name on either side is refused with 400 before the disk is
   * consulted, except that a guarded old name with a NUL already makes its
   * own `resolve()` raise (500) before the new name is looked at.
   */
  lemma RenameValidatesFirst(filename: string, newFilename: string, present: set<Path>, osError: Option<string>)
    requires HasTraversal(filename) || HasTraversal(newFilename)
    ensures HasTraversal(filename) || !ResolveRaises(filename) ==>
      RenameOutcome(filename, newFilename, present, osError) == Err(HttpError(400, "Nome de arquivo inválido."))
    ensures !HasTraversal(filename) && ResolveRaises(filename) ==>
      RenameOutcome(filename, newFilename, present, osError) == Err(HttpError(500, "Internal Server Error"))
  {
    NotebookPathCases(filename);
    NotebookPathCases(newFilename);
  }

  /**
   * With two guarded names: a NUL in the old, then in the new name makes
   * `resolve()` raise (500) whatever exists; otherwise the answer is 404 when
   * the old notebook is missing (whether or not the new one exists), else
   * 409 when the new one exists, else 500 when the rename fails, else
   * success.
   */
  lemma RenameDecisionOrder(filename: string, newFilename: string, present: set<Path>, osError: Option<string>)
    requires !HasTraversal(filename) && !HasTraversal(newFilename)
    ensures var oldPath := Path(NotebookDir.parts + [WithNotebookSuffix(filename)]);
      var newPath := Path(NotebookDir.parts + [WithNotebookSuffix(newFilename)]);
      var r := RenameOutcome(filename, newFilename, present, osError);
      var clean := !ResolveRaises(filename) && !ResolveRaises(newFilename);
      && (!clean ==> r == Err(HttpError(500, "Internal Server Error")))
      && (clean && oldPath !in present ==> r == Err(HttpError(404, "Notebook original não encontrado.")))
      && (clean && oldPath in present && newPath in present ==> r == Err(HttpError(409, "Já existe um notebook com esse nome.")))
      && (clean && oldPath in present && newPath !in present && osError.Some? ==> r.Err? && r.error.status == 500)
      && (r.Ok? <==> clean && oldPath in present && newPath !in present && osError.None?)
  {
    NotebookPathCases(filename);
    NotebookPathCases(newFilename);
  }

  /** A successful rename moves exactly one path: the count of notebooks is unchanged. */
  lemma RenameMovesOnePath(filename: string, newFilename: string, present: set<Path>, osError: Option<string>)
    requires RenameOutcome(filename, newFilename, present, osError).Ok?
    ensures var after := RenameOutcome(filename, newFilename, present, osError).value;
      var oldPath := SafeNotebookPath(filename).value;
      var newPath := SafeNotebookPath(newFilename).value;
      && oldPath != newPath
      && oldPath !in after && newPath in after
      && after - {newPath} == present - {oldPath}
      && |after| == |present|
  {
    var oldPath := SafeNotebookPath(filename).value;
    var newPath := SafeNotebookPath(newFilename).value;
    var rest := present - {oldPath};
    assert present == rest + {oldPath};
    var after := rest + {newPath};
    assert |after| == |rest| + 1;
    assert |present| == |rest| + 1;
  }

  /** Renaming `x` to `x.ipynb` is a rename onto itself and is refused with 409. */
  lemma RenameOntoAlias(name: string, present: set<Path>, osError: Option<string>)
    requires !HasTraversal(name) && !HasTraversal(name + ".ipynb") && !EndsWith(name, ".ipynb")
    requires SafeNotebookPath(name).Ok? && SafeNotebookPath(name).value in present
    ensures RenameOutcome(name, name + ".ipynb", present, osError) == Err(HttpError(409, "Já existe um notebook com esse nome."))
  {
    NotebookAlias(name);
  }

  /** The notebook directory seen through its existing paths; `rename_notebook` updates it. */
  class NotebookStore {
    var present: set<Path>

    constructor (initial: set<Path>)
      ensures present == initial
    {
      present := initial;
    }

    /**
     * The handler itself: validate both names, then 404, then 409, then
     * rename on disk (failing with `osError` when the OS refuses).
     */
    method Rename(filename: string, newFilename: string, osError: Option<string>) returns (r: Result<(), HttpError>)
      modifies this
      ensures var outcome := RenameOutcome(filename, newFilename, old(present), osError);
        && (r.Ok? <==> outcome.Ok?)
        && (r.Err? ==> r.error == outcome.error && present == old(present))
        && (r.Ok? ==> present == outcome.value)
    {
      var oldPath := SafeNotebookPath(filename);
      if oldPath.Err? {
        return Err(oldPath.error);
      }
      var newPath := SafeNotebookPath(newFilename);
      if newPath.Err? {
        return Err(newPath.error);
      }
      if oldPath.value !in present {
        return Err(OriginalMissing);
      }
      if newPath.value in present {
        return Err(TargetExists);
      }
      if osError.Some? {
        return Err(RenameFailed(osError.value));
      }
      present := present - {oldPath.value} + {newPath.value};
      return Ok(());
    }
  }
}
