/**
 * The two filename validators of the backend, `get_safe_path` (notebooks)
 * and `get_safe_workspace_path` (uploaded files), over a lexical model of
 * `pathlib`: a path is the list of its components below the root `/`,
 * joining splits the name on `/` and drops empty and `.` components, and
 * `resolve()` additionally pops a component for every `..`.
 */
module SafePaths {
  import opened Wrappers
  import opened Text

  /** An absolute POSIX path, as the components that follow the root. */
  datatype Path = Path(parts: seq<string>)

  /** An HTTP error raised by a handler: status code and detail message. */
  datatype HttpError = HttpError(status: int, detail: string)

  const NotebookDir := Path(["app", "Arquivos", "Notebooks"])
  const WorkspaceDir := Path(["app", "Arquivos", "Uploads"])
  const NotebookSuffix := ".ipynb"

  const InvalidName := HttpError(400, "Nome de arquivo inválido.")
  const NotebookForbidden := HttpError(403, "Acesso negado.")
  const WorkspaceForbidden := HttpError(403, "Acesso negado ao workspace.")
  /** The framework's answer to an exception the handler does not catch. */
  const ServerError := HttpError(500, "Internal Server Error")

  /** The name is refused outright: it contains `..`, `/` or `\`. */
  predicate HasTraversal(name: string)
  {
    HasDoubleDot(name) || '/' in name || '\\' in name
  }

  /** A component that lexical resolution keeps as it is. */
  predicate Plain(c: string)
  {
    c != "" && c != "." && c != ".."
  }

  /** The components `pathlib` parses out of a relative name. */
  function Components(name: string): (r: seq<string>)
    ensures forall k :: 0 <= k < |r| ==> r[k] != "" && r[k] != "."
  {
    Drop(Split(name, '/'))
  }

  /** The pieces other than `""` and `"."`, in order. */
  function Drop(pieces: seq<string>): (r: seq<string>)
    ensures forall k :: 0 <= k < |r| ==> r[k] != "" && r[k] != "."
  {
    if pieces == [] then []
    else if pieces[0] == "" || pieces[0] == "." then Drop(pieces[1..])
    else [pieces[0]] + Drop(pieces[1..])
  }

  /** `dir / name`: an absolute name replaces the directory. */
  function Join(dir: Path, name: string): Path
  {
    if name != [] && name[0] == '/' then Path(Components(name))
    else Path(dir.parts + Components(name))
  }

  /** Lexical resolution of `rest` on top of the already resolved `acc`. */
  function Normalize(acc: seq<string>, rest: seq<string>): seq<string>
    decreases |rest|
  {
    if rest == [] then acc
    else if rest[0] == ".." then Normalize(if acc == [] then [] else acc[..|acc| - 1], rest[1..])
    else if rest[0] == "" || rest[0] == "." then Normalize(acc, rest[1..])
    else Normalize(acc + [rest[0]], rest[1..])
  }

  /** `path.resolve()` when no component is a symbolic link. */
  function Resolve(p: Path): Path
  {
    Path(Normalize([], p.parts))
  }

  /** `dir in p.parents`: `dir` is a proper ancestor of `p`. */
  predicate IsAncestor(dir: Path, p: Path)
  {
    |dir.parts| < |p.parts| && p.parts[..|dir.parts|] == dir.parts
  }

  /** The name with `.ipynb` appended unless it already ends with it. */
  function WithNotebookSuffix(name: string): string
  {
    if EndsWith(name, NotebookSuffix) then name else name + NotebookSuffix
  }

  /**
   * `resolve()` raises `ValueError` (not an `OSError`, so it is not
   * swallowed) when the path contains a NUL character, which the operating
   * system's `lstat` cannot take.
   */
  predicate ResolveRaises(name: string)
  {
    '\0' in name
  }

  /** `get_safe_path(filename)`. */
  function SafeNotebookPath(filename: string): (r: Result<Path, HttpError>)
    ensures r.Ok? ==> IsAncestor(Resolve(NotebookDir), r.value)
  {
    if HasTraversal(filename) then Err(InvalidName)
    else
      var name := WithNotebookSuffix(filename);
      if ResolveRaises(name) then Err(ServerError)
      else
      var safePath := Resolve(Join(NotebookDir, name));
      if !IsAncestor(Resolve(NotebookDir), safePath) then Err(NotebookForbidden)
      else Ok(safePath)
  }

  /** `get_safe_workspace_path(filename)`. */
  function SafeWorkspacePath(filename: string): (r: Result<Path, HttpError>)
    ensures r.Ok? ==> IsAncestor(Resolve(WorkspaceDir), r.value)
  {
    if HasTraversal(filename) then Err(InvalidName)
    else if ResolveRaises(filename) then Err(ServerError)
    else
      var safePath := Resolve(Join(WorkspaceDir, filename));
      if !IsAncestor(Resolve(WorkspaceDir), safePath) then Err(WorkspaceForbidden)
      else Ok(safePath)
  }

  // ---------------------------------------------------------------------------
  // Properties

  /** A single piece is kept exactly when it is neither `""` nor `"."`. */
  lemma DropSingle(x: string)
    ensures Drop([x]) == if x == "" || x == "." then [] else [x]
  {
    assert [x][1..] == [];
  }

  /** Dropping works piece by piece: it distributes over concatenation, so every other piece is kept, in order. */
  lemma {:induction false} DropAppend(a: seq<string>, b: seq<string>)
    ensures Drop(a + b) == Drop(a) + Drop(b)
  {
    if a == [] {
      assert a + b == b;
    } else {
      assert (a + b)[0] == a[0];
      assert (a + b)[1..] == a[1..] + b;
      DropAppend(a[1..], b);
    }
  }

  /** Resolution leaves plain components untouched. */
  lemma {:induction false} NormalizePlain(acc: seq<string>, rest: seq<string>)
    requires forall k :: 0 <= k < |rest| ==> Plain(rest[k])
    ensures Normalize(acc, rest) == acc + rest
    decreases |rest|
  {
    if rest != [] {
      NormalizePlain(acc + [rest[0]], rest[1..]);
      assert acc + [rest[0]] + rest[1..] == acc + rest;
    }
  }

  /** Both base directories are already resolved. */
  lemma BaseDirsResolved()
    ensures Resolve(NotebookDir) == NotebookDir
    ensures Resolve(WorkspaceDir) == WorkspaceDir
  {
    NormalizePlain([], NotebookDir.parts);
    NormalizePlain([], WorkspaceDir.parts);
  }

  /** A name without `/` is at most one component. */
  lemma SingleComponent(name: string)
    requires '/' !in name
    ensures Components(name) == if name == "" || name == "." then [] else [name]
  {
    assert Split(name, '/') == [name];
    assert [name][1..] == [];
    assert Drop([]) == [];
  }

  /** A name that passes the traversal guard is never `..`. */
  lemma GuardedNotParent(name: string)
    requires !HasTraversal(name)
    ensures name != ".."
  {
    assert HasDoubleDot("..") by {
      assert ".."[0] == '.' && ".."[1] == '.';
    }
  }

  /** Joining a guarded name and resolving gives the directory itself or its child `name`. */
  lemma GuardedJoin(dir: Path, name: string)
    requires forall k :: 0 <= k < |dir.parts| ==> Plain(dir.parts[k])
    requires !HasTraversal(name)
    ensures Resolve(Join(dir, name)) == if name == "" || name == "." then dir else Path(dir.parts + [name])
  {
    SingleComponent(name);
    GuardedNotParent(name);
    NormalizePlain([], Join(dir, name).parts);
  }

  /** A name containing `..`, `/` or `\` is refused with 400 by both validators. */
  lemma TraversalRejected(filename: string)
    requires HasDoubleDot(filename) || '/' in filename || '\\' in filename
    ensures SafeNotebookPath(filename) == Err(HttpError(400, "Nome de arquivo inválido."))
    ensures SafeWorkspacePath(filename) == Err(HttpError(400, "Nome de arquivo inválido."))
  {
  }

  /** `.ipynb` is appended exactly when missing; the result always ends with it; appending twice changes nothing. */
  lemma NotebookSuffixProperties(name: string)
    ensures EndsWith(WithNotebookSuffix(name), ".ipynb")
    ensures EndsWith(name, ".ipynb") <==> WithNotebookSuffix(name) == name
    ensures !EndsWith(name, ".ipynb") ==> WithNotebookSuffix(name) == name + ".ipynb"
    ensures WithNotebookSuffix(WithNotebookSuffix(name)) == WithNotebookSuffix(name)
  {
    var n := name + NotebookSuffix;
    assert n[|n| - |NotebookSuffix|..] == NotebookSuffix;
  }

  /** The suffixed notebook name is a single plain component. */
  lemma SuffixedIsPlain(filename: string)
    requires !HasTraversal(filename)
    ensures !('/' in WithNotebookSuffix(filename))
    ensures Plain(WithNotebookSuffix(filename))
  {
    NotebookSuffixProperties(filename);
    var n := WithNotebookSuffix(filename);
    assert '/' !in NotebookSuffix;
    assert n[|n| - 6..] == ".ipynb";
  }

  /** The `.ipynb` suffix adds no NUL character. */
  lemma SuffixKeepsNul(filename: string)
    ensures ResolveRaises(WithNotebookSuffix(filename)) <==> ResolveRaises(filename)
  {
    var n := WithNotebookSuffix(filename);
    if n != filename {
      assert n == filename + NotebookSuffix;
      if '\0' in filename {
        var k :| 0 <= k < |filename| && filename[k] == '\0';
        assert n[k] == '\0';
      }
      if '\0' in n {
        var k :| 0 <= k < |n| && n[k] == '\0';
        assert filename[k] == '\0';
      }
    }
  }

  /**
   * Every name without `..`, `/`, `\` or NUL is accepted as
   * `NOTEBOOK_DIR/<name>.ipynb`, a direct child of the notebook directory; a
   * guarded name with a NUL makes `resolve()` raise (500); so under lexical
   * resolution `get_safe_path` never answers 403.
   */
  lemma NotebookPathCases(filename: string)
    ensures SafeNotebookPath(filename).Ok? <==> !HasTraversal(filename) && !ResolveRaises(filename)
    ensures !HasTraversal(filename) && !ResolveRaises(filename) ==>
      SafeNotebookPath(filename) == Ok(Path(NotebookDir.parts + [WithNotebookSuffix(filename)]))
    ensures !HasTraversal(filename) && ResolveRaises(filename) ==>
      SafeNotebookPath(filename) == Err(HttpError(500, "Internal Server Error"))
    ensures SafeNotebookPath(filename) == Err(HttpError(400, "Nome de arquivo inválido.")) <==> HasTraversal(filename)
    ensures SafeNotebookPath(filename).Err? ==> SafeNotebookPath(filename).error.status != 403
  {
    SuffixKeepsNul(filename);
    if !HasTraversal(filename) && !ResolveRaises(filename) {
      var name := WithNotebookSuffix(filename);
      SuffixedIsPlain(filename);
      BaseDirsResolved();
      SingleComponent(name);
      assert Join(NotebookDir, name) == Path(NotebookDir.parts + [name]);
      var parts := NotebookDir.parts + [name];
      assert forall k :: 0 <= k < |parts| ==> Plain(parts[k]);
      NormalizePlain([], parts);
      assert parts[..|NotebookDir.parts|] == NotebookDir.parts;
      assert Resolve(Join(NotebookDir, name)) == Path(parts);
      assert IsAncestor(Resolve(NotebookDir), Path(parts));
      assert SafeNotebookPath(filename) == Ok(Path(parts));
    }
  }

  /** Every accepted notebook path names a file ending in `.ipynb`. */
  lemma NotebookPathEndsWithSuffix(filename: string)
    requires SafeNotebookPath(filename).Ok?
    ensures var p := SafeNotebookPath(filename).value.parts;
      |p| == |NotebookDir.parts| + 1 && p[..|NotebookDir.parts|] == NotebookDir.parts
      && EndsWith(p[|p| - 1], ".ipynb")
  {
    NotebookPathCases(filename);
    NotebookSuffixProperties(filename);
  }

  /**
   * The workspace validator answers 400 for traversal characters, 500 for a
   * guarded name with a NUL, 403 for the names `""` and `"."` (they resolve
   * to the directory itself, which is not among its own parents), and
   * otherwise `WORKSPACE_DIR/<name>`.
   */
  lemma WorkspacePathCases(filename: string)
    ensures SafeWorkspacePath(filename).Ok? <==>
      !HasTraversal(filename) && !ResolveRaises(filename) && filename != "" && filename != "."
    ensures SafeWorkspacePath(filename).Ok? ==> SafeWorkspacePath(filename).value == Path(WorkspaceDir.parts + [filename])
    ensures !HasTraversal(filename) && ResolveRaises(filename) ==>
      SafeWorkspacePath(filename) == Err(HttpError(500, "Internal Server Error"))
    ensures SafeWorkspacePath(filename) == Err(HttpError(403, "Acesso negado ao workspace.")) <==>
      !HasTraversal(filename) && (filename == "" || filename == ".")
  {
    if !HasTraversal(filename) && !ResolveRaises(filename) {
      BaseDirsResolved();
      GuardedJoin(WorkspaceDir, filename);
    }
  }

  /** Distinct accepted workspace names address distinct files. */
  lemma WorkspacePathInjective(a: string, b: string)
    requires SafeWorkspacePath(a).Ok? && SafeWorkspacePath(b).Ok?
    requires a != b
    ensures SafeWorkspacePath(a).value != SafeWorkspacePath(b).value
  {
    WorkspacePathCases(a);
    WorkspacePathCases(b);
    var pa, pb := SafeWorkspacePath(a).value.parts, SafeWorkspacePath(b).value.parts;
    assert pa[|pa| - 1] == a && pb[|pb| - 1] == b;
  }

  /** `x` and `x.ipynb` address the same notebook whenever both are valid names. */
  lemma NotebookAlias(name: string)
    requires !HasTraversal(name) && !HasTraversal(name + ".ipynb")
    requires !EndsWith(name, ".ipynb")
    ensures SafeNotebookPath(name) == SafeNotebookPath(name + ".ipynb")
  {
    SuffixKeepsNul(name);
    NotebookPathCases(name);
    NotebookPathCases(name + ".ipynb");
    NotebookSuffixProperties(name);
    NotebookSuffixProperties(name + ".ipynb");
  }

  /**
   * A name ending in `.` is accepted, but the file it addresses is called
   * `<name>.ipynb`, which contains `..`: asking for that file by its own
   * name is refused with 400.
   */
  lemma TrailingDotName(stem: string)
    requires !HasTraversal(stem + ".")
    ensures SafeNotebookPath(stem + ".").Ok? <==> '\0' !in stem
    ensures '\0' !in stem ==>
      var file := SafeNotebookPath(stem + ".").value.parts[|NotebookDir.parts|];
      file == stem + "..ipynb" && SafeNotebookPath(file) == Err(HttpError(400, "Nome de arquivo inválido."))
  {
    var name := stem + ".";
    NotebookPathCases(name);
    assert '\0' in name <==> '\0' in stem by {
      if '\0' in name {
        var k :| 0 <= k < |name| && name[k] == '\0';
        assert k < |stem| && stem[k] == '\0';
      }
      if '\0' in stem {
        var k :| 0 <= k < |stem| && stem[k] == '\0';
        assert name[k] == '\0';
      }
    }
    var n := name + NotebookSuffix;
    assert !EndsWith(name, NotebookSuffix) by {
      assert name[|name| - 1] == '.';
    }
    assert n == stem + "..ipynb";
    var file := stem + "..ipynb";
    assert file[|stem|] == '.' && file[|stem| + 1] == '.';
  }
}
