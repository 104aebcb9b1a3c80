/**
 * What the websocket handler computes around one container run: the mount
 * of the host workspace, the argv chosen from the submitted code, the
 * fixed container parameters, and the single message that reports the run.
 * The Docker calls themselves are not modelled; their outcomes are values
 * of `Exec`.
 */
module Sandbox {
  import opened Wrappers
  import opened Text
  import opened Protocol

  const Image := "python:3.11-slim"
  const MemLimit := "256m"
  const CpuShares := 512
  const DataMount := "/data"
  const UploadsWorkdir := "/data/Uploads"
  const DefaultWorkdir := "/"

  /** A volume entry `{'bind': ..., 'mode': ...}`. */
  datatype Bind = Bind(bind: string, mode: string)

  /** The volumes and working directory passed to `containers.run`. */
  datatype Mounts = Mounts(volumes: map<string, Bind>, workingDir: string)

  /** The arguments of one `containers.run` call. */
  datatype ContainerSpec = ContainerSpec(
    image: string,
    command: seq<string>,
    detach: bool,
    memLimit: string,
    cpuShares: int,
    volumes: map<string, Bind>,
    workingDir: string)

  /** `if HOST_WORKSPACE:` — unset and empty both count as missing. */
  predicate Configured(host: Option<string>)
  {
    host.Some? && host.value != ""
  }

  /** Python's `str.lower()` on an ASCII letter. */
  function LowerAscii(c: char): char
  {
    if 'A' <= c <= 'Z' then (c as int + 32) as char else c
  }

  /**
   * Host-path normalisation for Docker: every `\` becomes `/`, then a
   * leading `C:` becomes `/c`.
   */
  function NormaliseHostPath(s: string): string
  {
    var t := ReplaceChar(s, '\\', '/');
    if StartsWith(t, "C:") then "/" + [LowerAscii(t[0])] + t[2..] else t
  }

  /** The mounts built for each run. */
  function MountsFor(host: Option<string>): Mounts
  {
    if Configured(host) then
      Mounts(map[NormaliseHostPath(host.value) := Bind(DataMount, "rw")], UploadsWorkdir)
    else
      Mounts(map[], DefaultWorkdir)
  }

  /** After stripping, the code is a shell command exactly when it starts with `!`. */
  predicate IsShell(code: string)
  {
    var c := Strip(code);
    c != [] && c[0] == '!'
  }

  /** The argv the container runs for the submitted `code`. */
  function Command(code: string): (argv: seq<string>)
    ensures |argv| == 3 && argv[1] == "-c"
    ensures argv[0] == if IsShell(code) then "/bin/sh" else "python"
    ensures NoSpaceAtEnds(argv[2])
  {
    var codeToRun := Strip(code);
    if codeToRun != [] && codeToRun[0] == '!' then ["/bin/sh", "-c", Strip(codeToRun[1..])]
    else ["python", "-c", codeToRun]
  }

  /** The full `containers.run` request for `code`. */
  function ContainerRequest(code: string, host: Option<string>): ContainerSpec
  {
    var m := MountsFor(host);
    ContainerSpec(Image, Command(code), true, MemLimit, CpuShares, m.volumes, m.workingDir)
  }

  const BeforeErrorHeader := "[Saída antes do erro]:\n"
  const ErrorHeader := "\n\n[Erro]:\n"
  const UnexpectedPrefix := "Erro inesperado no orquestrador: "

  /**
   * The message for a finished container whose stripped logs are `stdout`
   * and `stderr`.
   */
  function Compose(stdout: string, stderr: string): (m: OutMsg)
    ensures m.kind == Stderr <==> stderr != ""
    ensures m.kind != FilesystemUpdate
  {
    if stderr != "" then
      var content := if stdout != "" then BeforeErrorHeader + stdout + ErrorHeader + stderr else stderr;
      OutMsg(Stderr, content)
    else
      OutMsg(Stdout, stdout)
  }

  /** The message for an exception the orchestrator did not expect, with text `e`. */
  function Unexpected(e: string): OutMsg
  {
    OutMsg(Stderr, UnexpectedPrefix + e)
  }

  /** What `wait` and the two `logs` calls gave once the container existed. */
  datatype AfterStart =
    | Logs(stdout: string, stderr: string)  // the decoded log streams
    | WaitFailed(error: string)             // `wait`, `logs` or decoding raised

  /** What `container.remove(force=True)` did in the `finally` block. */
  datatype Removal = Removed | AlreadyGone | RemoveFailed

  /** Everything Docker did for one run. */
  datatype Exec =
    | RunFailed(error: string)                     // `containers.run` raised; no container
    | RunContainerError(stderr: string)            // `containers.run` raised `ContainerError`
    | Started(after: AfterStart, removal: Removal) // a container object was returned

  /** The result message of one run, as it stands before the `finally` block. */
  function Outcome(exec: Exec): OutMsg
  {
    match exec
    case RunFailed(e) => Unexpected(e)
    case RunContainerError(err) => OutMsg(Stderr, Strip(err))
    case Started(Logs(out, err), _) => Compose(Strip(out), Strip(err))
    case Started(WaitFailed(e), _) => Unexpected(e)
  }

  // ---------------------------------------------------------------------------
  // Properties

  /**
   * Normalisation keeps the length, leaves no `\\`, turns every other
   * character after the first two into itself, and turns a leading `C:`
   * into `/c`.
   */
  lemma NormaliseHostPathSpec(s: string)
    ensures var r := NormaliseHostPath(s);
      && |r| == |s|
      && '\\' !in r
      && (forall k :: 2 <= k < |s| ==> r[k] == if s[k] == '\\' then '/' else s[k])
      && (StartsWith(s, "C:") ==> StartsWith(r, "/c"))
      && (!StartsWith(s, "C:") ==> forall k :: 0 <= k < |s| ==> r[k] == if s[k] == '\\' then '/' else s[k])
  {
    var t := ReplaceChar(s, '\\', '/');
    ReplaceCharSpec(s, '\\', '/');
    if StartsWith(t, "C:") {
      assert t[0] == 'C' && s[..2] == "C:";
    }
  }

  /** Normalising twice is normalising once. */
  lemma NormaliseIdempotent(s: string)
    ensures NormaliseHostPath(NormaliseHostPath(s)) == NormaliseHostPath(s)
  {
    var r := NormaliseHostPath(s);
    NormaliseHostPathSpec(s);
    NormaliseHostPathSpec(r);
    assert !StartsWith(r, "C:") by {
      if StartsWith(s, "C:") {
        assert r[0] == '/';
      }
    }
  }

  /** The paths left unchanged are exactly those with no `\` that do not start with `C:`. */
  lemma NormaliseFixpoints(s: string)
    ensures NormaliseHostPath(s) == s <==> '\\' !in s && !StartsWith(s, "C:")
  {
    NormaliseHostPathSpec(s);
    if '\\' !in s && !StartsWith(s, "C:") {
      assert forall k :: 0 <= k < |s| ==> NormaliseHostPath(s)[k] == s[k];
    }
  }

  /**
   * With a configured host workspace there is exactly one volume, the
   * normalised host path bound read-write at `/data`, and the container
   * works in `/data/Uploads`; without one, no volume and `/`.
   */
  lemma MountsSpec(host: Option<string>)
    ensures Configured(host) ==>
      && |MountsFor(host).volumes| == 1
      && (forall p :: p in MountsFor(host).volumes ==>
            p == NormaliseHostPath(host.value) && '\\' !in p
            && MountsFor(host).volumes[p] == Bind("/data", "rw"))
      && MountsFor(host).workingDir == "/data/Uploads"
    ensures !Configured(host) ==> MountsFor(host).volumes == map[] && MountsFor(host).workingDir == "/"
  {
    if Configured(host) {
      NormaliseHostPathSpec(host.value);
      assert MountsFor(host).volumes.Keys == {NormaliseHostPath(host.value)};
    }
  }

  /** Whitespace around the code never changes what is run. */
  lemma CommandIgnoresPadding(a: string, code: string, b: string)
    requires AllSpace(a) && AllSpace(b)
    ensures Command(a + code + b) == Command(code)
  {
    StripIgnoresPadding(a, code, b);
  }

  /** A shell cell `!<cmd>` runs `<cmd>` under `/bin/sh -c`, whatever whitespace follows the `!`. */
  lemma ShellCommandPayload(ws: string, cmd: string)
    requires AllSpace(ws) && NoSpaceAtEnds(cmd)
    ensures Command("!" + ws + cmd) == ["/bin/sh", "-c", cmd]
  {
    var code := "!" + ws + cmd;
    DropHead('!', ws, cmd);
    if cmd == [] {
      AppendEmpty("!" + ws);
      StripTrailing("!", ws);
    } else {
      assert code[0] == '!' && code[|code| - 1] == cmd[|cmd| - 1];
      AppendEmpty(code);
      StripTrailing(code, "");
      StripLeading(ws, cmd);
    }
  }

  lemma DropHead<T>(x: T, a: seq<T>, b: seq<T>)
    ensures ([x] + a + b)[1..] == a + b
  {
  }

  lemma AppendEmpty<T>(a: seq<T>)
    ensures a + [] == a
  {
  }

  /** Any other stripped code is run verbatim by `python -c`. */
  lemma PythonCommandVerbatim(code: string)
    requires NoSpaceAtEnds(code) && (code == [] || code[0] != '!')
    ensures Command(code) == ["python", "-c", code]
  {
    StripPadded("", code, "");
    assert "" + code + "" == code;
  }

  /**
   * Only the first non-blank character decides the kind: code that begins
   * with a non-blank character `c` is a shell command exactly when `c` is
   * `!`, whatever follows (later `!` lines included).
   */
  lemma FirstCharacterDecides(head: char, rest: string)
    requires !IsSpace(head)
    ensures IsShell([head] + rest) <==> head == '!'
  {
    var code := [head] + rest;
    assert TrimStart(code) == code;
    TrimEndSpec(code);
    assert Strip(code) != [] && Strip(code)[0] == head;
  }

  /**
   * Nothing either stream wrote is lost: without stderr the content is
   * stdout; with stderr the content ends with it, and when stdout is not
   * empty it follows the fixed header and can be read back at its offset.
   */
  lemma ComposeContent(stdout: string, stderr: string)
    ensures var m := Compose(stdout, stderr);
      && (stderr == "" ==> m.content == stdout)
      && (stderr != "" ==> EndsWith(m.content, stderr))
      && (stderr != "" && stdout == "" ==> m.content == stderr)
      && (stderr != "" && stdout != "" ==>
          && StartsWith(m.content, "[Saída antes do erro]:\n")
          && |m.content| == |BeforeErrorHeader| + |stdout| + |ErrorHeader| + |stderr|
          && m.content[|BeforeErrorHeader|..|BeforeErrorHeader| + |stdout|] == stdout)
  {
    if stderr != "" && stdout != "" {
      var content := BeforeErrorHeader + stdout + ErrorHeader + stderr;
      assert content[|content| - |stderr|..] == stderr;
      assert content[..|BeforeErrorHeader|] == BeforeErrorHeader;
      assert content[|BeforeErrorHeader|..|BeforeErrorHeader| + |stdout|] == stdout;
    }
  }

  /** The fixed layout of a run that wrote to both streams. */
  lemma ComposeLayout(stdout: string, stderr: string)
    requires stdout != "" && stderr != ""
    ensures Compose(stdout, stderr) ==
      OutMsg(Stderr, "[Saída antes do erro]:\n" + stdout + "\n\n[Erro]:\n" + stderr)
  {
  }

  /**
   * A run is reported as `stdout` exactly when the container finished and
   * its stripped stderr is empty; every other path reports `stderr`, and an
   * unexpected failure carries the orchestrator prefix.
   */
  lemma OutcomeKinds(exec: Exec)
    ensures Outcome(exec).kind != FilesystemUpdate
    ensures Outcome(exec).kind == Stdout <==> exec.Started? && exec.after.Logs? && Strip(exec.after.stderr) == ""
    ensures exec.RunFailed? ==> Outcome(exec) == OutMsg(Stderr, "Erro inesperado no orquestrador: " + exec.error)
    ensures exec.Started? && exec.after.WaitFailed? ==>
      Outcome(exec) == OutMsg(Stderr, "Erro inesperado no orquestrador: " + exec.after.error)
    ensures exec.Started? && exec.after.Logs? && Strip(exec.after.stderr) == "" ==>
      Outcome(exec).content == Strip(exec.after.stdout)
  {
  }
}
