/**
 * The `/v1/execute` websocket handler as a trace of effects: what it does
 * on the channel (accept, send, close) and against Docker (run a
 * container, remove it), given the verifier's answer for the token, whether
 * the Docker client connected at start-up, the `HOST_WORKSPACE_PATH`
 * setting, and the sequence of incoming frames, each paired with what
 * Docker does if that frame's code is run.
 */
module Session {
  import opened Wrappers
  import opened Text
  import opened Protocol
  import opened Sandbox

  /** The identity the token verifier returns. */
  datatype User = User(username: string)

  /** One `receive_json` call: the peer left, the frame was not JSON, or a decoded value. */
  datatype Frame = Disconnected | Undecodable | Received(data: Json)

  /** An incoming frame and what Docker does if it leads to a run. */
  datatype Step = Step(frame: Frame, exec: Exec)

  datatype Effect =
    | Accept
    | Send(msg: OutMsg)
    | Close(code: int)
    | RunContainer(spec: ContainerSpec)
    | RemoveContainer

  const PolicyViolation := 1008
  const NormalClosure := 1000
  const InternalError := 1011

  const DockerMissing := OutMsg(Stderr, "Erro Crítico: O servidor não está conectado ao Docker.")
  const HostMissing := OutMsg(Stderr, "Erro Crítico: O servidor não está configurado com HOST_WORKSPACE_PATH.")
  const FilesystemHint := OutMsg(FilesystemUpdate, "Execução concluída, atualize os arquivos.")

  /** The effects of one loop iteration, and whether the handler leaves the loop. */
  datatype StepResult = StepResult(effects: seq<Effect>, stop: bool)

  /**
   * One run of `spec`: the container is requested; when one was created it
   * is removed in `finally`; then the result and the filesystem hint are
   * sent, unless the removal raised, which ends the session with 1011.
   */
  function RunEffects(spec: ContainerSpec, exec: Exec): StepResult
  {
    match exec
    case Started(_, RemoveFailed) =>
      StepResult([RunContainer(spec), RemoveContainer, Close(InternalError)], true)
    case Started(_, _) =>
      StepResult([RunContainer(spec), RemoveContainer, Send(Outcome(exec)), Send(FilesystemHint)], false)
    case _ =>
      StepResult([RunContainer(spec), Send(Outcome(exec)), Send(FilesystemHint)], false)
  }

  /** One iteration of the handler's `while True` loop. */
  function StepEffects(host: Option<string>, step: Step): StepResult
  {
    match step.frame
    case Disconnected => StepResult([], true)
    case Undecodable => StepResult([Close(InternalError)], true)
    case Received(data) =>
      match CodeOf(data)
      case NoCode => StepResult([], false)
      case CodeText(code) => RunEffects(ContainerRequest(code, host), step.exec)
      case _ => StepResult([Close(InternalError)], true)
  }

  /** The effects of the loop over `steps`, up to the step that leaves it. */
  function LoopTrace(host: Option<string>, steps: seq<Step>): seq<Effect>
  {
    if steps == [] then []
    else
      var r := StepEffects(host, steps[0]);
      if r.stop then r.effects else r.effects + LoopTrace(host, steps[1..])
  }

  /** The effects of a whole connection. */
  function SessionTrace(user: Option<User>, dockerReady: bool, host: Option<string>, steps: seq<Step>): seq<Effect>
  {
    if user.None? then [Close(PolicyViolation)]
    else if !dockerReady then [Accept, Send(DockerMissing), Close(NormalClosure)]
    else if Configured(host) then [Accept] + LoopTrace(host, steps)
    else [Accept, Send(HostMissing)] + LoopTrace(host, steps)
  }

  /** The effects the peer observes. */
  predicate OnChannel(e: Effect)
  {
    e.Accept? || e.Send? || e.Close?
  }

  function Channel(effects: seq<Effect>): (r: seq<Effect>)
    ensures forall k :: 0 <= k < |r| ==> OnChannel(r[k])
  {
    if effects == [] then []
    else (if OnChannel(effects[0]) then [effects[0]] else []) + Channel(effects[1..])
  }

  /** The iteration for `step` does not leave the loop. */
  predicate KeepsOpen(host: Option<string>, step: Step)
  {
    !StepEffects(host, step).stop
  }

  /** A reference for what the peer receives: two messages for every frame that carries code. */
  function Replies(steps: seq<Step>): seq<Effect>
  {
    if steps == [] then []
    else
      var here :=
        if steps[0].frame.Received? && CodeOf(steps[0].frame.data).CodeText?
        then [Send(Outcome(steps[0].exec)), Send(FilesystemHint)]
        else [];
      here + Replies(steps[1..])
  }

  /** How many frames carry a `code` string. */
  function CodeMessages(steps: seq<Step>): nat
  {
    if steps == [] then 0
    else
      var here := if steps[0].frame.Received? && CodeOf(steps[0].frame.data).CodeText? then 1 else 0;
      here + CodeMessages(steps[1..])
  }

  /** The volumes and working directory, built the way the handler builds its dict. */
  method BuildMounts(host: Option<string>) returns (volumes: map<string, Bind>, workingDir: string)
    ensures Mounts(volumes, workingDir) == MountsFor(host)
  {
    volumes := map[];
    workingDir := DefaultWorkdir;
    if Configured(host) {
      var hostPath := NormaliseHostPath(host.value);
      volumes := volumes[hostPath := Bind(DataMount, "rw")];
      workingDir := UploadsWorkdir;
    }
  }

  /** The result message, as the `try` block and its `except` clauses set `output`. */
  method Report(exec: Exec) returns (output: OutMsg)
    ensures output == Outcome(exec)
  {
    match exec {
      case RunFailed(e) =>
        output := Unexpected(e);
      case RunContainerError(err) =>
        output := OutMsg(Stderr, Strip(err));
      case Started(after, _) =>
        if after.Logs? {
          output := Compose(Strip(after.stdout), Strip(after.stderr));
        } else {
          output := Unexpected(after.error);
        }
    }
  }

  /** One container run for `code`: request, collect the result, remove, report. */
  method RunCode(host: Option<string>, code: string, exec: Exec) returns (result: StepResult)
    ensures result == RunEffects(ContainerRequest(code, host), exec)
  {
    var volumes, workingDir := BuildMounts(host);
    var command := Command(code);
    var spec := ContainerSpec(Image, command, true, MemLimit, CpuShares, volumes, workingDir);
    assert spec == ContainerRequest(code, host);
    var effects := [RunContainer(spec)];
    var output := Report(exec);
    if exec.Started? {
      effects := effects + [RemoveContainer];
      if exec.removal == RemoveFailed {
        return StepResult(effects + [Close(InternalError)], true);
      }
    }
    return StepResult(effects + [Send(output), Send(FilesystemHint)], false);
  }

  /** One iteration of the loop for the received `step`. */
  method HandleFrame(host: Option<string>, step: Step) returns (result: StepResult)
    ensures result == StepEffects(host, step)
  {
    if step.frame.Disconnected? {
      return StepResult([], true);
    }
    if step.frame.Undecodable? {
      return StepResult([Close(InternalError)], true);
    }
    var field := CodeOf(step.frame.data);
    if field.NoCode? {
      return StepResult([], false);
    }
    if !field.CodeText? {
      return StepResult([Close(InternalError)], true);
    }
    result := RunCode(host, field.code, step.exec);
  }

  lemma AppendAssociative(a: seq<Effect>, b: seq<Effect>, c: seq<Effect>)
    ensures (a + b) + c == a + (b + c)
  {
  }

  lemma LoopTraceUnfold(host: Option<string>, steps: seq<Step>, i: nat)
    requires i < |steps|
    ensures var r := StepEffects(host, steps[i]);
      LoopTrace(host, steps[i..]) == if r.stop then r.effects else r.effects + LoopTrace(host, steps[i + 1..])
  {
    assert steps[i..][1..] == steps[i + 1..];
  }

  /**
   * The frame loop of `websocket_execute`: handle frames in order, after the
   * effects already in `opening`, until one of them ends the session.
   */
  method ServeFrames(host: Option<string>, steps: seq<Step>, opening: seq<Effect>)
    returns (effects: seq<Effect>)
    ensures effects == opening + LoopTrace(host, steps)
  {
    effects := opening;
    var i := 0;
    while i < |steps|
      invariant 0 <= i <= |steps|
      invariant opening + LoopTrace(host, steps) == effects + LoopTrace(host, steps[i..])
    {
      LoopTraceUnfold(host, steps, i);
      var result := HandleFrame(host, steps[i]);
      AppendAssociative(effects, result.effects, LoopTrace(host, steps[i + 1..]));
      effects := effects + result.effects;
      if result.stop {
        return;
      }
      i := i + 1;
    }
    assert steps[i..] == [];
  }

  /**
   * `websocket_execute`: authenticate, accept, check the Docker client and
   * the host workspace, then serve frames until one ends the session.
   */
  method Serve(user: Option<User>, dockerReady: bool, host: Option<string>, steps: seq<Step>)
    returns (effects: seq<Effect>)
    ensures effects == SessionTrace(user, dockerReady, host, steps)
  {
    if user.None? {
      effects := [Close(PolicyViolation)];
      return;
    }
    var opening := [Accept];
    if !dockerReady {
      effects := opening + [Send(DockerMissing), Close(NormalClosure)];
      return;
    }
    if !Configured(host) {
      opening := opening + [Send(HostMissing)];
    }
    effects := ServeFrames(host, steps, opening);
  }

  // ---------------------------------------------------------------------------
  // Properties

  predicate NoClose(t: seq<Effect>)
  {
    forall k :: 0 <= k < |t| ==> !t[k].Close?
  }

  /** A close, if any, is the last effect of `t`. */
  predicate CloseOnlyAtEnd(t: seq<Effect>)
  {
    forall k :: 0 <= k < |t| && t[k].Close? ==> k == |t| - 1
  }

  /** The fixed parameters every `containers.run` call of the handler uses. */
  predicate StandardRequest(spec: ContainerSpec, mounts: Mounts)
  {
    && spec.image == "python:3.11-slim" && spec.detach
    && spec.memLimit == "256m" && spec.cpuShares == 512
    && spec.volumes == mounts.volumes && spec.workingDir == mounts.workingDir
    && |spec.command| == 3
  }

  predicate AllRequestsStandard(t: seq<Effect>, mounts: Mounts)
  {
    forall k :: 0 <= k < |t| && t[k].RunContainer? ==> StandardRequest(t[k].spec, mounts)
  }

  lemma {:induction false} ChannelAppend(a: seq<Effect>, b: seq<Effect>)
    ensures Channel(a + b) == Channel(a) + Channel(b)
  {
    if a != [] {
      assert (a + b)[1..] == a[1..] + b;
      ChannelAppend(a[1..], b);
    } else {
      assert a + b == b;
    }
  }

  lemma AppendShape(a: seq<Effect>, b: seq<Effect>, mounts: Mounts)
    requires NoClose(a) && CloseOnlyAtEnd(b)
    requires AllRequestsStandard(a, mounts) && AllRequestsStandard(b, mounts)
    ensures CloseOnlyAtEnd(a + b) && AllRequestsStandard(a + b, mounts)
  {
    forall k | 0 <= k < |a + b|
      ensures (a + b)[k].Close? ==> k == |a + b| - 1
      ensures (a + b)[k].RunContainer? ==> StandardRequest((a + b)[k].spec, mounts)
    {
      if k >= |a| {
        assert (a + b)[k] == b[k - |a|];
      }
    }
  }

  /** The effects of one run: no accept, a close only at the end and only when leaving, and only `spec` is requested. */
  lemma RunShape(spec: ContainerSpec, exec: Exec)
    ensures var r := RunEffects(spec, exec);
      && Accept !in r.effects && CloseOnlyAtEnd(r.effects) && (r.stop || NoClose(r.effects))
      && (forall k :: 0 <= k < |r.effects| && r.effects[k].RunContainer? ==> r.effects[k].spec == spec)
  {
  }

  lemma ContainerRequestStandard(code: string, host: Option<string>)
    ensures StandardRequest(ContainerRequest(code, host), MountsFor(host))
  {
  }

  /** The effects of one loop iteration have the same shape. */
  lemma StepShape(host: Option<string>, step: Step)
    ensures var r := StepEffects(host, step);
      && Accept !in r.effects && CloseOnlyAtEnd(r.effects) && (r.stop || NoClose(r.effects))
      && AllRequestsStandard(r.effects, MountsFor(host))
  {
    if step.frame.Received? && CodeOf(step.frame.data).CodeText? {
      var spec := ContainerRequest(CodeOf(step.frame.data).code, host);
      RunShape(spec, step.exec);
      ContainerRequestStandard(CodeOf(step.frame.data).code, host);
    }
  }

  /**
   * Over the whole loop: no accept; a close, if any, is the last effect;
   * every container requested has the fixed image and limits and the
   * mounts of `host`.
   */
  lemma {:induction false} LoopShape(host: Option<string>, steps: seq<Step>)
    ensures var t := LoopTrace(host, steps);
      Accept !in t && CloseOnlyAtEnd(t) && AllRequestsStandard(t, MountsFor(host))
  {
    if steps != [] {
      var r := StepEffects(host, steps[0]);
      StepShape(host, steps[0]);
      if !r.stop {
        LoopShape(host, steps[1..]);
        AppendShape(r.effects, LoopTrace(host, steps[1..]), MountsFor(host));
      }
    }
  }

  /** A frame whose `code` is absent or `null` is skipped without any effect. */
  lemma AbsentCodeIgnored(host: Option<string>, data: Json, exec: Exec)
    requires data.JObj? && ("code" !in data.fields || data.fields["code"] == JNull)
    ensures StepEffects(host, Step(Received(data), exec)) == StepResult([], false)
  {
  }

  /** A created container is removed exactly once, right after it ran; only a failed removal ends the session. */
  lemma RunRemoval(spec: ContainerSpec, exec: Exec)
    ensures var r := RunEffects(spec, exec);
      && r.effects[0] == RunContainer(spec)
      && (exec.Started? <==> RemoveContainer in r.effects)
      && (exec.Started? ==> r.effects[1] == RemoveContainer && RemoveContainer !in r.effects[2..])
      && (r.stop <==> exec.Started? && exec.removal == RemoveFailed)
  {
    var e := RunEffects(spec, exec).effects;
    if exec.Started? {
      assert e[2..] == if exec.removal == RemoveFailed then [Close(InternalError)]
                       else [Send(Outcome(exec)), Send(FilesystemHint)];
    }
  }

  /** What the peer sees of one run: the outcome and the hint, or the 1011 close. */
  lemma RunChannel(spec: ContainerSpec, exec: Exec)
    ensures var r := RunEffects(spec, exec);
      && (!r.stop ==> Channel(r.effects) == [Send(Outcome(exec)), Send(FilesystemHint)])
      && (r.stop ==> Channel(r.effects) == [Close(1011)])
  {
    var e := RunEffects(spec, exec).effects;
    var tail := if exec.Started? && exec.removal == RemoveFailed then [Close(InternalError)]
                else [Send(Outcome(exec)), Send(FilesystemHint)];
    ChannelOfMessages(tail);
    if exec.Started? {
      assert e == [RunContainer(spec)] + ([RemoveContainer] + tail);
      ChannelSkip(RemoveContainer, tail);
      ChannelSkip(RunContainer(spec), [RemoveContainer] + tail);
    } else {
      assert e == [RunContainer(spec)] + tail;
      ChannelSkip(RunContainer(spec), tail);
    }
  }

  lemma ChannelSkip(e: Effect, t: seq<Effect>)
    requires !OnChannel(e)
    ensures Channel([e] + t) == Channel(t)
  {
    assert ([e] + t)[1..] == t;
  }

  lemma {:induction false} ChannelOfMessages(t: seq<Effect>)
    requires forall k :: 0 <= k < |t| ==> OnChannel(t[k])
    ensures Channel(t) == t
  {
    if t != [] {
      ChannelOfMessages(t[1..]);
      assert t == [t[0]] + t[1..];
    }
  }

  /**
   * A frame with a `code` string requests exactly one container, built
   * from that code and the host workspace; a container that was created is
   * removed exactly once, right after the run; the peer then gets the
   * result and the filesystem hint, in that order, unless the removal
   * raised, in which case it gets only the 1011 close.
   */
  lemma CodeFrameEffects(host: Option<string>, data: Json, exec: Exec)
    requires data.JObj? && "code" in data.fields && data.fields["code"].JStr?
    ensures var r := StepEffects(host, Step(Received(data), exec));
      var code := data.fields["code"].s;
      && r.effects[0] == RunContainer(ContainerSpec("python:3.11-slim", Command(code), true, "256m", 512,
                                                    MountsFor(host).volumes, MountsFor(host).workingDir))
      && (exec.Started? <==> RemoveContainer in r.effects)
      && (exec.Started? ==> r.effects[1] == RemoveContainer && RemoveContainer !in r.effects[2..])
      && (r.stop <==> exec.Started? && exec.removal == RemoveFailed)
      && (!r.stop ==> Channel(r.effects) == [Send(Outcome(exec)), Send(FilesystemHint)])
      && (r.stop ==> Channel(r.effects) == [Close(1011)])
  {
    RunRemoval(ContainerRequest(data.fields["code"].s, host), exec);
    RunChannel(ContainerRequest(data.fields["code"].s, host), exec);
  }

  /** A frame that is not JSON, not an object, or whose `code` is not a string ends the session with 1011. */
  lemma MalformedFrameCloses(host: Option<string>, step: Step)
    requires step.frame.Undecodable?
      || (step.frame.Received? && (CodeOf(step.frame.data).CodeNotText? || CodeOf(step.frame.data).NotAnObject?))
    ensures StepEffects(host, step) == StepResult([Close(1011)], true)
  {
  }

  /** The frames that keep the loop going are exactly the skipped ones and runs whose clean-up did not raise. */
  lemma KeepsOpenCases(host: Option<string>, step: Step)
    ensures KeepsOpen(host, step) <==>
      && step.frame.Received?
      && (CodeOf(step.frame.data) == NoCode
          || (CodeOf(step.frame.data).CodeText? && !(step.exec.Started? && step.exec.removal == RemoveFailed)))
  {
    match step.frame
    case Disconnected =>
    case Undecodable =>
    case Received(data) =>
      var field := CodeOf(data);
      if field.CodeText? {
        RunRemoval(ContainerRequest(field.code, host), step.exec);
      }
  }

  /** What the peer receives from one iteration that keeps the session open. */
  lemma OpenStepChannel(host: Option<string>, step: Step)
    requires KeepsOpen(host, step)
    ensures Channel(StepEffects(host, step).effects) == Replies([step])
  {
    KeepsOpenCases(host, step);
    if CodeOf(step.frame.data).CodeText? {
      RunChannel(ContainerRequest(CodeOf(step.frame.data).code, host), step.exec);
    }
    assert [step][1..] == [];
  }

  lemma RepliesOfCons(steps: seq<Step>)
    requires steps != []
    ensures Replies(steps) == Replies([steps[0]]) + Replies(steps[1..])
    ensures CodeMessages(steps) == CodeMessages([steps[0]]) + CodeMessages(steps[1..])
  {
    assert [steps[0]][1..] == [];
  }

  /**
   * While every frame keeps the session open, what the peer receives is
   * exactly the reference `Replies`: for each frame with code, in order, its
   * result and then the filesystem hint, and nothing for the others; so
   * twice as many messages as frames with code.
   */
  lemma {:induction false} LoopReplies(host: Option<string>, steps: seq<Step>)
    requires forall i :: 0 <= i < |steps| ==> KeepsOpen(host, steps[i])
    ensures Channel(LoopTrace(host, steps)) == Replies(steps)
    ensures |Replies(steps)| == 2 * CodeMessages(steps)
  {
    if steps != [] {
      var r := StepEffects(host, steps[0]);
      assert KeepsOpen(host, steps[0]);
      LoopReplies(host, steps[1..]);
      ChannelAppend(r.effects, LoopTrace(host, steps[1..]));
      OpenStepChannel(host, steps[0]);
      RepliesOfCons(steps);
    }
  }

  /** What the peer receives from the frame that ends the session: nothing after a disconnect, otherwise the 1011 close. */
  lemma StopStepChannel(host: Option<string>, step: Step)
    requires !KeepsOpen(host, step)
    ensures Channel(StepEffects(host, step).effects) == if step.frame.Disconnected? then [] else [Close(1011)]
  {
    KeepsOpenCases(host, step);
    if step.frame.Received? && CodeOf(step.frame.data).CodeText? {
      RunChannel(ContainerRequest(CodeOf(step.frame.data).code, host), step.exec);
    } else if !step.frame.Disconnected? {
      assert StepEffects(host, step).effects == [Close(InternalError)];
      ChannelOfMessages([Close(InternalError)]);
    }
  }

  /** The reference replies of the first `j` frames split over the first frame and the next `j - 1`. */
  lemma RepliesOfPrefix(steps: seq<Step>, j: nat)
    requires 0 < j <= |steps|
    ensures Replies(steps[..j]) == Replies([steps[0]]) + Replies(steps[1..][..j - 1])
  {
    var prefix := steps[..j];
    RepliesOfCons(prefix);
    assert prefix[0] == steps[0] && prefix[1..] == steps[1..][..j - 1];
  }

  /** One open frame in front of a stretch whose replies are known adds its own replies in front. */
  lemma OpenFrameReplies(host: Option<string>, steps: seq<Step>, j: nat, last: seq<Effect>)
    requires 0 < j < |steps| && KeepsOpen(host, steps[0])
    requires Channel(LoopTrace(host, steps[1..])) == Replies(steps[1..][..j - 1]) + last
    ensures Channel(LoopTrace(host, steps)) == Replies(steps[..j]) + last
  {
    LoopTraceUnfold(host, steps, 0);
    assert steps[0..] == steps;
    ChannelAppend(StepEffects(host, steps[0]).effects, LoopTrace(host, steps[1..]));
    OpenStepChannel(host, steps[0]);
    RepliesOfPrefix(steps, j);
    AppendAssociative(Replies([steps[0]]), Replies(steps[1..][..j - 1]), last);
  }

  /**
   * A session whose frame `j` is the first to leave the loop shows the peer
   * exactly the reference replies of the frames before `j`, followed by what
   * frame `j` itself produces; nothing of later frames.
   */
  lemma {:induction false} LoopRepliesUntilStop(host: Option<string>, steps: seq<Step>, j: nat)
    requires j < |steps| && !KeepsOpen(host, steps[j])
    requires forall i :: 0 <= i < j ==> KeepsOpen(host, steps[i])
    ensures Channel(LoopTrace(host, steps)) == Replies(steps[..j]) + Channel(StepEffects(host, steps[j]).effects)
    decreases j
  {
    var last := Channel(StepEffects(host, steps[j]).effects);
    if j == 0 {
      assert LoopTrace(host, steps) == StepEffects(host, steps[0]).effects;
      assert steps[..0] == [];
      assert Replies(steps[..0]) + last == last;
    } else {
      var rest := steps[1..];
      assert KeepsOpen(host, steps[0]);
      assert rest[j - 1] == steps[j];
      assert forall i :: 0 <= i < j - 1 ==> rest[i] == steps[i + 1];
      LoopRepliesUntilStop(host, rest, j - 1);
      OpenFrameReplies(host, steps, j, last);
    }
  }

  /**
   * A session that ends with the peer disconnecting at frame `j` showed the
   * peer exactly, in order, the result and the filesystem hint of each
   * earlier frame with code.
   */
  lemma DisconnectReplies(host: Option<string>, steps: seq<Step>, j: nat)
    requires j < |steps| && steps[j].frame.Disconnected?
    requires forall i :: 0 <= i < j ==> KeepsOpen(host, steps[i])
    ensures Channel(LoopTrace(host, steps)) == Replies(steps[..j])
    ensures |Channel(LoopTrace(host, steps))| == 2 * CodeMessages(steps[..j])
  {
    LoopRepliesUntilStop(host, steps, j);
    StopStepChannel(host, steps[j]);
    assert Replies(steps[..j]) + [] == Replies(steps[..j]);
    var prefix := steps[..j];
    assert forall i :: 0 <= i < |prefix| ==> KeepsOpen(host, prefix[i]);
    LoopReplies(host, prefix);
  }

  /**
   * A failed token check closes with 1008 and nothing else: no accept, no
   * message. Otherwise the connection is accepted first and exactly once.
   */
  lemma AcceptOnlyAfterAuthentication(user: Option<User>, dockerReady: bool, host: Option<string>, steps: seq<Step>)
    ensures var t := SessionTrace(user, dockerReady, host, steps);
      && (user.None? ==> t == [Close(1008)])
      && (Accept in t <==> user.Some?)
      && (user.Some? ==> t[0] == Accept && Accept !in t[1..])
  {
    var t := SessionTrace(user, dockerReady, host, steps);
    if user.Some? && dockerReady {
      LoopShape(host, steps);
      if Configured(host) {
        assert t[1..] == LoopTrace(host, steps);
      } else {
        assert t[1..] == [Send(HostMissing)] + LoopTrace(host, steps);
      }
    }
  }

  /**
   * Without a Docker client the peer gets one `stderr` message and a normal
   * close; without a host workspace it gets one `stderr` warning and the
   * loop runs all the same.
   */
  lemma PreludeOutcomes(user: Option<User>, dockerReady: bool, host: Option<string>, steps: seq<Step>)
    requires user.Some?
    ensures !dockerReady ==>
      SessionTrace(user, dockerReady, host, steps) ==
        [Accept, Send(OutMsg(Stderr, "Erro Crítico: O servidor não está conectado ao Docker.")), Close(1000)]
    ensures dockerReady && !Configured(host) ==>
      SessionTrace(user, dockerReady, host, steps) ==
        [Accept, Send(OutMsg(Stderr, "Erro Crítico: O servidor não está configurado com HOST_WORKSPACE_PATH."))]
        + LoopTrace(host, steps)
    ensures dockerReady && Configured(host) ==> SessionTrace(user, dockerReady, host, steps) == [Accept] + LoopTrace(host, steps)
  {
  }

  /** In every session a close, if any, is the last effect: nothing is sent or run after it. */
  lemma CloseIsFinal(user: Option<User>, dockerReady: bool, host: Option<string>, steps: seq<Step>)
    ensures CloseOnlyAtEnd(SessionTrace(user, dockerReady, host, steps))
  {
    if user.Some? && dockerReady {
      LoopShape(host, steps);
      var pre := if Configured(host) then [Accept] else [Accept, Send(HostMissing)];
      assert SessionTrace(user, dockerReady, host, steps) == pre + LoopTrace(host, steps);
      AppendShape(pre, LoopTrace(host, steps), MountsFor(host));
    }
  }
}
