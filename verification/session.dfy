/** The session state machine (`Context::perform_all_enter` and the helpers it calls
    in src/docker.rs). It pulls the image, creates and starts the container, runs the
    enabled provisioning steps as batched execs, runs the primary command attached,
    and deletes the container. Every engine answer comes from the oracle in `Env`.
    The session's requests are recorded in the trace, and the "[cur/total]" step
    counters it displays are recorded in `shown`. */
module Session {
  import opened Wrappers
  import opened Text
  import opened Ints
  import opened Errors
  import opened Diagnostics
  import opened PullProgress
  import opened Engine

  // ---------------------------------------------------------------------------
  // Inputs and state

  /** How the host's shell history reaches the guest. */
  datatype HistorySync = NoSync | Mount | Copy

  /** The parsed command line. */
  datatype Args = Args(
    verbose: bool,
    updateSystem: bool,
    updatePkgfile: bool,
    roRoot: bool,
    roCwd: bool,
    disableCwdMount: bool,
    noNetwork: bool,
    extraPackages: Option<string>,
    extraAurPackages: Option<string>,
    privileged: bool,
    chaoticAur: bool,
    landware: bool,
    command: seq<string>,
    syncZshHistory: HistorySync)

  /** Everything outside the process: host facts, local terminal, engine replies. */
  datatype Env = Env(host: Host, terminal: Terminal, engine: EngineReplies)

  /** `Context`: whether `connect` succeeded, and the container id, which keeps its
      empty default until creation succeeds. */
  datatype Context = Context(connected: bool, containerId: string)

  /** The context plus what the session has done so far: the requests issued, the
      step counters displayed, and how many execs were created (which selects the
      oracle's reply for the next one). */
  datatype State = State(ctx: Context, trace: seq<Op>, shown: seq<int>, slots: nat)

  datatype Run<T> = Done(state: State, value: T) | Failed(state: State, error: Error) {
    predicate IsFailure() {
      Failed?
    }

    function PropagateFailure<U>(): Run<U>
      requires Failed?
    {
      Failed(state, error)
    }

    function Extract(): (State, T)
      requires Done?
    {
      (state, value)
    }
  }

  function Issue(st: State, op: Op): State {
    st.(trace := st.trace + [op])
  }

  /** `spinner.set_prefix(format!("[{n}/{total}]"))`. */
  function Show(st: State, n: int): State {
    st.(shown := st.shown + [n])
  }

  // ---------------------------------------------------------------------------
  // Provisioning tasks

  datatype Source = Repo | Aur

  /** One batched exec of the provisioning phase. */
  datatype Task =
    | AddChaoticAur
    | AddLandware
    | UpgradeSystem
    | RefreshPkgfile
    | Search(source: Source, pkg: string)
    | Install(source: Source, pkg: string)

  /** The indentation of every line of the two raw-string scripts: five tabs. */
  const RawIndent: string := "\t\t\t\t\t"

  /** A raw-string script as the source writes it: every line starts on a new line
      and is indented by `indent`. */
  function IndentedLines(lines: seq<string>, indent: string): string {
    if |lines| == 0 then "" else "\n" + indent + lines[0] + IndentedLines(lines[1..], indent)
  }

  /** The commands that add the Chaotic-AUR repository, one per line. */
  const ChaoticAurLines: seq<string> := [
    "sudo pacman-key --init &&",
    "sudo pacman-key --populate &&",
    "sudo pacman-key --recv-key 3056513887B78AEB --keyserver keyserver.ubuntu.com &&",
    "sudo pacman-key --lsign-key 3056513887B78AEB &&",
    "sudo pacman -U --needed --noconfirm 'https://cdn-mirror.chaotic.cx/chaotic-aur/chaotic-keyring.pkg.tar.zst' &&",
    "yes | sudo pacman -U --needed --noconfirm 'https://cdn-mirror.chaotic.cx/chaotic-aur/chaotic-mirrorlist.pkg.tar.zst' &&",
    "printf '\\n\\n# Added by tempsystem\\n[chaotic-aur]\\nInclude = /etc/pacman.d/chaotic-mirrorlist' | sudo tee -a /etc/pacman.conf && ",
    "sudo pacman -Sy --noconfirm"]

  /** The commands that add the landware repository, one per line. */
  const LandwareLines: seq<string> := [
    "printf '\\n\\n# Added by tempsystem\\n[landware]\\nServer = https://repo.kage.sj.strangled.net/landware/x86_64\\nSigLevel = DatabaseNever PackageNever TrustedOnly' | sudo tee -a /etc/pacman.conf &&",
    "sudo pacman -Sy --noconfirm"]

  /** The shell command each task runs. */
  function CommandOf(t: Task): string {
    match t
    case AddChaoticAur => IndentedLines(ChaoticAurLines, RawIndent)
    case AddLandware => IndentedLines(LandwareLines, RawIndent)
    case UpgradeSystem => "/bin/sudo /bin/pacman -Syu --noconfirm"
    case RefreshPkgfile => "sudo pkgfile -u"
    case Search(Repo, p) => "/bin/pacman -Ssq \"^" + p + "$\""
    case Install(Repo, p) => "/bin/sudo /bin/pacman -S --needed --noconfirm " + p
    case Search(Aur, p) => "/bin/yay --aur -Ssq \"^" + p + "$\""
    case Install(Aur, p) => "/bin/yay --sync --needed --noconfirm --noprogressbar " + p
  }

  function TaskConfig(t: Task): ExecConfig {
    ExecConfigFor(CommandOf(t), false)
  }

  /** The error a task reports for a non-zero exit status, with the diagnostic line
      taken from its output where the source takes one. */
  function FailureOf(t: Task, status: I64, output: string): Error {
    match t
    case AddChaoticAur => ChaoticAUR(status, ErrorFromEither(output))
    case AddLandware => Landware(status)
    case UpgradeSystem => SystemUpdate(status, ErrorFromPacman(output))
    case RefreshPkgfile => Pkgfile(status)
    case Search(_, p) => PackageDNE(p)
    case Install(_, _) => PackageInstall(status, ErrorFromPacman(output))
  }

  /** How the engine's reply for one batched exec reads, independently of the
      requests made: the transport error, or the exit status (absent means 0) with
      the output gathered up to the end of the stream or its first error. */
  function BatchOutcome(reply: ExecReply): Result<(I64, string), Error> {
    match reply.created
    case Err(cause) => Err(ExecCreate(cause))
    case Ok(_) => StartOutcome(reply)
  }

  function StartOutcome(reply: ExecReply): Result<(I64, string), Error> {
    match reply.started
    case StartRefused(cause) => Err(ExecStart(cause))
    case StartedDetached => Err(ExpectedAttached)
    case StartedAttached(chunks) =>
      match reply.inspected
      case Err(cause) => Err(ExecInspect(cause))
      case Ok(code) => Ok((code.GetOr(0), Concat(Delivered(chunks))))
  }

  /** Whether a task's exec, answered by `reply`, stops the session, and with what. */
  function Verdict(t: Task, reply: ExecReply): Option<Error> {
    match BatchOutcome(reply)
    case Err(e) => Some(e)
    case Ok((status, output)) => if status != 0 then Some(FailureOf(t, status, output)) else None
  }

  /** Whether the `slot`-th exec's reply lets the session go on: the exec ran and
      exited with status 0. */
  predicate Passes(env: Env, slot: nat) {
    BatchOutcome(env.engine.execs(slot)).Ok? && BatchOutcome(env.engine.execs(slot)).value.0 == 0
  }

  /** A task's verdict is clear exactly when its reply passes. */
  lemma VerdictClearIffPasses(env: Env, t: Task, slot: nat)
    ensures Verdict(t, env.engine.execs(slot)).None? <==> Passes(env, slot)
  {
  }

  // ---------------------------------------------------------------------------
  // Engine calls

  datatype ExecHandle = ExecHandle(id: string, slot: nat)

  /** `create_exec`. */
  function CreateExec(st: State, env: Env, command: string, attach: bool): (r: Run<ExecHandle>)
    ensures r.state.ctx == st.ctx && r.state.shown == st.shown
    ensures !st.ctx.connected ==> r == Failed(st, NotConnected)
    ensures st.ctx.connected ==>
              && r.state.trace == st.trace + [CreateExecRequest(st.ctx.containerId, ExecConfigFor(command, attach))]
              && r.state.slots == st.slots + 1
              && (r.Done? <==> env.engine.execs(st.slots).created.Ok?)
              && (r.Done? ==> r.value == ExecHandle(env.engine.execs(st.slots).created.value, st.slots))
              && (r.Failed? ==> r.error == ExecCreate(env.engine.execs(st.slots).created.error))
  {
    if !st.ctx.connected then Failed(st, NotConnected)
    else
      var st1 := Issue(st, CreateExecRequest(st.ctx.containerId, ExecConfigFor(command, attach))).(slots := st.slots + 1);
      match env.engine.execs(st.slots).created
      case Ok(id) => Done(st1, ExecHandle(id, st.slots))
      case Err(cause) => Failed(st1, ExecCreate(cause))
  }

  /** Requests that are neither exec creations nor container removals. */
  predicate Quiet(ops: seq<Op>) {
    forall k :: 0 <= k < |ops| ==> !ops[k].CreateExecRequest? && !ops[k].RemoveContainerRequest?
  }

  lemma {:induction false} QuietOps(ops: seq<Op>)
    requires Quiet(ops)
    ensures Execs(ops) == [] && Removals(ops) == []
  {
    if |ops| > 0 {
      QuietOps(ops[1..]);
    }
  }

  /** One quiet request is a quiet extension. */
  lemma QuietOne(before: seq<Op>, op: Op)
    requires !op.CreateExecRequest? && !op.RemoveContainerRequest?
    ensures (before + [op])[..|before|] == before && (before + [op])[|before|..] == [op]
    ensures Quiet((before + [op])[|before|..])
  {
    assert (before + [op])[|before|..] == [op];
  }

  /** A quiet request followed by quiet requests is a quiet extension. */
  lemma QuietAfterOne(before: seq<Op>, op: Op, after: seq<Op>)
    requires !op.CreateExecRequest? && !op.RemoveContainerRequest?
    requires |before| < |after| && after[..|before| + 1] == before + [op]
    requires Quiet(after[|before| + 1..])
    ensures after[..|before|] == before && after[|before|] == op
    ensures Quiet(after[|before|..])
  {
    assert after[..|before|] == after[..|before| + 1][..|before|];
    assert after[|before|] == after[..|before| + 1][|before|];
    forall k | 0 <= k < |after| - |before|
      ensures !after[|before|..][k].CreateExecRequest? && !after[|before|..][k].RemoveContainerRequest?
    {
      if k > 0 {
        assert after[|before|..][k] == after[|before| + 1..][k - 1];
      }
    }
  }

  /** A quiet extension followed by one more quiet request is a quiet extension. */
  lemma QuietThenOne(before: seq<Op>, mid: seq<Op>, op: Op)
    requires !op.CreateExecRequest? && !op.RemoveContainerRequest?
    requires |before| <= |mid| && mid[..|before|] == before
    requires Quiet(mid[|before|..])
    ensures (mid + [op])[..|before|] == before
    ensures Quiet((mid + [op])[|before|..])
  {
    assert (mid + [op])[..|before|] == mid[..|before|];
    assert (mid + [op])[|before|..] == mid[|before|..] + [op];
  }

  /** The error a failed write or flush of the local terminal reports. */
  function StdoutError(f: StdoutFault): Error {
    match f
    case WriteFault(cause) => StdoutWrite(cause)
    case FlushFault(cause) => StdoutFlush(cause)
  }

  /** The first chunk from `i` on whose write or flush fails, or `n` when none before
      `n` does. */
  function FirstStdoutFault(term: Terminal, i: nat, n: nat): (j: nat)
    requires i <= n
    ensures i <= j <= n
    ensures forall k :: i <= k < j ==> term.stdout(k).None?
    ensures j < n ==> term.stdout(j).Some?
    decreases n - i
  {
    if i == n || term.stdout(i).Some? then i else FirstStdoutFault(term, i + 1, n)
  }

  /** The output loop of an attached exec: each chunk written to the local terminal
      and flushed, in order, until the stream ends or a write or flush fails. */
  function Relay(st: State, term: Terminal, texts: seq<string>, i: nat): (r: Run<Option<string>>)
    requires i <= |texts|
    ensures r.state.ctx == st.ctx && r.state.shown == st.shown && r.state.slots == st.slots
    ensures |st.trace| <= |r.state.trace| <= |st.trace| + |texts| - i
    ensures r.state.trace[..|st.trace|] == st.trace
    ensures forall k :: |st.trace| <= k < |r.state.trace| ==> r.state.trace[k] == Relayed(texts[i + k - |st.trace|])
    ensures r.Done? ==> |r.state.trace| == |st.trace| + |texts| - i && r.value == None
    ensures r.Failed? ==> r.error.StdoutWrite? || r.error.StdoutFlush?
    ensures r.Done? <==> forall k :: i <= k < |texts| ==> term.stdout(k).None?
    // It stops at the first failing chunk with that chunk's fault: the chunks before
    // it were written, and so was it when only its flush failed.
    ensures var j := FirstStdoutFault(term, i, |texts|);
            && (r.Failed? <==> j < |texts|)
            && (r.Failed? ==>
                  && r.error == StdoutError(term.stdout(j).value)
                  && |r.state.trace| == |st.trace| + (j - i) + (if term.stdout(j).value.FlushFault? then 1 else 0))
    decreases |texts| - i
  {
    if i == |texts| then Done(st, None)
    else match term.stdout(i)
      case Some(WriteFault(cause)) => Failed(st, StdoutWrite(cause))
      case Some(FlushFault(cause)) => Failed(Issue(st, Relayed(texts[i])), StdoutFlush(cause))
      case None => Relay(Issue(st, Relayed(texts[i])), term, texts, i + 1)
  }

  /** The attached half of `start_exec`, after the start: one resize to the local
      terminal's size, raw mode, then the output loop. */
  function Bridge(st: State, term: Terminal, execId: string, resized: Option<Fault>, texts: seq<string>): (r: Run<Option<string>>)
    ensures r.state.ctx == st.ctx && r.state.shown == st.shown && r.state.slots == st.slots
    ensures |st.trace| <= |r.state.trace| <= |st.trace| + 1 + |texts|
    ensures r.state.trace[..|st.trace|] == st.trace
    // The resize is the first request, and every write that follows it relays the
    // next chunk, unmodified and in order.
    ensures |r.state.trace| > |st.trace| ==>
              term.size.Ok? && r.state.trace[|st.trace|] == ResizeExecRequest(execId, term.size.value.rows, term.size.value.cols)
    ensures forall k :: |st.trace| < k < |r.state.trace| ==> r.state.trace[k] == Relayed(texts[k - |st.trace| - 1])
    ensures r.Done? ==> |r.state.trace| == |st.trace| + 1 + |texts| && r.value == None
    ensures r.Failed? ==> r.error.TerminalSize? || r.error.ExecResize? || r.error.Rawmode?
                          || r.error.StdoutWrite? || r.error.StdoutFlush?
    ensures Quiet(r.state.trace[|st.trace|..])
    ensures r.Done? <==> && term.size.Ok? && resized.None? && term.rawMode.None?
                         && forall k :: 0 <= k < |texts| ==> term.stdout(k).None?
    // Which fault stops it, in the order they are met: the size query (before any
    // request), the resize, raw mode, then the first failing chunk.
    ensures term.size.Err? ==> r == Failed(st, TerminalSize(term.size.error))
    ensures term.size.Ok? && resized.Some? ==>
              r.Failed? && r.error == ExecResize(resized.value) && |r.state.trace| == |st.trace| + 1
    ensures term.size.Ok? && resized.None? && term.rawMode.Some? ==>
              r.Failed? && r.error == Rawmode(term.rawMode.value) && |r.state.trace| == |st.trace| + 1
    ensures term.size.Ok? && resized.None? && term.rawMode.None? ==>
              var j := FirstStdoutFault(term, 0, |texts|);
              && (r.Failed? <==> j < |texts|)
              && (r.Failed? ==>
                    && r.error == StdoutError(term.stdout(j).value)
                    && |r.state.trace| == |st.trace| + 1 + j + (if term.stdout(j).value.FlushFault? then 1 else 0))
  {
    match term.size
    case Err(cause) => Failed(st, TerminalSize(cause))
    case Ok(size) =>
      var st1 := Issue(st, ResizeExecRequest(execId, size.rows, size.cols));
      if resized.Some? then Failed(st1, ExecResize(resized.value))
      else if term.rawMode.Some? then Failed(st1, Rawmode(term.rawMode.value))
      else Relay(st1, term, texts, 0)
  }

  /** The first thing that stops an attached exec once it is created, in the order
      `start_exec` meets them, or none when it runs to its end. */
  function AttachedError(term: Terminal, reply: ExecReply): Option<Error> {
    match reply.started
    case StartRefused(cause) => Some(ExecStart(cause))
    case StartedDetached => Some(ExpectedAttached)
    case StartedAttached(chunks) =>
      var texts := Delivered(chunks);
      var j := FirstStdoutFault(term, 0, |texts|);
      if term.size.Err? then Some(TerminalSize(term.size.error))
      else if reply.resized.Some? then Some(ExecResize(reply.resized.value))
      else if term.rawMode.Some? then Some(Rawmode(term.rawMode.value))
      else if j < |texts| then Some(StdoutError(term.stdout(j).value))
      else if reply.inspected.Err? then Some(ExecInspect(reply.inspected.error))
      else None
  }

  /** `start_exec`: start, stream (to the terminal when attached, into a buffer
      otherwise), then inspect for the exit code, which defaults to 0. */
  function StartExec(st: State, env: Env, h: ExecHandle, attach: bool): (r: Run<(I64, Option<string>)>)
    ensures r.state.ctx == st.ctx && r.state.shown == st.shown && r.state.slots == st.slots
    ensures |st.trace| <= |r.state.trace| && r.state.trace[..|st.trace|] == st.trace
    ensures Quiet(r.state.trace[|st.trace|..])
    ensures st.ctx.connected && !attach ==>
              match StartOutcome(env.engine.execs(h.slot))
              case Err(e) => r == Failed(r.state, e)
              case Ok((status, output)) => r == Done(r.state, (status, Some(output)))
    ensures st.ctx.connected && attach && r.Done? ==>
              var reply := env.engine.execs(h.slot);
              && reply.started.StartedAttached? && reply.inspected.Ok?
              && r.value == (reply.inspected.value.GetOr(0), None)
    // Attached, it fails with the first thing that goes wrong, and only then.
    ensures st.ctx.connected && attach ==>
              var e := AttachedError(env.terminal, env.engine.execs(h.slot));
              && (r.Failed? <==> e.Some?)
              && (r.Failed? ==> r.error == e.value)
    // The start is the first request; once the output is drained, the inspection
    // is the last one.
    ensures !st.ctx.connected ==> r == Failed(st, NotConnected)
    ensures st.ctx.connected ==>
              && |st.trace| < |r.state.trace|
              && r.state.trace[|st.trace|] == StartExecRequest(h.id)
              && (r.Done? || r.error.ExecInspect? ==> r.state.trace[|r.state.trace| - 1] == InspectExecRequest(h.id))
  {
    if !st.ctx.connected then Failed(st, NotConnected) else Started(st, env, h, attach)
  }

  /** `start_exec` with the engine at hand: the start request, then, when the exec
      started with its output attached, the stream and the inspection. */
  function Started(st: State, env: Env, h: ExecHandle, attach: bool): (r: Run<(I64, Option<string>)>)
    requires st.ctx.connected
    ensures r.state.ctx == st.ctx && r.state.shown == st.shown && r.state.slots == st.slots
    ensures |st.trace| < |r.state.trace| && r.state.trace[..|st.trace|] == st.trace
    ensures r.state.trace[|st.trace|] == StartExecRequest(h.id)
    ensures Quiet(r.state.trace[|st.trace|..])
    ensures !attach ==>
              match StartOutcome(env.engine.execs(h.slot))
              case Err(e) => r == Failed(r.state, e)
              case Ok((status, output)) => r == Done(r.state, (status, Some(output)))
    ensures attach ==>
              var reply := env.engine.execs(h.slot);
              var e := AttachedError(env.terminal, reply);
              && (r.Failed? <==> e.Some?)
              && (r.Failed? ==> r.error == e.value)
              && (r.Done? ==> reply.started.StartedAttached? && reply.inspected.Ok?
                              && r.value == (reply.inspected.value.GetOr(0), None))
    ensures r.Done? || r.error.ExecInspect? ==> r.state.trace[|r.state.trace| - 1] == InspectExecRequest(h.id)
  {
    var reply := env.engine.execs(h.slot);
    var st1 := Issue(st, StartExecRequest(h.id));
    QuietOne(st.trace, StartExecRequest(h.id));
    match reply.started
    case StartRefused(cause) => Failed(st1, ExecStart(cause))
    case StartedDetached => Failed(st1, ExpectedAttached)
    case StartedAttached(_) => Streamed(st, env, h, attach)
  }

  /** `start_exec` once the engine has started the exec with its output attached:
      the start request, then the stream and the inspection. */
  function Streamed(st: State, env: Env, h: ExecHandle, attach: bool): (r: Run<(I64, Option<string>)>)
    requires env.engine.execs(h.slot).started.StartedAttached?
    ensures r.state.ctx == st.ctx && r.state.shown == st.shown && r.state.slots == st.slots
    ensures |st.trace| < |r.state.trace| && r.state.trace[..|st.trace|] == st.trace
    ensures r.state.trace[|st.trace|] == StartExecRequest(h.id)
    ensures Quiet(r.state.trace[|st.trace|..])
    ensures !attach ==>
              match StartOutcome(env.engine.execs(h.slot))
              case Err(e) => r == Failed(r.state, e)
              case Ok((status, output)) => r == Done(r.state, (status, Some(output)))
    ensures attach ==>
              var reply := env.engine.execs(h.slot);
              var e := AttachedError(env.terminal, reply);
              && (r.Failed? <==> e.Some?)
              && (r.Failed? ==> r.error == e.value)
              && (r.Done? ==> reply.inspected.Ok? && r.value == (reply.inspected.value.GetOr(0), None))
    ensures r.Done? || r.error.ExecInspect? ==> r.state.trace[|r.state.trace| - 1] == InspectExecRequest(h.id)
  {
    var st1 := Issue(st, StartExecRequest(h.id));
    var drained := Drain(st1, env, h, attach);
    QuietAfterOne(st.trace, StartExecRequest(h.id), drained.state.trace);
    drained
  }

  /** The rest of `start_exec` once the exec has started with its output attached:
      stream the output, then inspect the exec for its exit code. */
  function Drain(st: State, env: Env, h: ExecHandle, attach: bool): (r: Run<(I64, Option<string>)>)
    requires env.engine.execs(h.slot).started.StartedAttached?
    ensures r.state.ctx == st.ctx && r.state.shown == st.shown && r.state.slots == st.slots
    ensures |st.trace| <= |r.state.trace| && r.state.trace[..|st.trace|] == st.trace
    ensures Quiet(r.state.trace[|st.trace|..])
    ensures !attach ==>
              match StartOutcome(env.engine.execs(h.slot))
              case Err(e) => r == Failed(r.state, e)
              case Ok((status, output)) => r == Done(r.state, (status, Some(output)))
    ensures attach ==>
              var reply := env.engine.execs(h.slot);
              var e := AttachedError(env.terminal, reply);
              && (r.Failed? <==> e.Some?)
              && (r.Failed? ==> r.error == e.value)
              && (r.Done? ==> reply.inspected.Ok? && r.value == (reply.inspected.value.GetOr(0), None))
    ensures r.Done? || r.error.ExecInspect? ==>
              |st.trace| < |r.state.trace| && r.state.trace[|r.state.trace| - 1] == InspectExecRequest(h.id)
  {
    var reply := env.engine.execs(h.slot);
    var texts := Delivered(reply.started.output);
    var streamed :- if attach then Bridge(st, env.terminal, h.id, reply.resized, texts)
                    else Done(st, Some(Concat(texts)));
    var st2 := Issue(streamed.0, InspectExecRequest(h.id));
    QuietThenOne(st.trace, streamed.0.trace, InspectExecRequest(h.id));
    match reply.inspected
    case Err(cause) => Failed(st2, ExecInspect(cause))
    case Ok(code) => Done(st2, (code.GetOr(0), streamed.1))
  }

  /** One provisioning task: create and start a batched exec, and stop the session
      with the task's error when the exit status is non-zero. Connected, it issues
      exactly one exec creation, of the task's description, and goes on exactly when
      the task's verdict on the engine's reply is clear; otherwise it fails with that
      verdict. */
  function RunTask(st: State, env: Env, t: Task): (r: Run<()>)
    ensures r.state.ctx == st.ctx && r.state.shown == st.shown
    ensures !st.ctx.connected ==> r == Failed(st, NotConnected)
    ensures st.ctx.connected ==>
              && r.state.slots == st.slots + 1
              && |st.trace| < |r.state.trace|
              && r.state.trace[..|st.trace| + 1] == st.trace + [CreateExecRequest(st.ctx.containerId, TaskConfig(t))]
              && Quiet(r.state.trace[|st.trace| + 1..])
              && (r.Done? <==> Verdict(t, env.engine.execs(st.slots)).None?)
              && (r.Failed? ==> Verdict(t, env.engine.execs(st.slots)) == Some(r.error))
  {
    var h :- CreateExec(st, env, CommandOf(t), false);
    var ran :- StartExec(h.0, env, h.1, false);
    var (status, output) := ran.1;
    if status != 0 then Failed(ran.0, FailureOf(t, status, output.GetOr("")))
    else Done(ran.0, ())
  }

  /** `update_system`. */
  function UpdateSystem(st: State, env: Env): Run<()> {
    RunTask(st, env, UpgradeSystem)
  }

  /** A search-then-install pair per package. */
  function PackageTasks(source: Source, pkgs: seq<string>): (r: seq<Task>)
    ensures |r| == 2 * |pkgs|
    ensures forall i :: 0 <= i < |pkgs| ==> r[2 * i] == Search(source, pkgs[i]) && r[2 * i + 1] == Install(source, pkgs[i])
  {
    if |pkgs| == 0 then [] else [Search(source, pkgs[0]), Install(source, pkgs[0])] + PackageTasks(source, pkgs[1..])
  }

  /** The loop of `install_packages` / `install_aur_packages` over the packages still
      to install, the first of them under `counter`: show "[counter/total]", search,
      install, then go on with the next package under `counter + 1`. The loop starts
      with the counter it is given, so the i-th package (from 0) gets the counter
      "[i + current/total]". */
  function InstallEach(st: State, env: Env, source: Source, pkgs: seq<string>, counter: nat): Run<()>
    decreases |pkgs|
  {
    if |pkgs| == 0 then Done(st, ())
    else
      var installed :- InstallOne(st, env, source, pkgs[0], counter);
      InstallEach(installed.0, env, source, pkgs[1..], counter + 1)
  }

  /** The loop body for one package: show its counter, check that the package
      exists, then install it. */
  function InstallOne(st: State, env: Env, source: Source, pkg: string, counter: nat): Run<()> {
    var searched :- RunTask(Show(st, counter), env, Search(source, pkg));
    RunTask(searched.0, env, Install(source, pkg))
  }

  /** `install_packages`. */
  function InstallPackages(st: State, env: Env, current: nat, packages: string): Run<()> {
    InstallEach(st, env, Repo, Words(packages), current)
  }

  /** `install_aur_packages`. */
  function InstallAurPackages(st: State, env: Env, current: nat, packages: string): Run<()> {
    InstallEach(st, env, Aur, Words(packages), current)
  }

  /** `pull_image`. */
  function PullStage(st: State, env: Env): Run<()> {
    if !st.ctx.connected then Failed(st, NotConnected)
    else
      var st1 := Issue(st, PullRequest(Image));
      match PullImage(env.engine.pull)
      case Err(e) => Failed(st1, e)
      case Ok(_) => Done(st1, ())
  }

  /** `create_container`, with the flags `perform_all_enter` passes it. */
  function CreateContainer(st: State, env: Env, args: Args): Run<string> {
    if !st.ctx.connected then Failed(st, NotConnected)
    else
      match Binds(!args.disableCwdMount, args.roCwd, args.syncZshHistory == Mount, env.host.cwd, env.host.home)
      case Err(e) => Failed(st, e)
      case Ok(binds) =>
        var config := ContainerConfig(Image, true, Hostname, args.noNetwork, DnsServers, args.privileged, args.roRoot, binds);
        var st1 := Issue(st, CreateContainerRequest(config));
        match env.engine.created
        case Ok(id) => Done(st1, id)
        case Err(cause) => Failed(st1, ContainerCreate(cause))
  }

  /** `start_container`. */
  function StartContainer(st: State, env: Env): Run<()> {
    if !st.ctx.connected then Failed(st, NotConnected)
    else
      var st1 := Issue(st, StartContainerRequest(st.ctx.containerId));
      match env.engine.started
      case Some(cause) => Failed(st1, ContainerStart(cause))
      case None => Done(st1, ())
  }

  /** `copy_file` of the history archive into the guest's home directory. */
  function CopyFile(st: State, env: Env, guestDest: string): Run<()> {
    if !st.ctx.connected then Failed(st, NotConnected)
    else match env.host.history
      case Some(CannotOpen(cause)) => Failed(st, OpenHistory(cause))
      case Some(CannotArchive(cause)) => Failed(st, Tar(cause))
      case None =>
        var st1 := Issue(st, UploadRequest(st.ctx.containerId, guestDest));
        match env.engine.uploaded
        case Some(cause) => Failed(st1, ContainerUpload(cause))
        case None => Done(st1, ())
  }

  /** `delete_container`: a forced removal of whatever id the context holds. */
  function DeleteContainer(st: State, env: Env): Run<()> {
    if !st.ctx.connected then Failed(st, NotConnected)
    else
      var st1 := Issue(st, RemoveContainerRequest(st.ctx.containerId));
      match env.engine.removed(|Removals(st.trace)|)
      case Some(cause) => Failed(st1, ContainerDelete(cause))
      case None => Done(st1, ())
  }

  // ---------------------------------------------------------------------------
  // perform_all_enter

  function Flag(b: bool): nat {
    if b then 1 else 0
  }

  function RepoPackages(args: Args): seq<string> {
    Words(args.extraPackages.GetOr(""))
  }

  function AurPackages(args: Args): seq<string> {
    Words(args.extraAurPackages.GetOr(""))
  }

  /** The advisory step total, as `perform_all_enter` computes it. */
  function TotalSteps(args: Args): nat {
    5 + |RepoPackages(args)| + |AurPackages(args)|
    + Flag(args.updateSystem) + Flag(args.updatePkgfile) + Flag(args.landware) + Flag(args.chaoticAur)
  }

  /** Pull, create (recording the id in the context), start: steps 1 to 3. */
  function Setup(ctx: Context, env: Env, args: Args): Run<()> {
    var st := State(ctx, [], [], 0);
    var pulled :- PullStage(Show(st, 1), env);
    var created :- CreateContainer(Show(pulled.0, 2), env, args);
    var st3 := created.0.(ctx := created.0.ctx.(containerId := created.1));
    StartContainer(Show(st3, 3), env)
  }

  /** One optional step: show its counter and run it when enabled. */
  function FlagStep(st: State, env: Env, enabled: bool, cur: nat, t: Task): Run<nat> {
    if enabled then
      var done :- RunTask(Show(st, cur), env, t);
      Done(done.0, cur + 1)
    else Done(st, cur)
  }

  /** The optional steps, from counter 4: the repository and maintenance steps,
      then the requested packages. The value is the next counter. */
  function Provision(st: State, env: Env, args: Args): Run<nat> {
    var prepared :- Prepare(st, env, args);
    InstallRequested(prepared.0, env, args, prepared.1)
  }

  /** The optional steps in the order the session takes them, each with the flag that
      enables it: Chaotic-AUR, landware, system update, pkgfile refresh. */
  function OptionalSteps(args: Args): seq<(bool, Task)> {
    [(args.chaoticAur, AddChaoticAur), (args.landware, AddLandware),
     (args.updateSystem, UpgradeSystem), (args.updatePkgfile, RefreshPkgfile)]
  }

  /** The optional steps from `cur` on, in order; the value is the next counter. */
  function FlagSteps(st: State, env: Env, steps: seq<(bool, Task)>, cur: nat): Run<nat>
    decreases |steps|
  {
    if |steps| == 0 then Done(st, cur)
    else
      var next :- FlagStep(st, env, steps[0].0, cur, steps[0].1);
      FlagSteps(next.0, env, steps[1..], next.1)
  }

  /** Chaotic-AUR, landware, system update and pkgfile refresh, each when enabled,
      from counter 4. */
  function Prepare(st: State, env: Env, args: Args): Run<nat> {
    FlagSteps(st, env, OptionalSteps(args), 4)
  }

  /** The packages of one source, when the option naming them is given. */
  function InstallOptional(st: State, env: Env, source: Source, cur: nat, packages: Option<string>): Run<()> {
    match packages
    case None => Done(st, ())
    case Some(pkgs) =>
      match source
      case Repo => InstallPackages(st, env, cur, pkgs)
      case Aur => InstallAurPackages(st, env, cur, pkgs)
  }

  /** The package sources in the order the session installs them, each with the
      option naming its packages: the repositories, then the AUR. */
  function RequestedSources(args: Args): seq<(Source, Option<string>)> {
    [(Repo, args.extraPackages), (Aur, args.extraAurPackages)]
  }

  /** The given sources in order from counter `cur`, one counter per package: all
      but the last, then the last. The value is the next counter. */
  function InstallSources(st: State, env: Env, sources: seq<(Source, Option<string>)>, cur: nat): Run<nat>
    decreases |sources|
  {
    if |sources| == 0 then Done(st, cur)
    else
      var before :- InstallSources(st, env, sources[..|sources| - 1], cur);
      var (source, packages) := sources[|sources| - 1];
      var done :- InstallOptional(before.0, env, source, before.1, packages);
      Done(done.0, before.1 + |Words(packages.GetOr(""))|)
  }

  /** The repository packages, then the AUR packages, when given. */
  function InstallRequested(st: State, env: Env, args: Args, cur: nat): Run<nat> {
    InstallSources(st, env, RequestedSources(args), cur)
  }

  /** The exec description of the primary command. */
  function PrimaryConfig(args: Args): ExecConfig {
    ExecConfigFor(PrimaryCommand(args.command), true)
  }

  /** With `--sync-zsh-history copy`: find the home directory, then upload the
      archived history into the guest's home directory. */
  function CopyHistory(st: State, env: Env, args: Args): Run<()> {
    if args.syncZshHistory != Copy then Done(st, ())
    else match env.host.home
      case None => Failed(st, HomeDir)
      case Some(_) => CopyFile(st, env, GuestHome)
  }

  /** "Executing" at counter `cur`: the optional history copy, the primary command,
      then "Deleting" at `total` and the in-session removal. */
  function Execute(st: State, env: Env, args: Args, cur: nat, total: nat): Run<I64> {
    var copied :- CopyHistory(Show(st, cur), env, args);
    var h :- CreateExec(copied.0, env, PrimaryCommand(args.command), true);
    var ran :- StartExec(h.0, env, h.1, true);
    var deleted :- DeleteContainer(Show(ran.0, total), env);
    Done(deleted.0, ran.1.0)
  }

  /** `perform_all_enter`: the outcome is the primary command's exit code, whatever
      its value, or the first error. */
  function PerformAllEnter(ctx: Context, env: Env, args: Args): Run<I64> {
    var ready :- Setup(ctx, env, args);
    var prov :- Provision(ready.0, env, args);
    Execute(prov.0, env, args, prov.1, TotalSteps(args))
  }
}
