/** The container engine as the session sees it. The engine itself is an oracle:
    its replies are given up front. The session's requests to it, and the writes to
    the local terminal, are recorded as a trace of `Op`s. Also here: the container and
    exec configurations, with the bind-mount list and the primary command string. */
module Engine {
  import opened Wrappers
  import opened Text
  import opened Ints
  import opened Errors
  import opened PullProgress

  /** In-container user every exec runs as. */
  const User: string := "tempsystem"
  /** Shell that wraps every exec as `zsh -c <command>`. */
  const Shell: string := "/usr/bin/zsh"
  /** Exec string for the default interactive shell. */
  const WelcomeCommand: string := "SHOW_WELCOME=true /usr/bin/zsh"
  const Hostname: string := "tempsystem"
  const DnsServers: seq<string> := ["1.1.1.1", "1.0.0.1"]
  const GuestHome: string := "/home/tempsystem"
  const WorkMount: string := "/home/tempsystem/work"
  const HistoryMount: string := "/home/tempsystem/.zsh_history"

  // ---------------------------------------------------------------------------
  // Configuration sent to the engine

  datatype ContainerConfig = ContainerConfig(
    image: string,
    tty: bool,
    hostname: string,
    networkDisabled: bool,
    dns: seq<string>,
    privileged: bool,
    readonlyRootfs: bool,
    binds: seq<string>)

  datatype ExecConfig = ExecConfig(
    attachStdout: bool,
    attachStderr: bool,
    attachStdin: bool,
    user: string,
    tty: bool,
    cmd: seq<string>)

  /** The exec description `create_exec` sends: stdin and a pseudo-terminal only when
      attached, always as the unprivileged user, always through `zsh -c`. */
  function ExecConfigFor(command: string, attach: bool): ExecConfig {
    ExecConfig(true, true, attach, User, attach, [Shell, "-c", command])
  }

  /** Bind of the working directory onto ~/work, read-only on request. */
  function CwdBind(cwd: string, readOnly: bool): string {
    cwd + ":" + WorkMount + (if readOnly then ":ro" else "")
  }

  /** Bind of the host's shell history onto the guest's. */
  function HistoryBind(home: string): string {
    home + "/.zsh_history:" + HistoryMount
  }

  /** The bind list of `create_container`: the working directory first, then the
      history file, each only when requested. Looking up the working directory or the
      home directory can fail, and only does so when that bind is requested. */
  function Binds(mountCwd: bool, roCwd: bool, mountHistory: bool,
                 cwd: Result<string, Fault>, home: Option<string>): (r: Result<seq<string>, Error>)
    ensures r.Err? <==> (mountCwd && cwd.Err?) || (mountHistory && home.None?)
    ensures mountCwd && cwd.Err? ==> r == Err(GetCWD(cwd.error))
    ensures r.Err? && !(mountCwd && cwd.Err?) ==> r == Err(HomeDir)
    ensures r.Ok? ==> |r.value| == (if mountCwd then 1 else 0) + (if mountHistory then 1 else 0)
    ensures r.Ok? && mountCwd ==> r.value[0] == CwdBind(cwd.value, roCwd)
    ensures r.Ok? && mountHistory ==> r.value[|r.value| - 1] == HistoryBind(home.value)
  {
    var first: Result<seq<string>, Error> :=
      if !mountCwd then Ok([])
      else if cwd.Err? then Err(GetCWD(cwd.error))
      else Ok([CwdBind(cwd.value, roCwd)]);
    if first.Err? then first
    else if !mountHistory then first
    else if home.None? then Err(HomeDir)
    else Ok(first.value + [HistoryBind(home.value)])
  }

  /** A bind reads back, split on ':', as host path, guest path and the optional
      read-only flag, as long as the host path has no ':' of its own. */
  lemma CwdBindRoundTrip(cwd: string, readOnly: bool)
    requires ':' !in cwd
    ensures Split(CwdBind(cwd, readOnly), ':') == [cwd, WorkMount] + (if readOnly then ["ro"] else [])
  {
    var w := WorkMount;
    assert ':' !in w;
    if readOnly {
      assert CwdBind(cwd, readOnly) == cwd + [':'] + w + [':'] + "ro";
      Split3(cwd, w, "ro", ':');
    } else {
      assert CwdBind(cwd, readOnly) == cwd + [':'] + w;
      Split2(cwd, w, ':');
    }
  }

  lemma HistoryBindRoundTrip(home: string)
    requires ':' !in home
    ensures Split(HistoryBind(home), ':') == [home + "/.zsh_history", HistoryMount]
  {
    var file, m := "/.zsh_history", HistoryMount;
    assert ':' !in file && ':' !in m;
    NotInConcat(home, file, ':');
    assert HistoryBind(home) == (home + file) + [':'] + m;
    Split2(home + file, m, ':');
  }

  // ---------------------------------------------------------------------------
  // The primary command

  function UnescapeAll(parts: seq<string>): Option<seq<string>> {
    if |parts| == 0 then Some([])
    else match (Unescape(parts[0]), UnescapeAll(parts[1..]))
      case (Some(a), Some(rest)) => Some([a] + rest)
      case _ => None
  }

  /** The exec string of the primary command: the welcome shell when the command is
      exactly the default shell, otherwise every argument escaped and joined by " ". */
  function PrimaryCommand(command: seq<string>): string {
    if command == [Shell] then WelcomeCommand else Join(EscapeAll(command), ' ')
  }

  /** For a command other than the bare default shell whose arguments contain no
      space, splitting the exec string on " " and unescaping each piece gives back
      the arguments. (An argument with a space is split by the shell.) */
  lemma {:induction false} PrimaryCommandRoundTrip(command: seq<string>)
    requires |command| >= 1 && command != [Shell]
    requires forall i :: 0 <= i < |command| ==> ' ' !in command[i]
    ensures UnescapeAll(Split(PrimaryCommand(command), ' ')) == Some(command)
  {
    var escaped := EscapeAll(command);
    forall i | 0 <= i < |escaped| ensures ' ' !in escaped[i] {
      EscapeKeepsSpaces(command[i]);
    }
    SplitJoin(escaped, ' ');
    UnescapeAllEscapeAll(command);
  }

  /** What the shell's word splitting on " " sees in the exec string of a command
      other than the bare default shell: the escapes of every argument's
      space-separated pieces, in order. So an argument holding k spaces becomes
      k + 1 words, and every other argument exactly one. */
  lemma PrimaryCommandPieces(command: seq<string>)
    requires |command| >= 1 && command != [Shell]
    ensures Split(PrimaryCommand(command), ' ') == EscapeAll(SplitEach(command, ' '))
  {
    SplitOfJoin(EscapeAll(command), ' ');
    EscapeSplitEach(command);
  }

  lemma {:induction false} UnescapeAllEscapeAll(args: seq<string>)
    ensures UnescapeAll(EscapeAll(args)) == Some(args)
  {
    if |args| > 0 {
      var e := EscapeAll(args);
      assert e[1..] == EscapeAll(args[1..]);
      UnescapeEscape(args[0]);
      UnescapeAllEscapeAll(args[1..]);
      assert [args[0]] + args[1..] == args;
    }
  }

  /** Two different argument lists can give the same exec string: the arguments are
      escaped for Rust, not quoted for the shell. */
  lemma JoinedArgumentsAreResplit()
    ensures PrimaryCommand(["ls", "a b"]) == PrimaryCommand(["ls", "a", "b"])
  {
    var one, two := ["ls", "a b"], ["ls", "a", "b"];
    assert Escape("ls") == "ls" && Escape("a b") == "a b" && Escape("a") == "a" && Escape("b") == "b";
    assert EscapeAll(one) == one;
    assert EscapeAll(two) == two;
    assert Join(one, ' ') == "ls a b";
    assert Join(two[1..], ' ') == "a b";
    assert Join(two, ' ') == "ls a b";
  }

  // ---------------------------------------------------------------------------
  // Oracle replies

  /** One item of an exec's output stream. */
  datatype Chunk = Output(text: string) | ChunkFault(cause: Fault)

  /** How `start_exec` answered. */
  datatype StartReply = StartRefused(cause: Fault) | StartedDetached | StartedAttached(output: seq<Chunk>)

  /** Everything the engine answers about one exec, in the order it is asked. */
  datatype ExecReply = ExecReply(
    created: Result<string, Fault>,
    started: StartReply,
    resized: Option<Fault>,
    inspected: Result<Option<I64>, Fault>)

  /** The engine's answers for one session: the pull stream, container creation and
      start, the n-th exec created, the upload, and the n-th removal. */
  datatype EngineReplies = EngineReplies(
    pull: seq<PullItem>,
    created: Result<string, Fault>,
    started: Option<Fault>,
    execs: nat -> ExecReply,
    uploaded: Option<Fault>,
    removed: nat -> Option<Fault>)

  datatype TermSize = TermSize(cols: nat, rows: nat)

  datatype StdoutFault = WriteFault(cause: Fault) | FlushFault(cause: Fault)

  /** The local terminal: its size, whether raw mode can be entered, and how the
      write and flush of the n-th output chunk went. */
  datatype Terminal = Terminal(
    size: Result<TermSize, Fault>,
    rawMode: Option<Fault>,
    stdout: nat -> Option<StdoutFault>)

  datatype HistoryFault = CannotOpen(cause: Fault) | CannotArchive(cause: Fault)

  /** The host facts the session reads: the working directory, the canonical home
      directory (absent when it cannot be found or canonicalised) and whether the
      history file can be opened and archived. */
  datatype Host = Host(cwd: Result<string, Fault>, home: Option<string>, history: Option<HistoryFault>)

  /** The text chunks an output loop consumes: `while let Some(Ok(_))` stops at the
      end of the stream or at its first error, silently. */
  function Delivered(chunks: seq<Chunk>): (r: seq<string>)
    ensures |r| <= |chunks|
    ensures forall i :: 0 <= i < |r| ==> chunks[i] == Output(r[i])
    ensures |r| < |chunks| ==> chunks[|r|].ChunkFault?
  {
    if |chunks| == 0 || chunks[0].ChunkFault? then []
    else [chunks[0].text] + Delivered(chunks[1..])
  }

  function Concat(texts: seq<string>): string {
    if |texts| == 0 then "" else texts[0] + Concat(texts[1..])
  }

  // ---------------------------------------------------------------------------
  // The trace

  datatype Op =
    | PullRequest(image: string)
    | CreateContainerRequest(config: ContainerConfig)
    | StartContainerRequest(container: string)
    | CreateExecRequest(container: string, exec: ExecConfig)
    | StartExecRequest(execId: string)
    | ResizeExecRequest(execId: string, height: nat, width: nat)
    | Relayed(text: string)
    | InspectExecRequest(execId: string)
    | UploadRequest(container: string, path: string)
    | RemoveContainerRequest(container: string)

  /** The exec descriptions created along a trace, in order. */
  function Execs(trace: seq<Op>): (r: seq<ExecConfig>)
    ensures |r| <= |trace|
  {
    if |trace| == 0 then []
    else (if trace[0].CreateExecRequest? then [trace[0].exec] else []) + Execs(trace[1..])
  }

  lemma {:induction false} ExecsAppend(a: seq<Op>, b: seq<Op>)
    ensures Execs(a + b) == Execs(a) + Execs(b)
  {
    if |a| > 0 {
      assert (a + b)[1..] == a[1..] + b;
      ExecsAppend(a[1..], b);
    } else {
      assert a + b == b;
    }
  }

  /** The containers removal was requested for, in order. */
  function Removals(trace: seq<Op>): (r: seq<string>)
    ensures |r| <= |trace|
  {
    if |trace| == 0 then []
    else (if trace[0].RemoveContainerRequest? then [trace[0].container] else []) + Removals(trace[1..])
  }

  lemma {:induction false} RemovalsAppend(a: seq<Op>, b: seq<Op>)
    ensures Removals(a + b) == Removals(a) + Removals(b)
  {
    if |a| > 0 {
      assert (a + b)[1..] == a[1..] + b;
      RemovalsAppend(a[1..], b);
    } else {
      assert a + b == b;
    }
  }
}
