/** The whole of `perform_all_enter`, stated over the engine's replies: the setup
    steps, the provisioning plan and the primary command, composed into what a
    session creates, removes, shows and returns. */
module SessionTheorems {
  import opened Wrappers
  import opened Ints
  import opened Errors
  import opened PullProgress
  import opened Engine
  import opened Session
  import opened SessionProperties

  // ---------------------------------------------------------------------------
  // Trace arithmetic

  /** What one request adds to the exec and removal lists. */
  lemma OneOp(op: Op)
    ensures Execs([op]) == (if op.CreateExecRequest? then [op.exec] else [])
    ensures Removals([op]) == (if op.RemoveContainerRequest? then [op.container] else [])
  {
    assert [op][1..] == [];
  }

  /** Appending requests appends what they create and remove. */
  lemma Extended(before: seq<Op>, added: seq<Op>)
    ensures Execs(before + added) == Execs(before) + Execs(added)
    ensures Removals(before + added) == Removals(before) + Removals(added)
  {
    ExecsAppend(before, added);
    RemovalsAppend(before, added);
  }

  /** Appending one request. */
  lemma ExtendedByOne(before: seq<Op>, op: Op)
    ensures Execs(before + [op]) == Execs(before) + (if op.CreateExecRequest? then [op.exec] else [])
    ensures Removals(before + [op]) == Removals(before) + (if op.RemoveContainerRequest? then [op.container] else [])
  {
    Extended(before, [op]);
    OneOp(op);
  }

  /** A run that only appended quiet requests created and removed nothing. */
  lemma QuietlyExtended(before: seq<Op>, after: seq<Op>)
    requires |before| <= |after| && after[..|before|] == before
    requires Quiet(after[|before|..])
    ensures Execs(after) == Execs(before) && Removals(after) == Removals(before)
  {
    var added := after[|before|..];
    SplitAfter(after, before);
    Extended(before, added);
    QuietOps(added);
  }

  // ---------------------------------------------------------------------------
  // Steps 1 to 3: pull, create, start

  /** The bind list the session asks for. */
  function SessionBinds(env: Env, args: Args): Result<seq<string>, Error> {
    Binds(!args.disableCwdMount, args.roCwd, args.syncZshHistory == Mount, env.host.cwd, env.host.home)
  }

  /** Whether the engine created the container: the pull went through, the binds
      could be formed, and the creation was answered with an id. */
  predicate Created(env: Env, args: Args) {
    PullImage(env.engine.pull).Ok? && SessionBinds(env, args).Ok? && env.engine.created.Ok?
  }

  /** The first thing that goes wrong in steps 1 to 3, in the order they are taken. */
  function SetupError(env: Env, args: Args): Option<Error> {
    if PullImage(env.engine.pull).Err? then Some(PullImage(env.engine.pull).error)
    else if SessionBinds(env, args).Err? then Some(SessionBinds(env, args).error)
    else if env.engine.created.Err? then Some(ContainerCreate(env.engine.created.error))
    else if env.engine.started.Some? then Some(ContainerStart(env.engine.started.value))
    else None
  }

  /** The context after the setup: the created container's id once it is known, the
      initial one (the empty default, in a fresh session) otherwise. */
  function ContextAfterSetup(ctx: Context, env: Env, args: Args): Context {
    if Created(env, args) then ctx.(containerId := env.engine.created.value) else ctx
  }

  /** Without a connection the session stops at its first step, having shown "[1/…]"
      and asked nothing of the engine. */
  lemma SetupNotConnected(ctx: Context, env: Env, args: Args)
    requires !ctx.connected
    ensures Setup(ctx, env, args) == Failed(State(ctx, [], [1], 0), NotConnected)
  {
  }

  /** Connected, steps 1 to 3 create no exec and remove nothing, and leave the
      created container's id in the context once it is known. */
  lemma SetupTrace(ctx: Context, env: Env, args: Args)
    requires ctx.connected
    ensures var r := Setup(ctx, env, args);
            && r.state.ctx == ContextAfterSetup(ctx, env, args)
            && r.state.slots == 0
            && Execs(r.state.trace) == [] && Removals(r.state.trace) == []
  {
    hide Binds, PullImage;
    var p := PullStage(Show(State(ctx, [], [], 0), 1), env);
    OneOp(PullRequest(Image));
    assert p.state.ctx == ctx && p.state.slots == 0 && p.state.trace == [PullRequest(Image)];
    if p.Done? {
      var c := CreateContainer(Show(p.state, 2), env, args);
      assert c.state.ctx == ctx && c.state.slots == 0;
      if c.Done? {
        var cfg := c.state.trace[1];
        assert c.state.trace == [PullRequest(Image), cfg] && !cfg.CreateExecRequest? && !cfg.RemoveContainerRequest?;
        ExtendedByOne([PullRequest(Image)], cfg);
        var st3 := c.state.(ctx := c.state.ctx.(containerId := c.value));
        var s := StartContainer(Show(st3, 3), env);
        assert s.state.ctx == st3.ctx && s.state.slots == 0;
        assert s.state.trace == c.state.trace + [StartContainerRequest(c.value)];
        ExtendedByOne(c.state.trace, StartContainerRequest(c.value));
        assert Setup(ctx, env, args) == s;
      } else {
        if SessionBinds(env, args).Ok? {
          ExtendedByOne([PullRequest(Image)], c.state.trace[1]);
        }
        assert Setup(ctx, env, args).state == c.state;
      }
    } else {
      assert Setup(ctx, env, args).state == p.state;
    }
  }

  /** Steps 1 to 3 show the counters 1, 2, 3 in turn, as far as they get. */
  lemma SetupCounters(ctx: Context, env: Env, args: Args)
    ensures var r := Setup(ctx, env, args);
            && 1 <= |r.state.shown| <= 3
            && r.state.shown == [1, 2, 3][..|r.state.shown|]
            && (r.Done? ==> |r.state.shown| == 3)
  {
    hide Binds, PullImage;
  }

  /** Connected, steps 1 to 3 fail with the first thing that goes wrong, and go
      through when nothing does. */
  lemma SetupOutcome(ctx: Context, env: Env, args: Args)
    requires ctx.connected
    ensures var r := Setup(ctx, env, args);
            && (r.Done? <==> SetupError(env, args).None?)
            && (r.Failed? ==> Some(r.error) == SetupError(env, args))
  {
    hide Binds, PullImage;
  }

  /** All of the setup's facts at once. */
  lemma SetupFacts(ctx: Context, env: Env, args: Args)
    requires ctx.connected
    ensures var r := Setup(ctx, env, args);
            && r.state.ctx == ContextAfterSetup(ctx, env, args)
            && r.state.slots == 0
            && Execs(r.state.trace) == [] && Removals(r.state.trace) == []
            && 1 <= |r.state.shown| <= 3
            && r.state.shown == [1, 2, 3][..|r.state.shown|]
            && (r.Done? <==> SetupError(env, args).None?)
            && (r.Done? ==> |r.state.shown| == 3)
            && (r.Failed? ==> Some(r.error) == SetupError(env, args))
  {
    SetupTrace(ctx, env, args);
    SetupCounters(ctx, env, args);
    SetupOutcome(ctx, env, args);
  }

  /** A setup that went through asked for exactly the pull, the creation of the
      container the flags describe, and its start. */
  lemma SetupRequests(ctx: Context, env: Env, args: Args)
    requires ctx.connected
    ensures var r := Setup(ctx, env, args);
            r.Done? ==>
              && |r.state.trace| == 3
              && r.state.trace[0] == PullRequest(Image)
              && r.state.trace[1].CreateContainerRequest?
              && r.state.trace[2] == StartContainerRequest(env.engine.created.value)
              && var cfg := r.state.trace[1].config;
                 && cfg.image == Image && cfg.tty && cfg.hostname == Hostname && cfg.dns == DnsServers
                 && cfg.networkDisabled == args.noNetwork && cfg.privileged == args.privileged
                 && cfg.readonlyRootfs == args.roRoot
                 && cfg.binds == SessionBinds(env, args).value
  {
    hide Binds, PullImage;
  }

  // ---------------------------------------------------------------------------
  // "Executing" and "Deleting"

  /** Whether the optional history copy goes through. */
  predicate CopySucceeds(env: Env, args: Args) {
    args.syncZshHistory == Copy ==> env.host.home.Some? && env.host.history.None? && env.engine.uploaded.None?
  }

  /** Whether an attached exec, once created, runs to its end: it is started
      attached, the terminal is sized and resized and enters raw mode, every chunk
      delivered is written and flushed, and the exec can be inspected. */
  predicate AttachedRuns(env: Env, reply: ExecReply) {
    && reply.started.StartedAttached?
    && env.terminal.size.Ok? && reply.resized.None? && env.terminal.rawMode.None?
    && (forall k :: 0 <= k < |Delivered(reply.started.output)| ==> env.terminal.stdout(k).None?)
    && reply.inspected.Ok?
  }

  /** Whether the session gets as far as deleting the container, the primary
      command being the `slot`-th exec. */
  predicate PrimaryReached(env: Env, args: Args, slot: nat) {
    CopySucceeds(env, args) && env.engine.execs(slot).created.Ok? && AttachedRuns(env, env.engine.execs(slot))
  }

  /** The first thing that stops the optional history copy, in the order it is met:
      the home directory, opening the history file, archiving it, the upload. */
  function CopyError(env: Env, args: Args): Option<Error> {
    if args.syncZshHistory != Copy then None
    else if env.host.home.None? then Some(HomeDir)
    else if env.host.history.Some? then
      match env.host.history.value
      case CannotOpen(cause) => Some(OpenHistory(cause))
      case CannotArchive(cause) => Some(Tar(cause))
    else if env.engine.uploaded.Some? then Some(ContainerUpload(env.engine.uploaded.value))
    else None
  }

  /** The optional history copy creates and removes nothing, goes through exactly
      when `CopySucceeds`, and otherwise fails with the first fault it meets. */
  lemma CopyHistoryFacts(st: State, env: Env, args: Args)
    requires st.ctx.connected
    ensures var r := CopyHistory(st, env, args);
            && r.state.ctx == st.ctx && r.state.shown == st.shown && r.state.slots == st.slots
            && Execs(r.state.trace) == Execs(st.trace) && Removals(r.state.trace) == Removals(st.trace)
            && (r.Done? <==> CopySucceeds(env, args))
            && (r.Failed? ==> r.error == HomeDir || r.error.OpenHistory? || r.error.Tar? || r.error.ContainerUpload?)
            && (CopySucceeds(env, args) <==> CopyError(env, args).None?)
            && (r.Failed? ==> Some(r.error) == CopyError(env, args))
  {
    ExtendedByOne(st.trace, UploadRequest(st.ctx.containerId, GuestHome));
  }

  /** `AttachedRuns` holds exactly when nothing stops the attached exec. */
  lemma AttachedRunsIffClear(env: Env, reply: ExecReply)
    ensures AttachedRuns(env, reply) <==> AttachedError(env.terminal, reply).None?
  {
    if reply.started.StartedAttached? {
      var texts := Delivered(reply.started.output);
      var j := FirstStdoutFault(env.terminal, 0, |texts|);
      if j < |texts| {
        assert env.terminal.stdout(j).Some?;
      }
    }
  }

  /** An attached start runs to its end exactly when `AttachedRuns` says so, and
      then yields the exit code, absent meaning 0; otherwise it fails with the
      first thing that goes wrong. */
  lemma StartAttachedIff(st: State, env: Env, h: ExecHandle)
    requires st.ctx.connected
    ensures var r := StartExec(st, env, h, true);
            var reply := env.engine.execs(h.slot);
            && (r.Done? <==> AttachedRuns(env, reply))
            && (r.Done? ==> r.value.0 == reply.inspected.value.GetOr(0))
            && (r.Failed? ==> Some(r.error) == AttachedError(env.terminal, reply))
  {
    AttachedRunsIffClear(env, env.engine.execs(h.slot));
  }

  /** The first thing that stops "Executing" and "Deleting", the primary command
      being the `slot`-th exec and `removals` the removals requested before: the
      history copy, the exec's creation, its attached run, the removal. */
  function ExecuteError(env: Env, args: Args, slot: nat, removals: nat): Option<Error> {
    var reply := env.engine.execs(slot);
    if CopyError(env, args).Some? then CopyError(env, args)
    else if reply.created.Err? then Some(ExecCreate(reply.created.error))
    else if AttachedError(env.terminal, reply).Some? then AttachedError(env.terminal, reply)
    else if env.engine.removed(removals).Some? then Some(ContainerDelete(env.engine.removed(removals).value))
    else None
  }

  /** Nothing stops "Executing" exactly when the primary command runs and the
      removal goes through. */
  lemma ExecuteErrorIffFails(env: Env, args: Args, slot: nat, removals: nat)
    ensures ExecuteError(env, args, slot, removals).None? <==>
              PrimaryReached(env, args, slot) && env.engine.removed(removals).None?
  {
    AttachedRunsIffClear(env, env.engine.execs(slot));
  }

  /** "Executing" from counter `cur`: the primary command is created once the
      history copy goes through, "[total/total]" is shown and the container removed
      once the primary command has run, and the session's value is the primary
      command's exit code, whatever it is; otherwise it fails with the first thing
      that goes wrong, a failed removal included. */
  lemma ExecuteFacts(st: State, env: Env, args: Args, cur: nat, total: nat)
    requires st.ctx.connected
    ensures var r := Execute(st, env, args, cur, total);
            var reached := PrimaryReached(env, args, st.slots);
            && r.state.ctx == st.ctx
            && Execs(r.state.trace) == Execs(st.trace) + (if CopySucceeds(env, args) then [PrimaryConfig(args)] else [])
            && Removals(r.state.trace) == Removals(st.trace) + (if reached then [st.ctx.containerId] else [])
            && r.state.shown == st.shown + (if reached then [cur, total] else [cur])
            && (r.Done? <==> reached && env.engine.removed(|Removals(st.trace)|).None?)
            && (r.Done? ==> r.value == env.engine.execs(st.slots).inspected.value.GetOr(0))
            && (r.Failed? ==> Some(r.error) == ExecuteError(env, args, st.slots, |Removals(st.trace)|))
            && (reached && env.engine.removed(|Removals(st.trace)|).Some? ==>
                  r.Failed? && r.error == ContainerDelete(env.engine.removed(|Removals(st.trace)|).value))
  {
    hide Execute;
    ExecuteCreates(st, env, args, cur, total);
    ExecuteRemoves(st, env, args, cur, total);
    ExecuteFails(st, env, args, cur, total);
  }

  /** "Executing" creates the primary exec once the history copy goes through. */
  lemma ExecuteCreates(st: State, env: Env, args: Args, cur: nat, total: nat)
    requires st.ctx.connected
    ensures var r := Execute(st, env, args, cur, total);
            var reached := PrimaryReached(env, args, st.slots);
            var n := |Removals(st.trace)|;
            && r.state.ctx == st.ctx
            && Execs(r.state.trace) == Execs(st.trace) + (if CopySucceeds(env, args) then [PrimaryConfig(args)] else [])
  {
    hide Execute, CopyHistory, CreateExec, StartExec, CopyError, AttachedError, Quiet, Removals;
    ExecuteSteps(st, env, args, cur, total);
    var st1 := Show(st, cur);
    var c := CopyHistory(st1, env, args);
    CopyHistoryFacts(st1, env, args);
    if c.Done? {
      var h := CreateExec(c.state, env, PrimaryCommand(args.command), true);
      ExtendedByOne(c.state.trace, CreateExecRequest(st.ctx.containerId, PrimaryConfig(args)));
      if h.Done? {
        var ran := StartExec(h.state, env, h.value, true);
        StartAttachedIff(h.state, env, h.value);
        QuietlyExtended(h.state.trace, ran.state.trace);
        if ran.Done? {
          ExtendedByOne(ran.state.trace, RemoveContainerRequest(st.ctx.containerId));
        }
      }
    }
  }

  /** "Executing" removes the container, shows "[total/total]" and returns the exit
      code once the primary command has run. */
  lemma ExecuteRemoves(st: State, env: Env, args: Args, cur: nat, total: nat)
    requires st.ctx.connected
    ensures var r := Execute(st, env, args, cur, total);
            var reached := PrimaryReached(env, args, st.slots);
            var n := |Removals(st.trace)|;
            && Removals(r.state.trace) == Removals(st.trace) + (if reached then [st.ctx.containerId] else [])
            && r.state.shown == st.shown + (if reached then [cur, total] else [cur])
            && (r.Done? <==> reached && env.engine.removed(n).None?)
            && (r.Done? ==> r.value == env.engine.execs(st.slots).inspected.value.GetOr(0))
  {
    hide Execute, CopyHistory, CreateExec, StartExec, CopyError, AttachedError, Quiet, Execs;
    ExecuteSteps(st, env, args, cur, total);
    var st1 := Show(st, cur);
    var c := CopyHistory(st1, env, args);
    CopyHistoryFacts(st1, env, args);
    if c.Done? {
      var h := CreateExec(c.state, env, PrimaryCommand(args.command), true);
      ExtendedByOne(c.state.trace, CreateExecRequest(st.ctx.containerId, PrimaryConfig(args)));
      if h.Done? {
        var ran := StartExec(h.state, env, h.value, true);
        StartAttachedIff(h.state, env, h.value);
        QuietlyExtended(h.state.trace, ran.state.trace);
        if ran.Done? {
          ExtendedByOne(ran.state.trace, RemoveContainerRequest(st.ctx.containerId));
        }
      }
    }
  }

  /** The error "Executing" fails with: the first thing that goes wrong. */
  lemma ExecuteFails(st: State, env: Env, args: Args, cur: nat, total: nat)
    requires st.ctx.connected
    ensures var r := Execute(st, env, args, cur, total);
            var reached := PrimaryReached(env, args, st.slots);
            var n := |Removals(st.trace)|;
            && (r.Failed? ==> Some(r.error) == ExecuteError(env, args, st.slots, n))
            && (reached && env.engine.removed(n).Some? ==>
                  r.Failed? && r.error == ContainerDelete(env.engine.removed(n).value))
  {
    hide Execute, CopyHistory, CreateExec, StartExec, CopyError, AttachedError, Quiet, Execs;
    ExecuteSteps(st, env, args, cur, total);
    var st1 := Show(st, cur);
    var c := CopyHistory(st1, env, args);
    CopyHistoryFacts(st1, env, args);
    if c.Done? {
      var h := CreateExec(c.state, env, PrimaryCommand(args.command), true);
      ExtendedByOne(c.state.trace, CreateExecRequest(st.ctx.containerId, PrimaryConfig(args)));
      if h.Done? {
        var ran := StartExec(h.state, env, h.value, true);
        StartAttachedIff(h.state, env, h.value);
        QuietlyExtended(h.state.trace, ran.state.trace);
        if ran.Done? {
          ExtendedByOne(ran.state.trace, RemoveContainerRequest(st.ctx.containerId));
        }
      }
    }
  }

  /** "Executing" step by step: the history copy, the primary exec's creation, its
      attached run, then "Deleting" and the removal, the first failure ending it. */
  lemma ExecuteSteps(st: State, env: Env, args: Args, cur: nat, total: nat)
    ensures var r := Execute(st, env, args, cur, total);
            var c := CopyHistory(Show(st, cur), env, args);
            && (c.Failed? ==> r == Failed(c.state, c.error))
            && (c.Done? ==>
                  var h := CreateExec(c.state, env, PrimaryCommand(args.command), true);
                  && (h.Failed? ==> r == Failed(h.state, h.error))
                  && (h.Done? ==>
                        var ran := StartExec(h.state, env, h.value, true);
                        && (ran.Failed? ==> r == Failed(ran.state, ran.error))
                        && (ran.Done? ==>
                              var d := DeleteContainer(Show(ran.state, total), env);
                              r == if d.Failed? then Failed(d.state, d.error) else Done(d.state, ran.value.0))))
  {
    hide CopyHistory, CreateExec, StartExec, DeleteContainer, Quiet, AttachedError;
  }

  // ---------------------------------------------------------------------------
  // The whole session

  /** How the engine's replies screen the provisioning plan: the first exec that
      does not pass and its error, or none. */
  function PlanScreen(env: Env, args: Args): (nat, Option<Error>) {
    Screen(env, 0, ProvisionPlan(args))
  }

  /** Whether the session gets past provisioning: the setup went through and every
      planned exec passed. */
  predicate Provisioned(env: Env, args: Args) {
    SetupError(env, args).None? && PlanScreen(env, args).1.None?
  }

  /** Without a connection the session fails at once with `NotConnected`, having
      shown "[1/…]" and asked nothing of the engine. */
  lemma SessionNotConnected(ctx: Context, env: Env, args: Args)
    requires !ctx.connected
    ensures PerformAllEnter(ctx, env, args) == Failed(State(ctx, [], [1], 0), NotConnected)
  {
    hide Setup, Provision, Execute;
    SetupNotConnected(ctx, env, args);
  }

  /** The execs a session creates are a prefix of the plan (the enabled optional
      steps, a search and an install per package, then the primary command), all of
      it when the session succeeds. A failed setup creates none; a rejected
      provisioning exec is the last one created, so the primary exec never is. */
  lemma SessionExecs(ctx: Context, env: Env, args: Args)
    requires ctx.connected
    ensures var r := PerformAllEnter(ctx, env, args);
            && Execs(r.state.trace) <= PlannedExecs(args)
            && (r.Done? ==> Execs(r.state.trace) == PlannedExecs(args))
            && (SetupError(env, args).Some? ==> Execs(r.state.trace) == [])
            && (SetupError(env, args).None? && PlanScreen(env, args).1.Some? ==>
                  Execs(r.state.trace) == TaskConfigs(ProvisionPlan(args))[..PlanScreen(env, args).0])
  {
    hide Setup, Provision, Execute, TaskConfigs, CommandOf, Screen;
    var plan := ProvisionPlan(args);
    var configs := TaskConfigs(plan);
    var ready := Setup(ctx, env, args);
    SetupFacts(ctx, env, args);
    if ready.Done? {
      var prov := Provision(ready.state, env, args);
      ProvisionStage(ready.state, env, args);
      assert Execs(prov.state.trace) == configs[..Screen(env, 0, plan).0];
      if prov.Done? {
        assert configs[..|plan|] == configs;
        ExecuteFacts(prov.state, env, args, prov.value, TotalSteps(args));
      }
    }
  }

  /** A session fails with the first thing that goes wrong: the setup's error, or
      else the error of the first planned exec that does not pass, or else the
      first fault of "Executing" and "Deleting", the primary command being the exec
      after the plan's and no removal having been requested before. */
  lemma SessionError(ctx: Context, env: Env, args: Args)
    requires ctx.connected
    ensures var r := PerformAllEnter(ctx, env, args);
            && (SetupError(env, args).Some? ==> r.Failed? && r.error == SetupError(env, args).value)
            && (SetupError(env, args).None? && PlanScreen(env, args).1.Some? ==>
                  r.Failed? && r.error == PlanScreen(env, args).1.value)
            && (Provisioned(env, args) ==>
                  var e := ExecuteError(env, args, |ProvisionPlan(args)|, 0);
                  && (r.Failed? <==> e.Some?)
                  && (r.Failed? ==> r.error == e.value))
  {
    hide Setup, Provision, Execute, TaskConfigs, CommandOf, Screen, ExecuteError;
    var ready := Setup(ctx, env, args);
    SetupFacts(ctx, env, args);
    if ready.Done? {
      var prov := Provision(ready.state, env, args);
      ProvisionStage(ready.state, env, args);
      if prov.Done? {
        assert prov.state.slots == |ProvisionPlan(args)|;
        ExecuteFacts(prov.state, env, args, prov.value, TotalSteps(args));
        ExecuteErrorIffFails(env, args, |ProvisionPlan(args)|, 0);
      }
    }
  }

  /** Counters that read 1, 2, 3, … in turn. */
  ghost predicate CountsUp(shown: seq<int>) {
    forall k :: 0 <= k < |shown| ==> shown[k] == k + 1
  }

  /** The counters a session shows are 1, 2, 3, … in turn, never past the total,
      and all the way to the total when it succeeds: "Executing" shows the one
      before the total and "Deleting" the total itself. */
  lemma SessionCounters(ctx: Context, env: Env, args: Args)
    requires ctx.connected
    ensures var r := PerformAllEnter(ctx, env, args);
            && 1 <= |r.state.shown| <= TotalSteps(args)
            && CountsUp(r.state.shown)
            && (r.Done? ==> |r.state.shown| == TotalSteps(args))
  {
    hide Setup, Provision, Execute, TaskConfigs, CommandOf, Screen;
    var ready := Setup(ctx, env, args);
    SetupFacts(ctx, env, args);
    TotalCountsEveryStep(args);
    if ready.Done? {
      var prov := Provision(ready.state, env, args);
      ProvisionStage(ready.state, env, args);
      ProvisionCounters(ready.state.shown, prov.state.shown, ProvisionSteps(args));
      if prov.Done? {
        var total := TotalSteps(args);
        ExecuteFacts(prov.state, env, args, prov.value, total);
        var r := Execute(prov.state, env, args, prov.value, total);
        ExecuteCounters(prov.state.shown, r.state.shown, prov.value, total);
      }
    }
  }

  /** The counters of steps 1 to 3 followed by those of the provisioning steps
      still count 1, 2, 3, … */
  lemma ProvisionCounters(before: seq<int>, after: seq<int>, steps: nat)
    requires before == [1, 2, 3]
    requires |before| <= |after| <= |before| + steps && after[..|before|] == before
    requires forall k :: |before| <= k < |after| ==> after[k] == 4 + (k - |before|)
    ensures CountsUp(after)
  {
    forall k | 0 <= k < |after|
      ensures after[k] == k + 1
    {
      if k < |before| {
        assert after[k] == after[..|before|][k];
      }
    }
  }

  /** "Executing" shows the next counter, and "Deleting" the total after it. */
  lemma ExecuteCounters(before: seq<int>, after: seq<int>, cur: int, total: int)
    requires CountsUp(before)
    requires cur == |before| + 1 && total == cur + 1
    requires after == before + [cur] || after == before + [cur, total]
    ensures CountsUp(after)
  {
  }

  /** A session removes the container it created, once, exactly when the primary
      command has run; it then succeeds unless the removal fails, and reports the
      primary command's exit code, zero or not. */
  lemma SessionOutcome(ctx: Context, env: Env, args: Args)
    requires ctx.connected
    ensures var r := PerformAllEnter(ctx, env, args);
            var slot := |ProvisionPlan(args)|;
            var reached := Provisioned(env, args) && PrimaryReached(env, args, slot);
            && r.state.ctx == ContextAfterSetup(ctx, env, args)
            && Removals(r.state.trace) == (if reached then [r.state.ctx.containerId] else [])
            && (r.Done? <==> reached && env.engine.removed(0).None?)
            && (r.Done? ==> env.engine.execs(slot).inspected.Ok?
                            && r.value == env.engine.execs(slot).inspected.value.GetOr(0))
  {
    hide Setup, Provision, Execute, TaskConfigs, CommandOf, Screen;
    var plan := ProvisionPlan(args);
    var ready := Setup(ctx, env, args);
    SetupFacts(ctx, env, args);
    if ready.Done? {
      var prov := Provision(ready.state, env, args);
      ProvisionStage(ready.state, env, args);
      if prov.Done? {
        assert prov.state.slots == |plan|;
        ExecuteFacts(prov.state, env, args, prov.value, TotalSteps(args));
      }
    }
  }

  /** Every exec the session plans runs as the unprivileged user, through
      `zsh -c`; only the primary command is attached. */
  lemma {:induction false} PlannedExecsAsUser(args: Args)
    ensures var execs := PlannedExecs(args);
            forall i :: 0 <= i < |execs| ==>
              && execs[i].user == User && |execs[i].cmd| == 3 && execs[i].cmd[..2] == [Shell, "-c"]
              && (execs[i].attachStdin <==> i == |execs| - 1)
  {
    var plan, execs := ProvisionPlan(args), PlannedExecs(args);
    TaskConfigsOfTasks(plan);
    hide ProvisionPlan, TaskConfigs;
    forall i | 0 <= i < |execs|
      ensures && execs[i].user == User && |execs[i].cmd| == 3 && execs[i].cmd[..2] == [Shell, "-c"]
              && (execs[i].attachStdin <==> i == |execs| - 1)
    {
      if i < |plan| {
        assert execs[i] == TaskConfig(plan[i]);
      } else {
        assert execs[i] == PrimaryConfig(args);
      }
    }
  }

  lemma {:induction false} TaskConfigsOfTasks(tasks: seq<Task>)
    ensures forall i :: 0 <= i < |tasks| ==> TaskConfigs(tasks)[i] == TaskConfig(tasks[i])
  {
    if |tasks| > 0 {
      TaskConfigsOfTasks(tasks[1..]);
    }
  }

  /** So every exec a session creates runs as the unprivileged user through
      `zsh -c`. */
  lemma SessionExecsAsUser(ctx: Context, env: Env, args: Args)
    requires ctx.connected
    ensures var execs := Execs(PerformAllEnter(ctx, env, args).state.trace);
            forall i :: 0 <= i < |execs| ==> execs[i].user == User && |execs[i].cmd| == 3 && execs[i].cmd[..2] == [Shell, "-c"]
  {
    hide PerformAllEnter;
    SessionExecs(ctx, env, args);
    PlannedExecsAsUser(args);
    var execs := Execs(PerformAllEnter(ctx, env, args).state.trace);
    forall i | 0 <= i < |execs|
      ensures execs[i].user == User && |execs[i].cmd| == 3 && execs[i].cmd[..2] == [Shell, "-c"]
    {
      assert execs[i] == PlannedExecs(args)[i];
    }
  }
}
