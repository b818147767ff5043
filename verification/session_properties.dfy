/** What a session does, stated over the whole run of `perform_all_enter`: the execs
    it creates follow the plan the flags determine; the first rejected step ends the
    session with that step's error; the step counters count up to the total; a
    successful session reports the primary command's exit code, whatever it is, and
    removes the container it created. */
module SessionProperties {
  import opened Wrappers
  import opened Text
  import opened Ints
  import opened Errors
  import opened Engine
  import opened Session

  // ---------------------------------------------------------------------------
  // The plan

  /** The tasks of the enabled optional steps, in order. */
  function EnabledTasks(steps: seq<(bool, Task)>): (r: seq<Task>)
    ensures |r| <= |steps|
  {
    if |steps| == 0 then []
    else (if steps[0].0 then [steps[0].1] else []) + EnabledTasks(steps[1..])
  }

  function PreparePlan(args: Args): seq<Task> {
    EnabledTasks(OptionalSteps(args))
  }

  function PackagePlan(args: Args): seq<Task> {
    PackageTasks(Repo, RepoPackages(args)) + PackageTasks(Aur, AurPackages(args))
  }

  /** Every batched exec the flags call for, in order. */
  function ProvisionPlan(args: Args): seq<Task> {
    PreparePlan(args) + PackagePlan(args)
  }

  /** One counter per enabled optional step and one per package. */
  function ProvisionSteps(args: Args): nat {
    |PreparePlan(args)| + |RepoPackages(args)| + |AurPackages(args)|
  }

  function TaskConfigs(tasks: seq<Task>): (r: seq<ExecConfig>)
    ensures |r| == |tasks|
  {
    if |tasks| == 0 then [] else [TaskConfig(tasks[0])] + TaskConfigs(tasks[1..])
  }

  lemma {:induction false} TaskConfigsAppend(a: seq<Task>, b: seq<Task>)
    ensures TaskConfigs(a + b) == TaskConfigs(a) + TaskConfigs(b)
  {
    if |a| > 0 {
      assert (a + b)[1..] == a[1..] + b;
      TaskConfigsAppend(a[1..], b);
    } else {
      assert a + b == b;
    }
  }

  /** Every exec the flags call for, in order: the provisioning tasks, then the
      primary command. */
  function PlannedExecs(args: Args): seq<ExecConfig> {
    TaskConfigs(ProvisionPlan(args)) + [PrimaryConfig(args)]
  }

  /** The optional steps are exactly the four flags, in the source's order. */
  lemma {:induction false} PreparePlanOfFlags(args: Args)
    ensures PreparePlan(args)
            == (if args.chaoticAur then [AddChaoticAur] else [])
               + (if args.landware then [AddLandware] else [])
               + (if args.updateSystem then [UpgradeSystem] else [])
               + (if args.updatePkgfile then [RefreshPkgfile] else [])
  {
    var steps := OptionalSteps(args);
    assert steps[1..][1..][1..][1..] == [];
    assert EnabledTasks(steps[1..][1..][1..]) == if args.updatePkgfile then [RefreshPkgfile] else [];
    assert EnabledTasks(steps[1..][1..]) == (if args.updateSystem then [UpgradeSystem] else []) + EnabledTasks(steps[1..][1..][1..]);
    assert EnabledTasks(steps[1..]) == (if args.landware then [AddLandware] else []) + EnabledTasks(steps[1..][1..]);
  }

  /** The advisory total counts the five fixed steps and one step per enabled
      optional step and per package; a package step runs two execs. */
  lemma TotalCountsEveryStep(args: Args)
    ensures TotalSteps(args) == 5 + ProvisionSteps(args)
    ensures |ProvisionPlan(args)| <= 2 * ProvisionSteps(args)
  {
    PreparePlanOfFlags(args);
  }

  // ---------------------------------------------------------------------------
  // The reference: which tasks run, and what stops them

  /** Reading the engine's replies from `slot` on: how many of `tasks` get an exec
      before the first one whose verdict is not clear (that one included), and that
      verdict. */
  function Screen(env: Env, slot: nat, tasks: seq<Task>): (r: (nat, Option<Error>))
    ensures r.0 <= |tasks|
    ensures r.1.None? ==> r.0 == |tasks|
    ensures r.1.Some? ==> 0 < r.0
    decreases |tasks|
  {
    if |tasks| == 0 then (0, None)
    else match Verdict(tasks[0], env.engine.execs(slot))
      case Some(e) => (1, Some(e))
      case None => var rest := Screen(env, slot + 1, tasks[1..]); (rest.0 + 1, rest.1)
  }

  /** `Screen` finds the first reply that does not pass: every exec before it passed,
      and it is the verdict on that reply that stops the tasks. */
  lemma {:induction false} ScreenIsFirstRejection(env: Env, slot: nat, tasks: seq<Task>)
    ensures var (n, stop) := Screen(env, slot, tasks);
            && (forall j :: slot <= j < slot + n - 1 ==> Passes(env, j))
            && (stop.None? <==> forall j :: slot <= j < slot + |tasks| ==> Passes(env, j))
            && (stop.Some? ==> !Passes(env, slot + n - 1) && stop == Verdict(tasks[n - 1], env.engine.execs(slot + n - 1)))
    decreases |tasks|
  {
    if |tasks| > 0 {
      VerdictClearIffPasses(env, tasks[0], slot);
      if Passes(env, slot) {
        ScreenIsFirstRejection(env, slot + 1, tasks[1..]);
        var rest := Screen(env, slot + 1, tasks[1..]);
        if rest.1.Some? {
          assert tasks[1..][rest.0 - 1] == tasks[rest.0];
        }
      }
    }
  }

  /** Screening `t1 + t2` from `slot` is screening `t1`, and, when all of `t1` passes,
      going on with `t2` from the slot after it. */
  ghost predicate ScreenSplits(env: Env, slot: nat, t1: seq<Task>, t2: seq<Task>) {
    var s1 := Screen(env, slot, t1);
    var s2 := Screen(env, slot + |t1|, t2);
    Screen(env, slot, t1 + t2) == if s1.1.Some? then s1 else (|t1| + s2.0, s2.1)
  }

  lemma {:induction false} ScreenAppend(env: Env, slot: nat, t1: seq<Task>, t2: seq<Task>)
    ensures ScreenSplits(env, slot, t1, t2)
    decreases |t1|
  {
    if |t1| == 0 {
      assert t1 + t2 == t2;
      assert ScreenSplits(env, slot, t1, t2);
    } else if Verdict(t1[0], env.engine.execs(slot)).Some? {
      ScreenStopsAtHead(env, slot, t1, t2);
    } else {
      ScreenAppend(env, slot + 1, t1[1..], t2);
      ScreenPassesHead(env, slot, t1, t2);
    }
  }

  lemma ScreenStopsAtHead(env: Env, slot: nat, t1: seq<Task>, t2: seq<Task>)
    requires |t1| > 0 && Verdict(t1[0], env.engine.execs(slot)).Some?
    ensures ScreenSplits(env, slot, t1, t2)
  {
    assert (t1 + t2)[0] == t1[0];
  }

  lemma ScreenPassesHead(env: Env, slot: nat, t1: seq<Task>, t2: seq<Task>)
    requires |t1| > 0 && Verdict(t1[0], env.engine.execs(slot)).None?
    requires ScreenSplits(env, slot + 1, t1[1..], t2)
    ensures ScreenSplits(env, slot, t1, t2)
  {
    assert (t1 + t2)[0] == t1[0];
    assert (t1 + t2)[1..] == t1[1..] + t2;
    assert slot + 1 + |t1[1..]| == slot + |t1|;
  }

  // ---------------------------------------------------------------------------
  // A stage follows a list of tasks

  /** From `st`, the run `r` created the execs of the tasks `Screen` lets through,
      with the descriptions `configs` of those tasks, removed nothing, kept the
      context, and succeeded exactly when no task was rejected, failing otherwise with
      the rejection. */
  ghost predicate Follows<T>(env: Env, st: State, r: Run<T>, tasks: seq<Task>, configs: seq<ExecConfig>) {
    && r.state.ctx == st.ctx
    && |configs| == |tasks|
    && var s := Screen(env, st.slots, tasks);
       && Execs(r.state.trace) == Execs(st.trace) + configs[..s.0]
       && Removals(r.state.trace) == Removals(st.trace)
       && r.state.slots == st.slots + s.0
       && (r.Done? <==> s.1.None?)
       && (r.Failed? ==> s.1 == Some(r.error))
  }

  /** From `st`, the run `r` showed the counters `from`, `from + 1`, ..., at most
      `steps` of them, and all of them on success. */
  ghost predicate Counted<T>(st: State, r: Run<T>, from: int, steps: nat) {
    && |st.shown| <= |r.state.shown| <= |st.shown| + steps
    && r.state.shown[..|st.shown|] == st.shown
    && (forall k :: |st.shown| <= k < |r.state.shown| ==> r.state.shown[k] == from + (k - |st.shown|))
    && (r.Done? ==> |r.state.shown| == |st.shown| + steps)
  }

  ghost predicate Stage<T>(env: Env, st: State, r: Run<T>, tasks: seq<Task>, configs: seq<ExecConfig>, from: int, steps: nat) {
    Follows(env, st, r, tasks, configs) && Counted(st, r, from, steps)
  }

  lemma {:induction false} FollowsThen<T, U>(env: Env, st: State, r1: Run<T>, t1: seq<Task>, c1: seq<ExecConfig>,
                                            r2: Run<U>, t2: seq<Task>, c2: seq<ExecConfig>)
    requires r1.Done? && Follows(env, st, r1, t1, c1) && Follows(env, r1.state, r2, t2, c2)
    ensures Follows(env, st, r2, t1 + t2, c1 + c2)
  {
    ScreenAppend(env, st.slots, t1, t2);
    assert r1.state.slots == st.slots + |t1|;
    var n2 := Screen(env, r1.state.slots, t2).0;
    assert c1[..|c1|] == c1;
    TakeAppend(c1, c2, n2);
  }

  lemma {:induction false} CountedThen<T, U>(st: State, r1: Run<T>, s1: nat, r2: Run<U>, s2: nat, from: int)
    requires r1.Done? && Counted(st, r1, from, s1) && Counted(r1.state, r2, from + s1, s2)
    ensures Counted(st, r2, from, s1 + s2)
  {
    var mid, last := r1.state.shown, r2.state.shown;
    assert last[..|st.shown|] == last[..|mid|][..|st.shown|];
  }

  /** A stage that succeeded, followed by another stage, is one stage. */
  lemma StageThen<T, U>(env: Env, st: State, r1: Run<T>, t1: seq<Task>, c1: seq<ExecConfig>, s1: nat,
                        r2: Run<U>, t2: seq<Task>, c2: seq<ExecConfig>, s2: nat, from: int)
    requires r1.Done? && Stage(env, st, r1, t1, c1, from, s1) && Stage(env, r1.state, r2, t2, c2, from + s1, s2)
    ensures Stage(env, st, r2, t1 + t2, c1 + c2, from, s1 + s2)
  {
    FollowsThen(env, st, r1, t1, c1, r2, t2, c2);
    CountedThen(st, r1, s1, r2, s2, from);
  }

  /** A stage that failed ends every longer stage it begins, with the same error. */
  lemma {:induction false} StageStop<T, U>(env: Env, st: State, r: Run<T>, t1: seq<Task>, c1: seq<ExecConfig>, s1: nat,
                                          tasks: seq<Task>, configs: seq<ExecConfig>, steps: nat, from: int)
    requires r.Failed? && Stage(env, st, r, t1, c1, from, s1)
    requires t1 <= tasks && c1 <= configs && |configs| == |tasks| && s1 <= steps
    ensures Stage(env, st, r.PropagateFailure<U>(), tasks, configs, from, steps)
  {
    assert tasks == t1 + tasks[|t1|..];
    ScreenAppend(env, st.slots, t1, tasks[|t1|..]);
    var n := Screen(env, st.slots, t1).0;
    assert configs[..n] == c1[..n];
  }

  /** A stage's value does not matter to it. */
  lemma StageDone<T, U>(env: Env, st: State, r: Run<T>, tasks: seq<Task>, configs: seq<ExecConfig>, steps: nat, from: int, v: U)
    requires r.Done? && Stage(env, st, r, tasks, configs, from, steps)
    ensures Stage(env, st, Done(r.state, v), tasks, configs, from, steps)
  {
  }

  /** An empty stage: nothing happens, and it succeeds. */
  lemma EmptyStage<T>(env: Env, st: State, v: T, from: int)
    ensures Stage(env, st, Done(st, v), [], [], from, 0)
  {
    assert Execs(st.trace) + [] == Execs(st.trace);
  }

  /** Showing a counter does not change what a stage follows. */
  lemma ShowKeepsFollows<T>(env: Env, st: State, n: int, r: Run<T>, tasks: seq<Task>, configs: seq<ExecConfig>)
    requires Follows(env, Show(st, n), r, tasks, configs)
    ensures Follows(env, st, r, tasks, configs)
  {
  }

  /** A run that added one exec creation and otherwise only quiet requests ran
      exactly that exec, and removed nothing. */
  lemma OneExec(before: seq<Op>, after: seq<Op>, container: string, config: ExecConfig, rest: seq<Op>)
    requires after == before + [CreateExecRequest(container, config)] + rest
    requires Quiet(rest)
    ensures Execs(after) == Execs(before) + [config] && Removals(after) == Removals(before)
  {
    QuietOps(rest);
    ExecsAppend(before + [CreateExecRequest(container, config)], rest);
    ExecsAppend(before, [CreateExecRequest(container, config)]);
    RemovalsAppend(before + [CreateExecRequest(container, config)], rest);
    RemovalsAppend(before, [CreateExecRequest(container, config)]);
  }

  // ---------------------------------------------------------------------------
  // Stages

  /** One task runs one exec, and the session goes on exactly when the engine's reply
      passes the task. */
  lemma {:induction false} RunTaskFollows(st: State, env: Env, t: Task)
    requires st.ctx.connected
    ensures var r := RunTask(st, env, t);
            && Follows(env, st, r, [t], [TaskConfig(t)])
            && r.state.shown == st.shown
            && (r.Done? <==> Passes(env, st.slots))
  {
    var r := RunTask(st, env, t);
    VerdictClearIffPasses(env, t, st.slots);
    ScreenOne(env, st.slots, t);
    assert [TaskConfig(t)][..1] == [TaskConfig(t)];
    var head := st.trace + [CreateExecRequest(st.ctx.containerId, TaskConfig(t))];
    var rest := r.state.trace[|head|..];
    SplitAfter(r.state.trace, head);
    OneExec(st.trace, r.state.trace, st.ctx.containerId, TaskConfig(t), rest);
  }

  /** A single task is screened by its own verdict. */
  lemma ScreenOne(env: Env, slot: nat, t: Task)
    ensures Screen(env, slot, [t]) == (1, Verdict(t, env.engine.execs(slot)))
  {
    assert [t][1..] == [];
  }

  /** Taking from a concatenation past its first part. */
  lemma TakeAppend<T>(a: seq<T>, b: seq<T>, n: nat)
    requires n <= |b|
    ensures a + b[..n] == (a + b)[..|a| + n]
  {
  }

  /** A sequence that begins with `head` is `head` and what follows it. */
  lemma SplitAfter<T>(s: seq<T>, head: seq<T>)
    requires |head| <= |s| && s[..|head|] == head
    ensures s == head + s[|head|..]
  {
  }

  lemma {:induction false} FlagStepStage(st: State, env: Env, enabled: bool, cur: nat, t: Task)
    requires st.ctx.connected
    ensures var r := FlagStep(st, env, enabled, cur, t);
            var tasks := if enabled then [t] else [];
            && Stage(env, st, r, tasks, TaskConfigs(tasks), cur, Flag(enabled))
            && (r.Done? ==> r.value == cur + Flag(enabled))
  {
    if enabled {
      EnabledStepStage(st, env, cur, t);
    } else {
      EmptyStage(env, st, cur, cur);
    }
  }

  lemma EnabledStepStage(st: State, env: Env, cur: nat, t: Task)
    requires st.ctx.connected
    ensures var r := FlagStep(st, env, true, cur, t);
            && Stage(env, st, r, [t], TaskConfigs([t]), cur, 1)
            && (r.Done? ==> r.value == cur + 1)
  {
    RunTaskFollows(Show(st, cur), env, t);
    var r := RunTask(Show(st, cur), env, t);
    ShowKeepsFollows(env, st, cur, r, [t], [TaskConfig(t)]);
    ShownOnce(st, r, cur);
    assert TaskConfigs([t]) == [TaskConfig(t)];
  }

  /** A run that showed exactly one counter counted one step. */
  lemma ShownOnce<T>(st: State, r: Run<T>, n: int)
    requires r.state.shown == st.shown + [n]
    ensures Counted(st, r, n, 1)
  {
    assert r.state.shown[..|st.shown|] == st.shown;
  }

  /** The optional steps run their enabled tasks in order, one counter each. */
  lemma {:induction false} FlagStepsStage(st: State, env: Env, steps: seq<(bool, Task)>, cur: nat)
    requires st.ctx.connected
    ensures var r := FlagSteps(st, env, steps, cur);
            var tasks := EnabledTasks(steps);
            && Stage(env, st, r, tasks, TaskConfigs(tasks), cur, |tasks|)
            && (r.Done? ==> r.value == cur + |tasks|)
    decreases |steps|
  {
    if |steps| == 0 {
      EmptyStage(env, st, cur, cur);
    } else {
      var (enabled, t) := steps[0];
      var first := if enabled then [t] else [];
      var later := EnabledTasks(steps[1..]);
      var tasks := EnabledTasks(steps);
      assert tasks == first + later;
      TaskConfigsAppend(first, later);
      var a := FlagStep(st, env, enabled, cur, t);
      FlagStepStage(st, env, enabled, cur, t);
      if a.Failed? {
        StageStop<nat, nat>(env, st, a, first, TaskConfigs(first), |first|, tasks, TaskConfigs(tasks), |tasks|, cur);
      } else {
        var b := FlagSteps(a.state, env, steps[1..], a.value);
        FlagStepsStage(a.state, env, steps[1..], a.value);
        StageThen(env, st, a, first, TaskConfigs(first), |first|, b, later, TaskConfigs(later), |later|, cur);
      }
    }
  }

  /** One package: a search, then an install, both under the same counter. */
  lemma InstallOneStage(st: State, env: Env, source: Source, pkg: string, counter: nat)
    requires st.ctx.connected
    ensures var tasks := [Search(source, pkg), Install(source, pkg)];
            Stage(env, st, InstallOne(st, env, source, pkg, counter), tasks, TaskConfigs(tasks), counter, 1)
  {
    if RunTask(Show(st, counter), env, Search(source, pkg)).Failed? {
      SearchRejects(st, env, source, pkg, counter);
    } else {
      SearchPasses(st, env, source, pkg, counter);
    }
  }

  /** A package that is not found stops the session before its install. */
  lemma SearchRejects(st: State, env: Env, source: Source, pkg: string, counter: nat)
    requires st.ctx.connected
    requires RunTask(Show(st, counter), env, Search(source, pkg)).Failed?
    ensures var tasks := [Search(source, pkg), Install(source, pkg)];
            Stage(env, st, InstallOne(st, env, source, pkg, counter), tasks, TaskConfigs(tasks), counter, 1)
  {
    var search, install := Search(source, pkg), Install(source, pkg);
    var cs, ci := TaskConfig(search), TaskConfig(install);
    assert TaskConfigs([search, install]) == [cs, ci];
    var searched := RunTask(Show(st, counter), env, search);
    RunTaskFollows(Show(st, counter), env, search);
    ShowKeepsFollows(env, st, counter, searched, [search], [cs]);
    StageStop<(), ()>(env, st, searched, [search], [cs], 1, [search, install], [cs, ci], 1, counter);
  }

  /** A package that is found is installed next, under the same counter. */
  lemma SearchPasses(st: State, env: Env, source: Source, pkg: string, counter: nat)
    requires st.ctx.connected
    requires RunTask(Show(st, counter), env, Search(source, pkg)).Done?
    ensures var tasks := [Search(source, pkg), Install(source, pkg)];
            Stage(env, st, InstallOne(st, env, source, pkg, counter), tasks, TaskConfigs(tasks), counter, 1)
  {
    hide RunTask;
    var search, install := Search(source, pkg), Install(source, pkg);
    var cs, ci := TaskConfig(search), TaskConfig(install);
    assert TaskConfigs([search, install]) == [cs, ci];
    var searched := RunTask(Show(st, counter), env, search);
    RunTaskFollows(Show(st, counter), env, search);
    ShowKeepsFollows(env, st, counter, searched, [search], [cs]);
    var installed := RunTask(searched.state, env, install);
    RunTaskFollows(searched.state, env, install);
    FollowsThen(env, st, searched, [search], [cs], installed, [install], [ci]);
    assert [search] + [install] == [search, install];
    assert [cs] + [ci] == [cs, ci];
  }

  /** The package loop runs a search and an install per package, in order, with the
      counters `counter`, `counter + 1`, .... */
  lemma {:induction false} InstallEachStage(st: State, env: Env, source: Source, pkgs: seq<string>, counter: nat)
    requires st.ctx.connected
    ensures var tasks := PackageTasks(source, pkgs);
            Stage(env, st, InstallEach(st, env, source, pkgs, counter), tasks, TaskConfigs(tasks), counter, |pkgs|)
    decreases |pkgs|
  {
    if |pkgs| == 0 {
      EmptyStage(env, st, (), counter);
    } else {
      var pkg, rest, next := pkgs[0], pkgs[1..], counter + 1;
      var pair := [Search(source, pkg), Install(source, pkg)];
      var later := PackageTasks(source, rest);
      var tasks := PackageTasks(source, pkgs);
      assert tasks == pair + later;
      TaskConfigsAppend(pair, later);
      var one := InstallOne(st, env, source, pkg, counter);
      InstallOneStage(st, env, source, pkg, counter);
      if one.Failed? {
        StageStop<(), ()>(env, st, one, pair, TaskConfigs(pair), 1, tasks, TaskConfigs(tasks), |pkgs|, counter);
      } else {
        var after := InstallEach(one.state, env, source, rest, next);
        InstallEachStage(one.state, env, source, rest, next);
        StageThen(env, st, one, pair, TaskConfigs(pair), 1, after, later, TaskConfigs(later), |rest|, counter);
      }
    }
  }

  /** `install_packages` / `install_aur_packages` follow the package pairs of the
      words of their argument. */
  lemma InstallWordsStage(st: State, env: Env, source: Source, packages: string, current: nat)
    requires st.ctx.connected
    ensures var tasks := PackageTasks(source, Words(packages));
            Stage(env, st, InstallEach(st, env, source, Words(packages), current),
                  tasks, TaskConfigs(tasks), current, |Words(packages)|)
  {
    InstallEachStage(st, env, source, Words(packages), current);
  }

  /** The packages of an absent option are none. */
  lemma WordsOfEmpty()
    ensures Words("") == []
  {
  }

  /** An optional package list, installed from counter `cur` when present. */
  lemma {:induction false} OptionalInstallStage(st: State, env: Env, source: Source, cur: nat, packages: Option<string>)
    requires st.ctx.connected
    ensures var pkgs := Words(packages.GetOr(""));
            var tasks := PackageTasks(source, pkgs);
            Stage(env, st, InstallOptional(st, env, source, cur, packages), tasks, TaskConfigs(tasks), cur, |pkgs|)
  {
    if packages.Some? {
      InstallWordsStage(st, env, source, packages.value, cur);
    } else {
      WordsOfEmpty();
      assert PackageTasks(source, []) == [];
      EmptyStage(env, st, (), cur);
    }
  }

  /** The optional steps run in their fixed order, each when enabled, from 4. */
  lemma PrepareStage(st: State, env: Env, args: Args)
    requires st.ctx.connected
    ensures var r := Prepare(st, env, args);
            var plan := PreparePlan(args);
            && Stage(env, st, r, plan, TaskConfigs(plan), 4, |plan|)
            && (r.Done? ==> r.value == 4 + |plan|)
  {
    FlagStepsStage(st, env, OptionalSteps(args), 4);
  }

  /** The packages one source option names: none when the option is absent. */
  function SourceWords(source: (Source, Option<string>)): seq<string> {
    Words(source.1.GetOr(""))
  }

  /** The search/install pairs of a list of sources, in order. */
  function SourceTasks(sources: seq<(Source, Option<string>)>): seq<Task> {
    if |sources| == 0 then []
    else
      var last := sources[|sources| - 1];
      SourceTasks(sources[..|sources| - 1]) + PackageTasks(last.0, SourceWords(last))
  }

  /** The counters a list of sources takes: one per package. */
  function SourceSteps(sources: seq<(Source, Option<string>)>): nat {
    if |sources| == 0 then 0 else SourceSteps(sources[..|sources| - 1]) + |SourceWords(sources[|sources| - 1])|
  }

  /** The sources run their package pairs in order, one counter per package. */
  lemma {:induction false} InstallSourcesStage(st: State, env: Env, sources: seq<(Source, Option<string>)>, cur: nat)
    requires st.ctx.connected
    ensures var r := InstallSources(st, env, sources, cur);
            var tasks := SourceTasks(sources);
            && Stage(env, st, r, tasks, TaskConfigs(tasks), cur, SourceSteps(sources))
            && (r.Done? ==> r.value == cur + SourceSteps(sources))
    decreases |sources|
  {
    if |sources| == 0 {
      EmptyStage(env, st, cur, cur);
    } else {
      var prefix := sources[..|sources| - 1];
      var (source, packages) := sources[|sources| - 1];
      var earlier := SourceTasks(prefix);
      var last := PackageTasks(source, Words(packages.GetOr("")));
      var tasks := SourceTasks(sources);
      var s1, s2 := SourceSteps(prefix), |Words(packages.GetOr(""))|;
      TaskConfigsAppend(earlier, last);
      var d := InstallSources(st, env, prefix, cur);
      InstallSourcesStage(st, env, prefix, cur);
      if d.Failed? {
        StageStop<nat, nat>(env, st, d, earlier, TaskConfigs(earlier), s1, tasks, TaskConfigs(tasks), s1 + s2, cur);
      } else {
        var e := InstallOptional(d.state, env, source, d.value, packages);
        OptionalInstallStage(d.state, env, source, d.value, packages);
        StageThen(env, st, d, earlier, TaskConfigs(earlier), s1, e, last, TaskConfigs(last), s2, cur);
        if e.Failed? {
          StageStop<(), nat>(env, st, e, tasks, TaskConfigs(tasks), s1 + s2, tasks, TaskConfigs(tasks), s1 + s2, cur);
        } else {
          StageDone(env, st, e, tasks, TaskConfigs(tasks), s1 + s2, cur, cur + s1 + s2);
        }
      }
    }
  }

  /** The requested packages are installed repository first, then AUR, with one
      counter each from `cur`. */
  lemma InstallRequestedStage(st: State, env: Env, args: Args, cur: nat)
    requires st.ctx.connected
    ensures var r := InstallRequested(st, env, args, cur);
            var plan := PackagePlan(args);
            && Stage(env, st, r, plan, TaskConfigs(plan), cur, |RepoPackages(args)| + |AurPackages(args)|)
            && (r.Done? ==> r.value == cur + |RepoPackages(args)| + |AurPackages(args)|)
  {
    var sources := RequestedSources(args);
    var repo := sources[..1];
    assert repo[..0] == [] && sources[..|sources| - 1] == repo;
    assert SourceWords(repo[0]) == RepoPackages(args) && SourceWords(sources[1]) == AurPackages(args);
    assert SourceTasks(repo) == [] + PackageTasks(Repo, RepoPackages(args));
    assert SourceTasks(sources) == PackagePlan(args);
    assert SourceSteps(repo) == 0 + |RepoPackages(args)|;
    assert SourceSteps(sources) == |RepoPackages(args)| + |AurPackages(args)|;
    InstallSourcesStage(st, env, sources, cur);
  }

  /** The provisioning phase follows its plan and shows one counter per step, from 4. */
  lemma {:induction false} ProvisionStage(st: State, env: Env, args: Args)
    requires st.ctx.connected
    ensures var r := Provision(st, env, args);
            var plan := ProvisionPlan(args);
            && Stage(env, st, r, plan, TaskConfigs(plan), 4, ProvisionSteps(args))
            && (r.Done? ==> r.value == 4 + ProvisionSteps(args))
  {
    var plan := ProvisionPlan(args);
    var p1, p2 := PreparePlan(args), PackagePlan(args);
    TaskConfigsAppend(p1, p2);
    var s1, s2 := |p1|, |RepoPackages(args)| + |AurPackages(args)|;
    var prepared := Prepare(st, env, args);
    PrepareStage(st, env, args);
    if prepared.Failed? {
      StageStop<nat, nat>(env, st, prepared, p1, TaskConfigs(p1), s1, plan, TaskConfigs(plan), s1 + s2, 4);
    } else {
      var installed := InstallRequested(prepared.state, env, args, prepared.value);
      InstallRequestedStage(prepared.state, env, args, prepared.value);
      StageThen(env, st, prepared, p1, TaskConfigs(p1), s1, installed, p2, TaskConfigs(p2), s2, 4);
    }
  }
}
