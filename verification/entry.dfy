/** What `main` does after parsing the arguments (src/main.rs): connect, race the
    session against Ctrl-C, delete the container when the session failed or was
    cancelled, and turn the outcome into the process exit code. The race is an
    input: either the session finished first, or the cancellation came once a given
    number of the session's requests had completed. */
module Entry {
  import opened Wrappers
  import opened Ints
  import opened Errors
  import opened Engine
  import opened Session
  import opened SessionTheorems

  /** How the race between Ctrl-C and the session ends: the session finished
      first, or Ctrl-C came once `ops` of the session's requests had completed,
      possibly while the next one had been sent and was still unanswered. */
  datatype Race = SessionFirst | CancelledAfter(ops: nat, inFlight: bool)

  /** What `main` leaves behind: the exit code, the requests issued by the session
      and by `main`, how many times `delete_container` was called (by either), and
      the errors reported, in order. */
  datatype Exit = Exit(code: U8, trace: seq<Op>, deletes: nat, reported: seq<Error>)

  /** `Context::default()` after `connect`: the engine handle is present exactly
      when the connection succeeded, and the container id is empty. */
  function Connect(connection: Option<Fault>): Context {
    Context(connection.None?, "")
  }

  /** The error `connect` reports, if any. */
  function ConnectReport(connection: Option<Fault>): seq<Error> {
    if connection.Some? then [Connection(connection.value)] else []
  }

  /** The context a session holds once the requests `ops` have completed: the
      container id is recorded as soon as the creation request is answered with
      one. */
  function ContextAt(ctx: Context, env: Env, ops: seq<Op>): Context {
    if (exists i :: 0 <= i < |ops| && ops[i].CreateContainerRequest?) && env.engine.created.Ok?
    then ctx.(containerId := env.engine.created.value)
    else ctx
  }

  /** The session's requests that had completed at the cancellation. */
  function Completed(t: seq<Op>, k: nat): seq<Op> {
    if k < |t| then t[..k] else t
  }

  /** The session's requests that had been sent at the cancellation: the completed
      ones, and the one in flight, whose answer is lost with the dropped session. */
  function Sent(t: seq<Op>, k: nat, inFlight: bool): seq<Op> {
    if inFlight && k < |t| then t[..k + 1] else Completed(t, k)
  }

  /** The error a failed `delete_container` reports, if any. */
  function DeleteReport(del: Run<()>): seq<Error> {
    if del.Failed? then [del.error] else []
  }

  /** `main` once the race is decided, given the session's run. */
  function Finish(ctx: Context, session: Run<I64>, env: Env, race: Race, reported: seq<Error>): Exit {
    var t := session.state.trace;
    match race
    case CancelledAfter(k, inFlight) =>
      var sent := Sent(t, k, inFlight);
      var del := DeleteContainer(State(ContextAt(ctx, env, Completed(t, k)), sent, [], 0), env);
      Exit(0, del.state.trace, |Removals(sent)| + 1, reported + DeleteReport(del))
    case SessionFirst =>
      match session
      case Done(s, code) => Exit(AsU8(code), t, |Removals(t)|, reported)
      case Failed(s, e) =>
        var del := DeleteContainer(s, env);
        Exit(0, del.state.trace, |Removals(t)| + 1, reported + [e] + DeleteReport(del))
  }

  /** `main` after argument parsing. */
  function Main(connection: Option<Fault>, env: Env, args: Args, race: Race): Exit {
    var ctx := Connect(connection);
    Finish(ctx, PerformAllEnter(ctx, env, args), env, race, ConnectReport(connection))
  }

  // ---------------------------------------------------------------------------
  // The outcome, given the session's run

  /** A session that finished first and succeeded gives its exit code truncated to
      eight bits; `main` deletes nothing more and reports nothing more. */
  lemma FinishSuccess(ctx: Context, session: Run<I64>, env: Env, reported: seq<Error>)
    requires session.Done?
    ensures var m := Finish(ctx, session, env, SessionFirst, reported);
            && m.code == AsU8(session.value)
            && m.trace == session.state.trace
            && m.deletes == |Removals(session.state.trace)|
            && m.reported == reported
  {
  }

  /** A session that finished first and failed: `main` reports the error, calls
      `delete_container` once more for the id the context holds, and exits with 0. */
  lemma FinishError(ctx: Context, session: Run<I64>, env: Env, reported: seq<Error>)
    requires session.Failed?
    ensures var m := Finish(ctx, session, env, SessionFirst, reported);
            var s := session.state;
            && m.code == 0
            && m.deletes == |Removals(s.trace)| + 1
            && m.reported[..|reported| + 1] == reported + [session.error]
            && (s.ctx.connected ==> m.trace == s.trace + [RemoveContainerRequest(s.ctx.containerId)])
            && (!s.ctx.connected ==> m.trace == s.trace && m.reported == reported + [session.error, NotConnected])
  {
  }

  /** A cancelled session: `main` calls `delete_container` once more, for the id the
      context holds at that point (the empty default when no creation had been
      answered yet), and exits with 0. A request in flight was sent but its answer
      is lost. */
  lemma FinishCancel(ctx: Context, session: Run<I64>, env: Env, k: nat, inFlight: bool, reported: seq<Error>)
    requires ctx.containerId == ""
    ensures var m := Finish(ctx, session, env, CancelledAfter(k, inFlight), reported);
            var t := session.state.trace;
            var sent := Sent(t, k, inFlight);
            var id := ContextAt(ctx, env, Completed(t, k)).containerId;
            && m.code == 0
            && m.deletes == |Removals(sent)| + 1
            && (ctx.connected ==> m.trace == sent + [RemoveContainerRequest(id)])
            && (!ctx.connected ==> m.trace == sent)
            && (id != "" ==> env.engine.created.Ok? && id == env.engine.created.value)
            && ((forall i :: 0 <= i < |Completed(t, k)| ==> !Completed(t, k)[i].CreateContainerRequest?) ==> id == "")
  {
  }

  /** Ctrl-C while the container's creation is in flight: the creation was sent, but
      `main` removes the empty default id, so a container the engine goes on to
      create is never removed. */
  lemma CancelDuringCreateLeaks(ctx: Context, session: Run<I64>, env: Env, k: nat, reported: seq<Error>)
    requires ctx.connected && ctx.containerId == ""
    requires k < |session.state.trace| && session.state.trace[k].CreateContainerRequest?
    requires forall i :: 0 <= i < k ==> !session.state.trace[i].CreateContainerRequest?
    ensures var m := Finish(ctx, session, env, CancelledAfter(k, true), reported);
            var t := session.state.trace;
            && m.trace == t[..k + 1] + [RemoveContainerRequest("")]
            && m.trace[k] == t[k]
            && Removals(m.trace) == Removals(t[..k]) + [""]
  {
    var t := session.state.trace;
    var m := Finish(ctx, session, env, CancelledAfter(k, true), reported);
    assert ContextAt(ctx, env, t[..k]).containerId == "";
    assert t[..k + 1] == t[..k] + [t[k]];
    ExtendedByOne(t[..k], t[k]);
    ExtendedByOne(t[..k + 1], RemoveContainerRequest(""));
  }

  /** Ctrl-C while the session's own removal is in flight: `delete_container` has
      then been called by both, and the same id is asked to be removed twice. */
  lemma CancelDuringDeleteDeletesTwice(ctx: Context, session: Run<I64>, env: Env, k: nat, reported: seq<Error>)
    requires ctx.connected && ctx.containerId == ""
    requires k < |session.state.trace| && session.state.trace[k].RemoveContainerRequest?
    ensures var m := Finish(ctx, session, env, CancelledAfter(k, true), reported);
            var t := session.state.trace;
            && m.deletes == |Removals(t[..k])| + 2
            && Removals(m.trace) == Removals(t[..k]) + [t[k].container, ContextAt(ctx, env, t[..k]).containerId]
  {
    var t := session.state.trace;
    var id := ContextAt(ctx, env, t[..k]).containerId;
    assert t[..k + 1] == t[..k] + [t[k]];
    ExtendedByOne(t[..k], t[k]);
    ExtendedByOne(t[..k + 1], RemoveContainerRequest(id));
  }

  /** `main` exits with a non-zero code only when the session finished first and
      succeeded, and then with its exit code's low eight bits. */
  lemma FinishNonZero(ctx: Context, session: Run<I64>, env: Env, race: Race, reported: seq<Error>)
    ensures var m := Finish(ctx, session, env, race, reported);
            m.code != 0 ==> race == SessionFirst && session.Done? && m.code == AsU8(session.value)
  {
  }

  // ---------------------------------------------------------------------------
  // The whole of `main`

  /** A successful session ends `main` with the primary command's exit code, its
      low eight bits, after exactly one deletion: the session's own, of the
      container it created. */
  lemma MainSuccess(connection: Option<Fault>, env: Env, args: Args)
    ensures var m := Main(connection, env, args, SessionFirst);
            var r := PerformAllEnter(Connect(connection), env, args);
            r.Done? ==>
              && connection.None?
              && m.code == AsU8(r.value)
              && m.deletes == 1
              && Removals(m.trace) == [env.engine.created.value]
              && m.reported == []
  {
    hide PerformAllEnter;
    var ctx := Connect(connection);
    var r := PerformAllEnter(ctx, env, args);
    if !ctx.connected {
      SessionNotConnected(ctx, env, args);
    } else if r.Done? {
      SessionOutcome(ctx, env, args);
      assert Removals(r.state.trace) == [r.state.ctx.containerId];
      FinishSuccess(ctx, r, env, []);
    }
  }

  /** A failed session ends `main` with exit code 0, after one more deletion, of the
      container the session created, or of the empty default id when it created
      none; so when the primary command ran but its deletion failed, the same
      container is deleted twice. */
  lemma MainSessionError(connection: Option<Fault>, env: Env, args: Args)
    requires connection.None?
    requires PerformAllEnter(Connect(connection), env, args).Failed?
    ensures var m := Main(connection, env, args, SessionFirst);
            var r := PerformAllEnter(Connect(connection), env, args);
            var id := ContextAfterSetup(Connect(connection), env, args).containerId;
            && m.code == 0
            && m.deletes == |Removals(r.state.trace)| + 1
            && Removals(m.trace) == Removals(r.state.trace) + [id]
            && (Created(env, args) ==> id == env.engine.created.value)
            && (!Created(env, args) ==> id == "")
            && m.reported == [r.error] + DeleteReport(DeleteContainer(r.state, env))
  {
    hide PerformAllEnter;
    var ctx := Connect(connection);
    var r := PerformAllEnter(ctx, env, args);
    SessionOutcome(ctx, env, args);
    FinishError(ctx, r, env, []);
    ExtendedByOne(r.state.trace, RemoveContainerRequest(r.state.ctx.containerId));
  }

  /** Without a connection the session fails at once, and so does every deletion;
      `main` reports the connection error first, issues no request at all, and exits
      with 0. */
  lemma MainNotConnected(connection: Option<Fault>, env: Env, args: Args, race: Race)
    requires connection.Some?
    ensures var m := Main(connection, env, args, race);
            && m.code == 0
            && m.trace == []
            && m.deletes == 1
            && m.reported[0] == Connection(connection.value)
            && (race == SessionFirst ==> m.reported == [Connection(connection.value), NotConnected, NotConnected])
  {
    hide PerformAllEnter;
    SessionNotConnected(Connect(connection), env, args);
  }

  /** A cancellation ends `main` with exit code 0 after one more deletion, of the
      container whose creation had been answered by then, or of the empty default
      id when none had: a cancellation before the first request completed deletes
      "". */
  lemma MainCancel(connection: Option<Fault>, env: Env, args: Args, k: nat, inFlight: bool)
    requires connection.None?
    ensures var m := Main(connection, env, args, CancelledAfter(k, inFlight));
            var t := PerformAllEnter(Connect(connection), env, args).state.trace;
            var sent := Sent(t, k, inFlight);
            && m.code == 0
            && m.deletes == |Removals(sent)| + 1
            && m.trace == sent + [RemoveContainerRequest(ContextAt(Connect(connection), env, Completed(t, k)).containerId)]
            && (k == 0 ==> m.trace[|m.trace| - 1] == RemoveContainerRequest(""))
            && (k == 0 && !inFlight ==> m.trace == [RemoveContainerRequest("")])
  {
    hide PerformAllEnter;
    var ctx := Connect(connection);
    var r := PerformAllEnter(ctx, env, args);
    FinishCancel(ctx, r, env, k, inFlight, []);
  }

  /** Whatever happens, `delete_container` is called at least once, and with a
      connection at least one removal is requested. */
  lemma AlwaysAttemptsDelete(connection: Option<Fault>, env: Env, args: Args, race: Race)
    ensures var m := Main(connection, env, args, race);
            && m.deletes >= 1
            && (connection.None? ==> |Removals(m.trace)| >= 1)
  {
    hide PerformAllEnter;
    var ctx := Connect(connection);
    var r := PerformAllEnter(ctx, env, args);
    if connection.Some? {
      MainNotConnected(connection, env, args, race);
    } else if race.CancelledAfter? {
      var t := r.state.trace;
      var sent := Sent(t, race.ops, race.inFlight);
      FinishCancel(ctx, r, env, race.ops, race.inFlight, []);
      ExtendedByOne(sent, RemoveContainerRequest(ContextAt(ctx, env, Completed(t, race.ops)).containerId));
    } else if r.Done? {
      MainSuccess(connection, env, args);
    } else {
      MainSessionError(connection, env, args);
    }
  }
}
