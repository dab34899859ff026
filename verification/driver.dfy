/**
 * The benchmark driver (run.py): waiting for an answer in the shared ledger,
 * one task from set-up to teardown, and the loop over the task list.
 *
 * While agents run they may write the ledger at any time, so every read the
 * driver makes while they run is an input of the model (`TaskEnv`), as are
 * clock readings, process behaviour and the bus session's answers.
 */
module Driver {
  import opened Wrappers
  import opened Deadline
  import opened Ledger
  import opened Mcp
  import opened Setup
  import opened Supervisor
  import Orchestrator

  /** Seconds the driver sleeps before each look at the ledger. */
  const PollInterval: int := 5

  /**
   * `wait_for_answer`: sleep, then check the deadline, then read the ledger;
   * a ledger longer than `prevLen` ends the wait with its last entry. The
   * i-th check comes after i + 1 sleeps, hence the requirement on `clock`.
   */
  method WaitForAnswer(prevLen: nat, timer: TaskTimer, clock: nat -> int, poll: nat -> FileState)
    returns (record: Option<Record>, reason: Reason, ghost polls: nat)
    requires timer.Started()
    requires forall i: nat :: clock(i) >= timer.startTime.value + PollInterval * (i + 1)
    ensures forall j :: 0 <= j < polls ==> !timer.Expired(clock(j)) && |Load(poll(j))| <= prevLen
    ensures reason == Timeout <==> timer.Expired(clock(polls))
    ensures reason == Timeout ==> record == None
    ensures reason == Normal ==>
      var cur := Load(poll(polls));
      |cur| > prevLen && record == Some(cur[|cur| - 1])
    ensures polls > 0 ==> PollInterval * polls <= timer.timeout
  {
    var i: nat := 0;
    while true
      invariant forall j :: 0 <= j < i ==> !timer.Expired(clock(j)) && |Load(poll(j))| <= prevLen
      invariant i > 0 ==> PollInterval * i <= timer.timeout
      decreases timer.timeout - PollInterval * i
    {
      if timer.Expired(clock(i)) {
        return None, Timeout, i;
      }
      var cur := Load(poll(i));
      if |cur| > prevLen {
        return Some(cur[|cur| - 1]), Normal, i;
      }
      i := i + 1;
    }
  }

  /** Everything outside the driver that one task depends on. */
  datatype TaskEnv = TaskEnv(
    startTime: int,                  // clock reading when the task's timer starts
    serverSpawns: bool,              // whether spawning the bus server succeeds
    serverExitsOnTerm: bool,
    probeStart: int,                 // clock reading when the readiness probe starts
    probeClock: nat -> int,
    ping: nat -> bool,
    agentSpawns: nat,                // how many agent scripts spawn before one fails
    agentExitsOnTerm: nat -> bool,
    attempt: nat -> Attempt,         // the driver's own connection attempts
    beforeRead: FileState,           // the ledger as read just before the wait
    clock: nat -> int,               // clock readings at the wait's deadline checks
    poll: nat -> FileState,          // the ledger as read at the wait's checks
    listResources: nat -> Result<seq<string>, string>,
    readResource: (nat, string) -> Result<seq<string>, string>,
    parse: string -> Option<Xml>,
    afterRead: FileState,            // the ledger as read for reconciliation
    finishTime: int,
    serverExited: bool,              // whether the bus server has ended by itself before the teardown
    agentExited: nat -> bool,        // whether the i-th agent has ended by itself before the teardown
    disconnectError: Option<string>) // what disconnecting the toolkit raises, if anything

  /** Clocks advance as the probe's and the wait's sleeps require. */
  ghost predicate ValidEnv(env: TaskEnv) {
    && (forall i: nat :: env.probeClock(i) >= env.probeStart + PingInterval * i)
    && (forall i: nat :: env.clock(i) >= env.startTime + PollInterval * (i + 1))
  }

  /** `os.path.join(GAIA_ROOT, task["file_name"])`, the file the orchestrator is told about. */
  function TaskFile(root: string, task: Task): (path: string)
    ensures task.fileName == [] ==> Orchestrator.IsFileOrFolder(path) == Orchestrator.Folder
    ensures task.fileName != [] && task.fileName[0] == '/' ==> path == task.fileName
    ensures (task.fileName == [] || task.fileName[0] != '/') ==>
      StartsWith(path, root) && |task.fileName| <= |path| && path[|path| - |task.fileName|..] == task.fileName
  {
    Orchestrator.EmptyFileNameIsFolder(root);
    Orchestrator.JoinPath(root, task.fileName)
  }

  /** How a task's wait ended: after `polls` checks, with the entry it saw, for `reason`. */
  datatype Wait = Wait(polls: nat, answer: Option<Record>, reason: Reason)

  /**
   * `w` is how `wait_for_answer` ends for the task's timer (started at
   * `env.startTime`, 1800 seconds) and a ledger `prevLen` entries long: no
   * earlier check was late or saw the ledger grow, and the last check either
   * found the deadline passed or the ledger longer, whose last entry is the
   * answer.
   */
  ghost predicate WaitEnded(env: TaskEnv, prevLen: nat, w: Wait) {
    && (forall j :: 0 <= j < w.polls ==>
          env.clock(j) <= env.startTime + DefaultTimeout && |Load(env.poll(j))| <= prevLen)
    && (w.reason == Timeout <==> env.clock(w.polls) > env.startTime + DefaultTimeout)
    && (w.reason == Timeout ==> w.answer == None)
    && (w.reason == Normal ==>
          var cur := Load(env.poll(w.polls));
          |cur| > prevLen && w.answer == Some(cur[|cur| - 1]))
  }

  /** The `resources` field: the driver's dump, or the error its collection raised. */
  function ResourcesOf(collected: Result<map<string, Artifact>, string>): (r: Resources)
    ensures collected.Ok? ==> r == Dump(collected.value)
    ensures collected.Err? ==> r == CollectorError(collected.error)
  {
    match collected
    case Ok(m) => Dump(m)
    case Err(e) => CollectorError(e)
  }

  /** What a connected task went through: its toolkit, its wait and its collected resources. */
  datatype Session = Session(toolkit: Toolkit, wait: Wait, resources: Resources)

  /** The session follows from the task's environment once the toolkit is known. */
  ghost predicate SessionOf(env: TaskEnv, s: Session) {
    && WaitEnded(env, |Load(env.beforeRead)|, s.wait)
    && s.resources == ResourcesOf(ExpectedDump(s.toolkit, env.listResources, env.readResource, env.parse))
  }

  /**
   * The ledger the driver writes after a session: the final read with a
   * give-up record appended when no answer came, or with its last entry
   * replaced by the graded answer.
   */
  predicate WrittenFor(read: seq<Record>, written: seq<Record>, task: Task, env: TaskEnv, s: Session) {
    if s.wait.answer.None? then
      written == read + [GiveUpRecord(task, env.startTime, env.finishTime, s.wait.reason, s.resources)]
    else
      && read != []
      && written == read[..|read| - 1] + [AnsweredRecord(task, env.startTime, env.finishTime, s.wait.answer.value, s.resources)]
  }

  /** The exception that ends a task, and with it the whole run. */
  datatype DriverError =
    | ServerSpawnFailed
    | NotReady(message: string)
    | AgentSpawnFailed(script: string)
    | SetupFailed(message: string)
    | ReconcileFailed(message: string)
    | DisconnectFailed(message: string)

  datatype TaskOutcome = Skipped | Completed | Aborted(error: DriverError)

  datatype TeardownStep = DisconnectToolkit | StopAgentProcesses | StopServerProcess

  /**
   * The ledger the driver writes is the ledger it read with this task's
   * record appended, or with its last entry replaced by this task's record.
   */
  predicate ReconciledFrom(read: seq<Record>, written: seq<Record>, taskId: string) {
    && |written| > 0
    && TaskIdOf(written[|written| - 1]) == Some(taskId)
    && (|| (|written| == |read| + 1 && written[..|read|] == read)
        || (|written| == |read| && written[..|read| - 1] == read[..|read| - 1]))
  }

  /** Both ways of writing a session's outcome are reconciliations. */
  lemma WrittenIsReconciled(read: seq<Record>, written: seq<Record>, task: Task, env: TaskEnv, s: Session)
    requires WrittenFor(read, written, task, env, s)
    ensures ReconciledFrom(read, written, task.taskId)
  {
    if s.wait.answer.None? {
      assert written[..|read|] == read;
    } else {
      assert written[..|read| - 1] == read[..|read| - 1];
    }
  }

  /** A written ledger records the task, so a later run skips it. */
  lemma ReconciledIsDone(read: seq<Record>, written: seq<Record>, taskId: string)
    requires ReconciledFrom(read, written, taskId)
    ensures AlreadyDone(written, taskId)
  {
    assert TaskIdOf(written[|written| - 1]) == Some(taskId);
  }

  /**
   * The driver rewrites the whole ledger from its last read: when that read
   * finds the file missing or unreadable, the ledger written holds this
   * task's record alone and every earlier record is gone.
   */
  lemma UnreadableLedgerIsReplaced(f: FileState, written: seq<Record>, taskId: string)
    requires !f.Stored? && ReconciledFrom(Load(f), written, taskId)
    ensures |written| == 1 && TaskIdOf(written[0]) == Some(taskId)
  {
  }

  /** `a` is `b` with at least one entry appended. */
  predicate StrictPrefix(a: seq<Record>, b: seq<Record>) {
    |a| < |b| && b[..|a|] == a
  }

  /**
   * A record survives a later task's write when that task's final read held
   * the earlier ledger with something appended.
   */
  lemma RecordSurvives(prev: seq<Record>, read: seq<Record>, written: seq<Record>, taskId: string, otherId: string)
    requires AlreadyDone(prev, taskId)
    requires StrictPrefix(prev, read)
    requires ReconciledFrom(read, written, otherId)
    ensures AlreadyDone(written, taskId)
  {
    var i :| 0 <= i < |prev| && TaskIdOf(prev[i]) == Some(taskId);
    assert read[i] == prev[i];
    if |written| == |read| + 1 {
      assert written[..|read|][i] == read[i];
    } else {
      assert written[..|read| - 1][i] == read[i];
    }
  }

  /**
   * The connected part of a task: wait for an answer, collect the session's
   * resources (a collector failure becomes an error entry, not an exception)
   * and write the reconciled ledger; reconciling an empty ledger raises.
   */
  method RecordAnswer(task: Task, env: TaskEnv, toolkit: Toolkit, timer: TaskTimer, ledger: LedgerFile)
    returns (failure: Option<DriverError>, ghost s: Session)
    requires timer.startTime == Some(env.startTime) && timer.timeout == DefaultTimeout
    requires forall i: nat :: env.clock(i) >= env.startTime + PollInterval * (i + 1)
    modifies ledger
    ensures s.toolkit == toolkit && SessionOf(env, s)
    ensures failure.Some? <==> s.wait.answer.Some? && Load(env.afterRead) == []
    ensures failure.Some? ==> failure == Some(ReconcileFailed(ListAssignError)) && ledger.content == old(ledger.content)
    ensures failure.None? ==> WrittenFor(Load(env.afterRead), ledger.Records(), task, env, s)
  {
    var before := |Load(env.beforeRead)|;
    var record, reason, polls := WaitForAnswer(before, timer, env.clock, env.poll);
    var collected := GetResources(toolkit, task.taskId, env.listResources, env.readResource, env.parse);
    var resources := ResourcesOf(collected);
    s := Session(toolkit, Wait(polls, record, reason), resources);
    var allAns := Load(env.afterRead);
    var reconciled := Reconcile(allAns, record, reason, task, env.startTime, env.finishTime, resources);
    if reconciled.Err? {
      return Some(ReconcileFailed(reconciled.error)), s;
    }
    ledger.Overwrite(reconciled.value);
    failure := None;
  }

  /**
   * The `try` block of one task: start the server, wait for it, start the
   * agents, connect and record the answer. It stops at the first exception
   * and reports what it had created by then, which the `finally` block
   * tears down. `agents` is the driver's own list, assigned only when every
   * agent started; `orphans` are the agents a failed start spawned before
   * raising, which nothing refers to afterwards.
   */
  method TryTask(task: Task, env: TaskEnv, ledger: LedgerFile)
    returns (failure: Option<DriverError>, coral: Proc?, agents: seq<Proc>, orphans: seq<Proc>,
             toolkit: Option<Toolkit>, ghost session: Option<Session>)
    requires ValidEnv(env)
    modifies ledger
    ensures coral == null <==> failure == Some(ServerSpawnFailed)
    ensures coral != null ==> fresh(coral) && coral.exitsOnTerm == env.serverExitsOnTerm
    ensures forall i :: 0 <= i < |agents| ==> fresh(agents[i])
    ensures forall i :: 0 <= i < |orphans| ==> fresh(orphans[i])
    ensures FreshlyStarted(coral, agents, orphans)
    ensures agents != [] || orphans != [] ==> coral != null
    ensures |orphans| < |AgentScripts|
    ensures orphans != [] ==> failure.Some? && failure.value.AgentSpawnFailed?
    ensures toolkit.Some? <==> failure.None? || failure.value.ReconcileFailed?
    ensures agents != [] <==> toolkit.Some? || (failure.Some? && failure.value.SetupFailed?)
    ensures agents != [] ==> |agents| == |AgentScripts|
    ensures failure.Some? ==> !failure.value.DisconnectFailed?
    ensures failure.Some? && failure.value.ReconcileFailed? ==> failure.value.message == ListAssignError
    // the session and what it writes
    ensures session.Some? <==> toolkit.Some?
    ensures session.Some? ==> session.value.toolkit == toolkit.value && SessionOf(env, session.value)
    ensures session.Some? ==>
      (failure.Some? <==> session.value.wait.answer.Some? && Load(env.afterRead) == [])
    ensures failure.None? ==> WrittenFor(Load(env.afterRead), ledger.Records(), task, env, session.value)
    ensures failure.None? ==> ReconciledFrom(Load(env.afterRead), ledger.Records(), task.taskId)
    ensures failure.Some? ==> ledger.content == old(ledger.content)
    // which step raises, as the environment decides
    ensures failure == TryFailure(env, session)
    ensures session.Some? <==> StartFailure(env).None? && ConnectFailure(env).None?
    ensures session.Some? ==> ConnectsWith(env, session.value.toolkit)
  {
    toolkit, session := None, None;
    var timer := new TaskTimer();
    timer.Start(env.startTime);
    failure, coral, agents, orphans := StartProcesses(env);
    if failure.Some? {
      return;
    }
    ghost var calls;
    var conn;
    conn, calls := SetupWithRetry(env.attempt);
    if conn.Err? {
      assert NeverConnects(env);
      return Some(SetupFailed(Message(conn.error))), coral, agents, orphans, toolkit, session;
    }
    assert env.attempt(calls - 1) == Connected(conn.value);
    toolkit := Some(conn.value);
    ghost var s;
    failure, s := RecordAnswer(task, env, conn.value, timer, ledger);
    session := Some(s);
    if failure.None? {
      WrittenIsReconciled(Load(env.afterRead), ledger.Records(), task, env, s);
    }
  }

  /** The bus server answers the readiness probe before its 120 seconds run out. */
  ghost predicate Ready(env: TaskEnv) {
    ProbeSucceeds(env.probeStart, env.probeClock, env.ping, ReadyTimeout)
  }

  /** None of the driver's five connection attempts yields a toolkit. */
  ghost predicate NeverConnects(env: TaskEnv) {
    forall j :: 0 <= j < DefaultRetries ==> !env.attempt(j).Connected?
  }

  /** `t` is the toolkit of the first of the five connection attempts that succeeds. */
  ghost predicate ConnectsWith(env: TaskEnv, t: Toolkit) {
    exists c :: && 0 <= c < DefaultRetries
                && env.attempt(c) == Connected(t)
                && forall j :: 0 <= j < c ==> !env.attempt(j).Connected?
  }

  /**
   * The exception the first steps of the `try` block raise, if any: the
   * server does not spawn; it does not answer in time; an agent script does
   * not spawn, the first one past those that did.
   */
  ghost function StartFailure(env: TaskEnv): Option<DriverError> {
    if !env.serverSpawns then Some(ServerSpawnFailed)
    else if !Ready(env) then Some(NotReady(NotReadyError))
    else if env.agentSpawns < |AgentScripts| then Some(AgentSpawnFailed(AgentScripts[env.agentSpawns]))
    else None
  }

  /** The exception once every connection attempt has failed: it carries the fifth attempt's cause. */
  ghost function ConnectFailure(env: TaskEnv): Option<DriverError> {
    if NeverConnects(env) then
      Some(SetupFailed(Message(SetupExhausted(Some(CauseOf(env.attempt(DefaultRetries - 1)))))))
    else None
  }

  /**
   * The exception the whole `try` block raises, if any: the first steps',
   * else the connection's, else reconciling an empty ledger after an answer
   * came in the task's session.
   */
  ghost function TryFailure(env: TaskEnv, session: Option<Session>): Option<DriverError> {
    if StartFailure(env).Some? then StartFailure(env)
    else if ConnectFailure(env).Some? then ConnectFailure(env)
    else if session.Some? && session.value.wait.answer.Some? && Load(env.afterRead) == [] then
      Some(ReconcileFailed(ListAssignError))
    else None
  }

  /**
   * How a task ends: skipped when the ledger it found records it; otherwise
   * the disconnect's exception when the driver connected and disconnecting
   * raises, else the `try` block's exception, else completed.
   */
  ghost function ExpectedOutcome(task: Task, env: TaskEnv, before: seq<Record>, session: Option<Session>): TaskOutcome {
    if AlreadyDone(before, task.taskId) then Skipped
    else
      var connected := StartFailure(env).None? && ConnectFailure(env).None?;
      if connected && env.disconnectError.Some? then Aborted(DisconnectFailed(env.disconnectError.value))
      else if TryFailure(env, session).Some? then Aborted(TryFailure(env, session).value)
      else Completed
  }

  /**
   * The task's outcome is the one its environment and the ledger it found
   * decide, and its session is the one its environment gives.
   */
  ghost predicate Decided(task: Task, env: TaskEnv, before: seq<Record>, session: Option<Session>, outcome: TaskOutcome) {
    && outcome == ExpectedOutcome(task, env, before, session)
    && (session.Some? ==> SessionOf(env, session.value) && ConnectsWith(env, session.value.toolkit))
  }

  /**
   * The first steps of the `try` block: start the server, wait until it
   * answers, start the agents. The first failure ends them; `agents` is
   * assigned only when every agent started, and `orphans` are those a
   * failed start had spawned.
   */
  method StartProcesses(env: TaskEnv)
    returns (failure: Option<DriverError>, coral: Proc?, agents: seq<Proc>, orphans: seq<Proc>)
    requires ValidEnv(env)
    ensures coral == null <==> failure == Some(ServerSpawnFailed)
    ensures coral != null ==> fresh(coral) && coral.exitsOnTerm == env.serverExitsOnTerm
    ensures forall i :: 0 <= i < |agents| ==> fresh(agents[i])
    ensures forall i :: 0 <= i < |orphans| ==> fresh(orphans[i])
    ensures FreshlyStarted(coral, agents, orphans)
    ensures agents != [] || orphans != [] ==> coral != null
    ensures |orphans| < |AgentScripts|
    ensures orphans != [] ==> failure.Some? && failure.value.AgentSpawnFailed?
    ensures agents != [] <==> failure.None?
    ensures agents != [] ==> |agents| == |AgentScripts|
    ensures failure == StartFailure(env)
    ensures failure.Some? && failure.value.AgentSpawnFailed? ==> |orphans| == env.agentSpawns
  {
    coral, agents, orphans := null, [], [];
    if !env.serverSpawns {
      return Some(ServerSpawnFailed), coral, agents, orphans;
    }
    coral := new Proc.Spawn("coral_server", env.serverExitsOnTerm);
    var ready, _ := WaitForSseReady(env.probeStart, env.probeClock, env.ping);
    if ready.Err? {
      return Some(NotReady(ready.error)), coral, agents, orphans;
    }
    var spawned, ok := StartAgents(AgentScripts, env.agentSpawns, env.agentExitsOnTerm);
    if !ok {
      return Some(AgentSpawnFailed(AgentScripts[|spawned|])), coral, agents, spawned;
    }
    agents := spawned;
    failure := None;
  }

  /**
   * The teardown steps that run after each outcome: nothing was created for
   * a skipped task or a server that did not spawn; only the server exists
   * until the agents start; the agents until the connection; a failed
   * disconnect ends the block at once.
   */
  function TeardownFor(outcome: TaskOutcome): seq<TeardownStep> {
    match outcome
    case Skipped => []
    case Completed => [DisconnectToolkit, StopAgentProcesses, StopServerProcess]
    case Aborted(e) =>
      match e
      case ServerSpawnFailed => []
      case NotReady(_) => [StopServerProcess]
      case AgentSpawnFailed(_) => [StopServerProcess]
      case SetupFailed(_) => [StopAgentProcesses, StopServerProcess]
      case ReconcileFailed(_) => [DisconnectToolkit, StopAgentProcesses, StopServerProcess]
      case DisconnectFailed(_) => [DisconnectToolkit]
  }

  /**
   * One task's effect on the ledger, from `before` to `after`: it is skipped
   * exactly when `before` records it, and then leaves the ledger alone;
   * otherwise it leaves the ledger alone or writes a reconciliation of its
   * final read, and a completed task always writes one.
   */
  predicate TaskStep(task: Task, env: TaskEnv, before: seq<Record>, after: seq<Record>, outcome: TaskOutcome) {
    && (outcome.Skipped? <==> AlreadyDone(before, task.taskId))
    && (outcome.Skipped? ==> after == before)
    && (after == before || ReconciledFrom(Load(env.afterRead), after, task.taskId))
    && (outcome.Completed? ==> ReconciledFrom(Load(env.afterRead), after, task.taskId))
  }

  /**
   * One iteration of the driver's task loop: skip a task the ledger already
   * records; otherwise run the `try` block, then in `finally` disconnect the
   * toolkit, stop the agents and stop the server, each only if it was
   * created. An exception is not turned into a record: it ends the task with
   * `Aborted`, and an exception from the disconnect replaces the `try`
   * block's and skips the rest of the teardown. Before the teardown, any
   * process may have ended by itself (`env.serverExited`,
   * `env.agentExited`); such a process gets no signal. Agents spawned by a
   * start that failed part-way (`orphans`) are never stopped.
   */
  method RunTask(task: Task, env: TaskEnv, ledger: LedgerFile)
    returns (outcome: TaskOutcome, coral: Proc?, agents: seq<Proc>, orphans: seq<Proc>,
             teardown: seq<TeardownStep>, ghost session: Option<Session>)
    requires ValidEnv(env)
    modifies ledger
    ensures TaskStep(task, env, old(ledger.Records()), ledger.Records(), outcome)
    ensures Decided(task, env, old(ledger.Records()), session, outcome)
    ensures outcome.Skipped? ==>
      coral == null && agents == [] && orphans == [] && teardown == [] && session == None &&
      ledger.content == old(ledger.content)
    ensures coral == null <==> outcome.Skipped? || outcome == Aborted(ServerSpawnFailed)
    ensures coral != null ==> fresh(coral)
    ensures forall i :: 0 <= i < |agents| ==> fresh(agents[i])
    ensures agents != [] || orphans != [] ==> coral != null
    // orphans are left as they are
    ensures forall i :: 0 <= i < |orphans| ==> fresh(orphans[i]) && LeftAlone(orphans[i], env.agentExited(i))
    // what the driver writes
    ensures session.Some? <==> DisconnectToolkit in teardown
    ensures session.Some? ==> SessionOf(env, session.value)
    ensures session.Some? && session.value.wait.answer.Some? && Load(env.afterRead) == [] ==>
      ledger.content == old(ledger.content)
    ensures session.Some? && !(session.value.wait.answer.Some? && Load(env.afterRead) == []) ==>
      WrittenFor(Load(env.afterRead), ledger.Records(), task, env, session.value)
    ensures session.None? ==> ledger.content == old(ledger.content)
    ensures ledger.content == old(ledger.content) || ReconciledFrom(Load(env.afterRead), ledger.Records(), task.taskId)
    ensures outcome.Completed? ==> session.Some? && ReconciledFrom(Load(env.afterRead), ledger.Records(), task.taskId)
    ensures outcome.Aborted? && outcome.error.ReconcileFailed? ==>
      outcome.error.message == ListAssignError && session.Some? && session.value.wait.answer.Some? && Load(env.afterRead) == []
    // teardown, case by case
    ensures teardown == TeardownFor(outcome)
    ensures outcome == Aborted(ServerSpawnFailed) ==> agents == []
    ensures outcome.Aborted? && outcome.error.AgentSpawnFailed? ==> agents == [] && |orphans| < |AgentScripts|
    ensures orphans != [] ==> outcome.Aborted? && outcome.error.AgentSpawnFailed?
    ensures outcome.Aborted? && outcome.error.DisconnectFailed? ==>
      && LeftAlone(coral, env.serverExited)
      && |agents| == |AgentScripts|
      && forall i :: 0 <= i < |agents| ==> LeftAlone(agents[i], env.agentExited(i))
    ensures StopServerProcess in teardown ==> StoppedBy(coral, env.serverExited)
    ensures StopAgentProcesses in teardown ==>
      && |agents| == |AgentScripts|
      && forall i :: 0 <= i < |agents| ==> StoppedBy(agents[i], env.agentExited(i))
  {
    coral, agents, orphans, teardown, session := null, [], [], [], None;
    if AlreadyDone(ledger.Records(), task.taskId) {
      return Skipped, coral, agents, orphans, teardown, session;
    }
    var failure, toolkit;
    failure, coral, agents, orphans, toolkit, session := TryTask(task, env, ledger);

    outcome, teardown := Conclude(failure, coral, agents, orphans, toolkit.Some?, env);
  }

  /**
   * The end of a task that was not skipped: the `finally` block runs, and
   * the task's outcome is the disconnect's exception if it raised one, else
   * the `try` block's exception if any, else completion.
   */
  method Conclude(failure: Option<DriverError>, coral: Proc?, agents: seq<Proc>, orphans: seq<Proc>,
                  connected: bool, env: TaskEnv)
    returns (outcome: TaskOutcome, teardown: seq<TeardownStep>)
    requires FreshlyStarted(coral, agents, orphans)
    requires coral == null <==> failure == Some(ServerSpawnFailed)
    requires agents != [] || orphans != [] ==> coral != null
    requires orphans != [] ==> failure.Some? && failure.value.AgentSpawnFailed?
    requires connected <==> failure.None? || failure.value.ReconcileFailed?
    requires agents != [] <==> connected || (failure.Some? && failure.value.SetupFailed?)
    requires agents != [] ==> |agents| == |AgentScripts|
    requires failure.Some? ==> !failure.value.DisconnectFailed?
    modifies coral, set i | 0 <= i < |agents| :: agents[i], set i | 0 <= i < |orphans| :: orphans[i]
    ensures !outcome.Skipped?
    ensures outcome ==
      if connected && env.disconnectError.Some? then Aborted(DisconnectFailed(env.disconnectError.value))
      else if failure.Some? then Aborted(failure.value)
      else Completed
    ensures outcome.Completed? <==> failure.None? && env.disconnectError.None?
    ensures outcome.Aborted? && !outcome.error.DisconnectFailed? ==> failure == Some(outcome.error)
    ensures outcome.Aborted? && outcome.error.DisconnectFailed? ==> connected && env.disconnectError.Some?
    ensures teardown == TeardownFor(outcome)
    ensures DisconnectToolkit in teardown <==> connected
    ensures forall i :: 0 <= i < |orphans| ==> LeftAlone(orphans[i], env.agentExited(i))
    ensures outcome.Aborted? && outcome.error.DisconnectFailed? ==>
      && LeftAlone(coral, env.serverExited)
      && forall i :: 0 <= i < |agents| ==> LeftAlone(agents[i], env.agentExited(i))
    ensures StopServerProcess in teardown ==> StoppedBy(coral, env.serverExited)
    ensures StopAgentProcesses in teardown ==>
      && |agents| == |AgentScripts|
      && forall i :: 0 <= i < |agents| ==> StoppedBy(agents[i], env.agentExited(i))
  {
    teardown := Finally(coral, agents, orphans, connected, env);
    outcome :=
      if connected && env.disconnectError.Some? then Aborted(DisconnectFailed(env.disconnectError.value))
      else if failure.Some? then Aborted(failure.value)
      else Completed;
  }

  /**
   * The processes a `try` block leaves: each running and unsignalled, the
   * server distinct from every agent, no agent listed twice, and the
   * driver's agents and the orphans never both present.
   */
  predicate FreshlyStarted(coral: Proc?, agents: seq<Proc>, orphans: seq<Proc>)
    reads coral, set i | 0 <= i < |agents| :: agents[i], set i | 0 <= i < |orphans| :: orphans[i]
  {
    && (coral != null ==> coral.Running() && coral.signals == [])
    && (forall i :: 0 <= i < |agents| ==> agents[i].Running() && agents[i].signals == [] && agents[i] != coral)
    && (forall i :: 0 <= i < |orphans| ==> orphans[i].Running() && orphans[i].signals == [] && orphans[i] != coral)
    && (forall i, j :: 0 <= i < j < |agents| ==> agents[i] != agents[j])
    && (forall i, j :: 0 <= i < j < |orphans| ==> orphans[i] != orphans[j])
    && (agents == [] || orphans == [])
  }

  /** A process the teardown stopped: it is over, signalled as `stop_process` signals a process in its state. */
  predicate StoppedBy(p: Proc, exited: bool)
    reads p
  {
    !p.Running() && p.signals == StopSignals(if exited then Exited else Alive, p.exitsOnTerm)
  }

  /** A process nobody signalled: still running unless it ended by itself. */
  predicate LeftAlone(p: Proc, exited: bool)
    reads p
  {
    p.signals == [] && (p.Running() <==> !exited)
  }

  /**
   * What happens to the task's processes from the end of the `try` block on:
   * some end by themselves, then the `finally` block runs.
   */
  method Finally(coral: Proc?, agents: seq<Proc>, orphans: seq<Proc>, connected: bool, env: TaskEnv)
    returns (teardown: seq<TeardownStep>)
    requires FreshlyStarted(coral, agents, orphans)
    modifies coral, set i | 0 <= i < |agents| :: agents[i], set i | 0 <= i < |orphans| :: orphans[i]
    ensures var cut := connected && env.disconnectError.Some?;
      teardown ==
        (if connected then [DisconnectToolkit] else []) +
        (if !cut && agents != [] then [StopAgentProcesses] else []) +
        (if !cut && coral != null then [StopServerProcess] else [])
    ensures DisconnectToolkit in teardown <==> connected
    ensures StopAgentProcesses in teardown <==> !(connected && env.disconnectError.Some?) && agents != []
    ensures StopServerProcess in teardown <==> !(connected && env.disconnectError.Some?) && coral != null
    ensures coral != null ==>
      if StopServerProcess in teardown then StoppedBy(coral, env.serverExited) else LeftAlone(coral, env.serverExited)
    ensures forall i :: 0 <= i < |agents| ==>
      if StopAgentProcesses in teardown then StoppedBy(agents[i], env.agentExited(i))
      else LeftAlone(agents[i], env.agentExited(i))
    ensures forall i :: 0 <= i < |orphans| ==> LeftAlone(orphans[i], env.agentExited(i))
  {
    EndOnTheirOwn(coral, agents, orphans, env);
    teardown := Teardown(coral, agents, connected, env.disconnectError);
  }

  /** The processes that ended by themselves before the `finally` block, as the environment says. */
  method EndOnTheirOwn(coral: Proc?, agents: seq<Proc>, orphans: seq<Proc>, env: TaskEnv)
    requires FreshlyStarted(coral, agents, orphans)
    modifies coral, set i | 0 <= i < |agents| :: agents[i], set i | 0 <= i < |orphans| :: orphans[i]
    ensures coral != null ==> LeftAlone(coral, env.serverExited)
    ensures forall i :: 0 <= i < |agents| ==> LeftAlone(agents[i], env.agentExited(i))
    ensures forall i :: 0 <= i < |orphans| ==> LeftAlone(orphans[i], env.agentExited(i))
  {
    if coral != null && env.serverExited {
      coral.ExitOnItsOwn();
    }
    ExitSome(agents, env.agentExited);
    ExitSome(orphans, env.agentExited);
  }

  /**
   * The `finally` block: disconnect the toolkit if the driver connected one,
   * then stop the agents if it holds them, then stop the server if it
   * started one. An exception from the disconnect ends the block at once.
   */
  method Teardown(coral: Proc?, agents: seq<Proc>, connected: bool, disconnectError: Option<string>)
    returns (teardown: seq<TeardownStep>)
    requires forall i, j :: 0 <= i < j < |agents| ==> agents[i] != agents[j]
    requires forall i :: 0 <= i < |agents| ==> agents[i] != coral
    modifies coral, set i | 0 <= i < |agents| :: agents[i]
    ensures var cut := connected && disconnectError.Some?;
      teardown ==
        (if connected then [DisconnectToolkit] else []) +
        (if !cut && agents != [] then [StopAgentProcesses] else []) +
        (if !cut && coral != null then [StopServerProcess] else [])
    ensures DisconnectToolkit in teardown <==> connected
    ensures StopAgentProcesses in teardown <==> !(connected && disconnectError.Some?) && agents != []
    ensures StopServerProcess in teardown <==> !(connected && disconnectError.Some?) && coral != null
    ensures coral != null && StopServerProcess !in teardown ==>
      coral.state == old(coral.state) && coral.signals == old(coral.signals)
    ensures coral != null && StopServerProcess in teardown ==>
      && !coral.Running()
      && coral.signals == old(coral.signals) + StopSignals(old(coral.state), coral.exitsOnTerm)
    ensures StopAgentProcesses !in teardown ==> forall i :: 0 <= i < |agents| ==>
      agents[i].state == old(agents[i].state) && agents[i].signals == old(agents[i].signals)
    ensures StopAgentProcesses in teardown ==> forall i :: 0 <= i < |agents| ==>
      && !agents[i].Running()
      && agents[i].signals == old(agents[i].signals) + StopSignals(old(agents[i].state), agents[i].exitsOnTerm)
  {
    teardown := [];
    if connected {
      teardown := teardown + [DisconnectToolkit];
      if disconnectError.Some? {
        return;
      }
    }
    if agents != [] {
      StopAgents(agents);
      teardown := teardown + [StopAgentProcesses];
    }
    if coral != null {
      StopProcess(coral);
      teardown := teardown + [StopServerProcess];
    }
  }

  /**
   * Tasks `lo` to `hi - 1` that ran each found, in their final read, the
   * ledger they started from with something appended: no agent rewrote the
   * file and no read found it unreadable.
   */
  ghost predicate AppendedOnly(seen: seq<seq<Record>>, outcomes: seq<TaskOutcome>, envs: seq<TaskEnv>, lo: nat, hi: nat)
    requires hi <= |outcomes| && |outcomes| < |seen| && |outcomes| <= |envs|
  {
    forall m :: lo <= m < hi && !outcomes[m].Skipped? ==> StrictPrefix(seen[m], Load(envs[m].afterRead))
  }

  /**
   * The ledger over a run: `seen[k]` is the ledger as task k found it and
   * `seen[k + 1]` as it left it. A task is skipped exactly when its ledger
   * records it already; a skipped task leaves the ledger alone; any other
   * task leaves it alone or reconciles its final read, and a completed one
   * does reconcile; and the record of a completed task is still there for
   * every later task, as long as the tasks in between only saw the ledger
   * grow.
   */
  ghost predicate History(tasks: seq<Task>, envs: seq<TaskEnv>, outcomes: seq<TaskOutcome>, seen: seq<seq<Record>>) {
    && |envs| == |tasks| && |outcomes| <= |tasks| && |seen| == |outcomes| + 1
    && (forall k :: 0 <= k < |outcomes| ==> TaskStep(tasks[k], envs[k], seen[k], seen[k + 1], outcomes[k]))
    && (forall k, l :: 0 <= k < l <= |outcomes| && outcomes[k].Completed? && AppendedOnly(seen, outcomes, envs, k + 1, l) ==>
          AlreadyDone(seen[l], tasks[k].taskId))
  }

  /**
   * A task that repeats a completed one is skipped, as long as the ledger
   * only grew in between. The ledger here changes only by the driver's own
   * writes: what the agents write after a task's final read is not modelled.
   */
  lemma RepeatIsSkipped(tasks: seq<Task>, envs: seq<TaskEnv>, outcomes: seq<TaskOutcome>, seen: seq<seq<Record>>, k: nat, l: nat)
    requires History(tasks, envs, outcomes, seen)
    requires k < l < |outcomes| && outcomes[k].Completed? && tasks[l].taskId == tasks[k].taskId
    requires AppendedOnly(seen, outcomes, envs, k + 1, l)
    ensures outcomes[l].Skipped?
  {
    assert AlreadyDone(seen[l], tasks[k].taskId);
    assert TaskStep(tasks[l], envs[l], seen[l], seen[l + 1], outcomes[l]);
  }

  /**
   * `main`: touch the ledger, then run the tasks in order. An exception in a
   * task propagates out of the loop, so the run ends with that task.
   */
  method RunAll(tasks: seq<Task>, envs: seq<TaskEnv>, ledger: LedgerFile)
    returns (outcomes: seq<TaskOutcome>, ghost seen: seq<seq<Record>>, ghost sessions: seq<Option<Session>>)
    requires |envs| == |tasks|
    requires forall k :: 0 <= k < |envs| ==> ValidEnv(envs[k])
    modifies ledger
    ensures |outcomes| <= |tasks|
    ensures forall k :: 0 <= k < |outcomes| - 1 ==> !outcomes[k].Aborted?
    ensures |outcomes| < |tasks| ==> |outcomes| > 0 && outcomes[|outcomes| - 1].Aborted?
    ensures old(ledger.content) != Missing ==> |outcomes| > 0 || ledger.content == old(ledger.content)
    ensures History(tasks, envs, outcomes, seen)
    ensures seen[0] == old(ledger.Records()) && seen[|outcomes|] == ledger.Records()
    ensures |sessions| == |outcomes|
    ensures forall k :: 0 <= k < |outcomes| ==> Decided(tasks[k], envs[k], seen[k], sessions[k], outcomes[k])
  {
    ledger.Touch();
    outcomes, seen, sessions := [], [ledger.Records()], [];
    var k := 0;
    while k < |tasks|
      invariant 0 <= k <= |tasks| && |outcomes| == k
      invariant forall j :: 0 <= j < k ==> !outcomes[j].Aborted?
      invariant old(ledger.content) != Missing ==> k > 0 || ledger.content == old(ledger.content)
      invariant History(tasks, envs, outcomes, seen)
      invariant seen[0] == old(ledger.Records()) && seen[k] == ledger.Records()
      invariant |sessions| == k
      invariant forall j :: 0 <= j < k ==> Decided(tasks[j], envs[j], seen[j], sessions[j], outcomes[j])
    {
      ghost var session;
      var outcome, coral, agents, orphans, teardown;
      outcome, coral, agents, orphans, teardown, session := RunTask(tasks[k], envs[k], ledger);
      HistoryExtends(tasks, envs, outcomes, seen, outcome, ledger.Records());
      DecidedExtends(tasks, envs, outcomes, seen, sessions, outcome, ledger.Records(), session);
      outcomes, seen, sessions := outcomes + [outcome], seen + [ledger.Records()], sessions + [session];
      if outcome.Aborted? {
        return;
      }
      k := k + 1;
    }
  }

  /** One step of `RunAll` keeps every task's outcome decided by its environment. */
  lemma DecidedExtends(tasks: seq<Task>, envs: seq<TaskEnv>, outcomes: seq<TaskOutcome>, seen: seq<seq<Record>>,
                       sessions: seq<Option<Session>>, outcome: TaskOutcome, after: seq<Record>, session: Option<Session>)
    requires |outcomes| < |tasks| && |envs| == |tasks| && |seen| == |outcomes| + 1 && |sessions| == |outcomes|
    requires forall j :: 0 <= j < |outcomes| ==> Decided(tasks[j], envs[j], seen[j], sessions[j], outcomes[j])
    requires Decided(tasks[|outcomes|], envs[|outcomes|], seen[|outcomes|], session, outcome)
    ensures var outs, sn, ss := outcomes + [outcome], seen + [after], sessions + [session];
      forall j :: 0 <= j < |outs| ==> Decided(tasks[j], envs[j], sn[j], ss[j], outs[j])
  {
    var outs, sn, ss := outcomes + [outcome], seen + [after], sessions + [session];
    forall j | 0 <= j < |outs|
      ensures Decided(tasks[j], envs[j], sn[j], ss[j], outs[j])
    {
      if j < |outcomes| {
        assert outs[j] == outcomes[j] && sn[j] == seen[j] && ss[j] == sessions[j];
      }
    }
  }

  /** One step of `RunAll` keeps its history. */
  lemma HistoryExtends(tasks: seq<Task>, envs: seq<TaskEnv>, outcomes: seq<TaskOutcome>, seen: seq<seq<Record>>,
                       outcome: TaskOutcome, after: seq<Record>)
    requires History(tasks, envs, outcomes, seen) && |outcomes| < |tasks|
    requires TaskStep(tasks[|outcomes|], envs[|outcomes|], seen[|outcomes|], after, outcome)
    ensures History(tasks, envs, outcomes + [outcome], seen + [after])
  {
    var k := |outcomes|;
    var outs, sn := outcomes + [outcome], seen + [after];
    assert forall j :: 0 <= j < k ==> outs[j] == outcomes[j];
    assert forall j :: 0 <= j <= k ==> sn[j] == seen[j];
    RecordsExtend(tasks, envs, outcomes, seen, outcome, after);
  }

  /** The survival clause of `History` after one more task. */
  lemma RecordsExtend(tasks: seq<Task>, envs: seq<TaskEnv>, outcomes: seq<TaskOutcome>, seen: seq<seq<Record>>,
                      outcome: TaskOutcome, after: seq<Record>)
    requires History(tasks, envs, outcomes, seen) && |outcomes| < |tasks|
    requires TaskStep(tasks[|outcomes|], envs[|outcomes|], seen[|outcomes|], after, outcome)
    ensures var outs, sn := outcomes + [outcome], seen + [after];
      forall j, l :: 0 <= j < l <= |outs| && outs[j].Completed? && AppendedOnly(sn, outs, envs, j + 1, l) ==>
        AlreadyDone(sn[l], tasks[j].taskId)
  {
    var k := |outcomes|;
    var outs, sn := outcomes + [outcome], seen + [after];
    forall j, l | 0 <= j < l <= |outs| && outs[j].Completed? && AppendedOnly(sn, outs, envs, j + 1, l)
      ensures AlreadyDone(sn[l], tasks[j].taskId)
    {
      if l <= k {
        AppendedOnlyOfPrefix(seen, outcomes, envs, outcome, after, j + 1, l);
        assert sn[l] == seen[l];
      } else if j == k {
        ReconciledIsDone(Load(envs[k].afterRead), after, tasks[k].taskId);
      } else {
        AppendedOnlyOfPrefix(seen, outcomes, envs, outcome, after, j + 1, k);
        assert outs[j] == outcomes[j];
        assert AlreadyDone(seen[k], tasks[j].taskId);
        if after != seen[k] {
          assert outs[k] == outcome && sn[k] == seen[k];
          RecordSurvives(seen[k], Load(envs[k].afterRead), after, tasks[j].taskId, tasks[k].taskId);
        }
      }
    }
  }

  /** `AppendedOnly` over tasks already run does not depend on the task appended after them. */
  lemma AppendedOnlyOfPrefix(seen: seq<seq<Record>>, outcomes: seq<TaskOutcome>, envs: seq<TaskEnv>,
                             outcome: TaskOutcome, after: seq<Record>, lo: nat, hi: nat)
    requires hi <= |outcomes| < |envs| && |seen| == |outcomes| + 1
    requires AppendedOnly(seen + [after], outcomes + [outcome], envs, lo, hi)
    ensures AppendedOnly(seen, outcomes, envs, lo, hi)
  {
    forall m | lo <= m < hi && !outcomes[m].Skipped?
      ensures StrictPrefix(seen[m], Load(envs[m].afterRead))
    {
      assert (outcomes + [outcome])[m] == outcomes[m] && (seen + [after])[m] == seen[m];
    }
  }
}
