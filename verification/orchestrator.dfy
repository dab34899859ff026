/**
 * The orchestrator agent's helpers (information_flow_orchestrator.py): the
 * path rule that decides whether a task has a file, the filter over the bus
 * tools it may call, the answer-submission tool, the lifecycle timer and the
 * choice of initial prompt. The language model and the agent loop are
 * inputs, not part of the model.
 */
module Orchestrator {
  import opened Wrappers
  import opened Ledger
  import opened Mcp

  // ---------------------------------------------------------------------
  // Paths (POSIX `os.path`)
  // ---------------------------------------------------------------------

  /** `s.rfind(c)`: the index of the last occurrence of `c`, or -1. */
  function RFind(s: string, c: char): (k: int)
    ensures -1 <= k < |s|
    ensures k >= 0 ==> s[k] == c
    ensures forall j :: k < j < |s| ==> s[j] != c
  {
    if s == [] then -1
    else if s[|s| - 1] == c then |s| - 1
    else RFind(s[..|s| - 1], c)
  }

  /** `os.path.basename`: what follows the last '/'. */
  function Basename(p: string): (b: string)
    ensures '/' !in b
    ensures |b| <= |p| && b == p[|p| - |b|..]
    ensures |b| < |p| ==> p[|p| - |b| - 1] == '/'
  {
    p[RFind(p, '/') + 1..]
  }

  /** Some character of `s[lo..hi]` is not a '.'. */
  predicate HasNonDot(s: string, lo: int, hi: int) {
    exists i :: lo <= i < hi && 0 <= i < |s| && s[i] != '.'
  }

  /**
   * `os.path.splitext`: the extension starts at the last '.' after the last
   * '/', provided some character before it in the last component is not a
   * '.' (so ".bashrc" and "..." have none).
   */
  function SplitExt(p: string): (r: (string, string))
    ensures r.0 + r.1 == p
    ensures r.1 != [] ==> r.1[0] == '.'
  {
    var sep := RFind(p, '/');
    var dot := RFind(p, '.');
    if dot > sep && HasNonDot(p, sep + 1, dot) then (p[..dot], p[dot..]) else (p, [])
  }

  /** The two answers of `is_file_or_folder`, "file" and "folder". */
  datatype PathKind = File | Folder

  /** `is_file_or_folder`: a file when the base name has an extension. */
  function IsFileOrFolder(path: string): (kind: PathKind)
    ensures kind == File <==> SplitExt(Basename(path)).1 != []
  {
    var (_, ext) := SplitExt(Basename(path));
    if ext != [] then File else Folder
  }

  /** The last '.' of `b` has some character other than '.' before it. */
  predicate DottedName(b: string) {
    exists i, j :: 0 <= i < j < |b| && b[i] != '.' && b[j] == '.' && forall k :: j < k < |b| ==> b[k] != '.'
  }

  /** For a name without '/', `splitext` finds an extension exactly when the name is dotted. */
  lemma ExtensionIffDotted(b: string)
    requires '/' !in b
    ensures SplitExt(b).1 != [] <==> DottedName(b)
  {
    var dot := RFind(b, '.');
    assert RFind(b, '/') == -1;
    if SplitExt(b).1 != [] {
      var i :| 0 <= i < dot && b[i] != '.';
      assert b[dot] == '.';
    }
    if DottedName(b) {
      var i, j :| 0 <= i < j < |b| && b[i] != '.' && b[j] == '.' && forall k :: j < k < |b| ==> b[k] != '.';
      assert dot == j;
      assert HasNonDot(b, 0, dot);
    }
  }

  /** A path is classed a file exactly when its base name is dotted. */
  lemma FileIffDottedName(path: string)
    ensures IsFileOrFolder(path) == File <==> DottedName(Basename(path))
  {
    ExtensionIffDotted(Basename(path));
  }

  /** `os.path.join(a, b)` for two components. */
  function JoinPath(a: string, b: string): (p: string)
    ensures b != [] && b[0] == '/' ==> p == b
    ensures (b == [] || b[0] != '/') ==> StartsWith(p, a) && |b| <= |p| && p[|p| - |b|..] == b
  {
    if |b| > 0 && b[0] == '/' then b
    else if a == [] || a[|a| - 1] == '/' then a + b
    else a + "/" + b
  }

  /**
   * The driver passes the task's file as `join(root, file_name)`; a task
   * without a file (an empty name) is classed "folder", so its prompt names
   * no file.
   */
  lemma EmptyFileNameIsFolder(root: string)
    ensures IsFileOrFolder(JoinPath(root, "")) == Folder
  {
    var p := JoinPath(root, "");
    if p != [] {
      assert p[|p| - 1] == '/';
      assert RFind(p, '/') == |p| - 1;
    }
    assert Basename(p) == [];
  }

  // ---------------------------------------------------------------------
  // Tools
  // ---------------------------------------------------------------------

  /** The bus tools the orchestrator may call. */
  const AllowedTools: set<string> := {
    "create_thread", "add_participant", "remove_participant", "close_thread",
    "wait_for_mentions", "list_agents", "send_message"
  }

  /** A bus tool; `name` is its schema's function name. */
  datatype Tool = Tool(name: string, description: string)

  /** The tools handed to the orchestrator: the allowed ones, in their order. */
  function FilterTools(tools: seq<Tool>): (r: seq<Tool>)
    ensures |r| <= |tools|
    ensures forall t :: t in r <==> t in tools && t.name in AllowedTools
  {
    if tools == [] then []
    else (if tools[0].name in AllowedTools then [tools[0]] else []) + FilterTools(tools[1..])
  }

  /** Filtering a concatenation filters each part: the order is kept. */
  lemma {:induction false} FilterConcat(a: seq<Tool>, b: seq<Tool>)
    ensures FilterTools(a + b) == FilterTools(a) + FilterTools(b)
  {
    if a != [] {
      assert (a + b)[1..] == a[1..] + b;
      FilterConcat(a[1..], b);
    } else {
      assert a + b == b;
    }
  }

  /** A list of allowed tools passes unchanged; in particular filtering is idempotent. */
  lemma {:induction false} FilterKeepsAllowed(tools: seq<Tool>)
    requires forall i :: 0 <= i < |tools| ==> tools[i].name in AllowedTools
    ensures FilterTools(tools) == tools
  {
    if tools != [] {
      FilterKeepsAllowed(tools[1..]);
    }
  }

  lemma FilterIdempotent(tools: seq<Tool>)
    ensures FilterTools(FilterTools(tools)) == FilterTools(tools)
  {
    var r := FilterTools(tools);
    assert forall i :: 0 <= i < |r| ==> r[i] in r;
    FilterKeepsAllowed(r);
  }

  // ---------------------------------------------------------------------
  // Submitting an answer
  // ---------------------------------------------------------------------

  /** The answer the submit tool returns and records: a give-up stays a give-up. */
  function FinalAnswer(rawAnswer: string, formatted: string): (r: string)
    ensures rawAnswer == GiveUp ==> r == GiveUp
    ensures rawAnswer != GiveUp ==> r == formatted
  {
    if rawAnswer == GiveUp then GiveUp else formatted
  }

  /**
   * `submit_answer_tool`, after the formatting model has answered
   * `formatted`: dump the session's resources, then append one submission
   * record to the ledger, reading a missing or malformed file as empty. A
   * failure while listing or reading resources raises before anything is
   * written; so does a file that is not valid UTF-8, since the tool catches
   * only JSON decoding errors.
   */
  method SubmitAnswer(
    task: string, rawAnswer: string, formatted: string, now: int,
    toolkit: Toolkit, taskId: string,
    listResources: nat -> Result<seq<string>, string>,
    readResource: (nat, string) -> Result<seq<string>, string>,
    parse: string -> Option<Xml>,
    ledger: LedgerFile)
    returns (r: Result<string, string>)
    modifies ledger
    ensures var dump := ExpectedSubmissionDump(toolkit, listResources, readResource, parse);
      && (r.Ok? <==> dump.Ok? && !old(ledger.content).Undecodable?)
      && (r.Err? ==> ledger.content == old(ledger.content))
      && (dump.Err? ==> r == Err(dump.error))
      && (dump.Ok? && old(ledger.content).Undecodable? ==> r == Err(old(ledger.content).decodeError))
      && (r.Ok? ==> r.value == FinalAnswer(rawAnswer, formatted) &&
                    ledger.content == Stored(old(ledger.Records()) + [Submission(now, task, r.value, dump.value)]))
  {
    var answer := FinalAnswer(rawAnswer, formatted);
    var dump := SubmissionDump(toolkit, taskId, listResources, readResource, parse);
    if dump.Err? {
      return Err(dump.error);
    }
    if ledger.content.Undecodable? {
      return Err(ledger.content.decodeError);
    }
    var data := ledger.Records();
    ledger.Overwrite(data + [Submission(now, task, answer, dump.value)]);
    r := Ok(answer);
  }

  /**
   * A submission is what ends the driver's wait: appended to a ledger at
   * least `prevLen` long, it makes the ledger longer than `prevLen` and is its
   * last entry, while every prior entry is kept.
   */
  lemma SubmissionIsSeen(f: FileState, s: Record, prevLen: nat)
    requires |Load(f)| >= prevLen
    ensures var after := Load(Stored(Load(f) + [s]));
      |after| > prevLen && after[|after| - 1] == s && after[..|Load(f)|] == Load(f)
  {
    var after := Load(Stored(Load(f) + [s]));
    assert after == Load(f) + [s];
  }

  // ---------------------------------------------------------------------
  // Lifecycle timer
  // ---------------------------------------------------------------------

  const DefaultDurationMinutes: int := 40
  /** The duration the orchestrator starts its timer with. */
  const StartupDurationMinutes: int := 60

  /** What starting the timer reports. */
  datatype StartReport = StartReport(startTime: int, endTime: int, durationMinutes: int)

  /** What a query reports (the fields of its JSON text). */
  datatype QueryReport = QueryReport(
    isStarted: bool, remainingMinutes: Option<int>, remainingSeconds: Option<int>, timeUp: bool)

  /** The timer record; times are in seconds. */
  class LifecycleTimer {
    var isStarted: bool
    var startTime: Option<int>
    var endTime: Option<int>
    var durationMinutes: int

    /** The record before any start. */
    constructor ()
      ensures !isStarted && startTime == None && endTime == None
      ensures durationMinutes == DefaultDurationMinutes
      ensures Valid()
    {
      isStarted, startTime, endTime := false, None, None;
      durationMinutes := DefaultDurationMinutes;
    }

    /** Started exactly when both times are set, and then they are `durationMinutes` apart. */
    predicate Valid()
      reads this
    {
      && (isStarted <==> startTime.Some?)
      && (isStarted <==> endTime.Some?)
      && (isStarted ==> endTime.value == startTime.value + 60 * durationMinutes)
    }

    /** `start_lifecycle_timer_tool`: overwrite the record. */
    method Start(now: int, duration: int := DefaultDurationMinutes) returns (report: StartReport)
      modifies this
      ensures isStarted && startTime == Some(now) && endTime == Some(now + 60 * duration)
      ensures durationMinutes == duration
      ensures report == StartReport(now, now + 60 * duration, duration)
      ensures Valid()
    {
      isStarted := true;
      startTime := Some(now);
      endTime := Some(now + 60 * duration);
      durationMinutes := duration;
      report := StartReport(now, now + 60 * duration, duration);
    }

    /** `query_lifecycle_timer_tool` at time `now`. */
    function Query(now: int): (r: QueryReport)
      reads this
      requires Valid()
      ensures r.isStarted == isStarted
      ensures !isStarted ==> r == QueryReport(false, None, None, false)
      ensures isStarted ==> (r.timeUp <==> now >= endTime.value)
      ensures r.timeUp ==> r.remainingMinutes == Some(0) && r.remainingSeconds == Some(0)
      ensures isStarted && !r.timeUp ==>
        && r.remainingSeconds == Some(endTime.value - now)
        && r.remainingMinutes.Some?
        && 60 * r.remainingMinutes.value <= r.remainingSeconds.value < 60 * r.remainingMinutes.value + 60
    {
      if !isStarted then QueryReport(false, None, None, false)
      else
        var remaining := endTime.value - now;
        if remaining <= 0 then QueryReport(true, Some(0), Some(0), true)
        else QueryReport(true, Some(remaining / 60), Some(remaining), false)
    }
  }

  /**
   * At launch the orchestrator starts its timer once, for an hour rather than
   * the tool's default of 40 minutes.
   */
  method Launch(now: int) returns (timer: LifecycleTimer, report: StartReport)
    ensures fresh(timer) && timer.Valid()
    ensures timer.isStarted && timer.startTime == Some(now) && timer.durationMinutes == StartupDurationMinutes
    ensures report == StartReport(now, now + 3600, StartupDurationMinutes)
  {
    timer := new LifecycleTimer();
    report := timer.Start(now, StartupDurationMinutes);
  }

  /** A timer started at launch reports time up exactly from one hour after the launch on. */
  lemma LaunchTimeUpAfterOneHour(t: LifecycleTimer, now: int, elapsed: int)
    requires t.Valid() && t.startTime == Some(now) && t.durationMinutes == StartupDurationMinutes
    requires 0 <= elapsed
    ensures t.Query(now + elapsed).timeUp <==> elapsed >= 3600
  {
    QueryAfterStart(t, now, StartupDurationMinutes, elapsed);
  }

  /** Time only runs out: a later query reports no more time left than an earlier one. */
  lemma QueryMonotone(t: LifecycleTimer, early: int, late: int)
    requires t.Valid() && t.isStarted && early <= late
    ensures t.Query(early).timeUp ==> t.Query(late).timeUp
    ensures t.Query(late).remainingSeconds.value <= t.Query(early).remainingSeconds.value
    ensures t.Query(late).remainingMinutes.value <= t.Query(early).remainingMinutes.value
  {
    var e := t.endTime.value - early;
    var l := t.endTime.value - late;
  }

  /**
   * Started for `duration` minutes at `start`, the timer reports the whole
   * minutes and seconds left until the end, and time up from the end on.
   */
  lemma QueryAfterStart(t: LifecycleTimer, start: int, duration: int, elapsed: int)
    requires t.Valid() && t.startTime == Some(start) && t.durationMinutes == duration
    requires 0 <= elapsed
    ensures var r := t.Query(start + elapsed);
      && (r.timeUp <==> elapsed >= 60 * duration)
      && (!r.timeUp ==> r.remainingSeconds == Some(60 * duration - elapsed))
  {
  }

  // ---------------------------------------------------------------------
  // Initial prompt
  // ---------------------------------------------------------------------

  const PromptHead := "The task you need to approach is "
  const FileClause := ", and the related file name is "
  const ValueErrorMessage := "ValueError('GAIA_TASK_QUESTION is not set in environment variables')"
  /**
   * The instruction both prompts share; the file prompt insists on every
   * agent. Its opening ", call " is a literal of its own because the verifier
   * cannot look up single characters of a literal this long.
   */
  const AgentsClause := ", call " + "list_agents to discovery other agents then create a thread with "
  const FileTail := AgentsClause + "**ALL agents (NEVER MISS ANY ONE)** then start working."
  const FolderTail := AgentsClause + "all agents then start working."
  const TypeErrorMessage := "TypeError('expected str, bytes or os.PathLike object, not NoneType')"

  /**
   * The orchestrator's first prompt from the task and file variables: a
   * missing or empty task raises `ValueError`; a missing file variable makes
   * the path rule raise `TypeError`.
   */
  function InitialPrompt(task: Option<string>, fileName: Option<string>): (r: Result<string, string>)
    ensures r.Err? <==> task.None? || task.value == [] || fileName.None?
    ensures (task.None? || task.value == []) ==> r == Err(ValueErrorMessage)
    ensures task.Some? && task.value != [] && fileName.None? ==> r == Err(TypeErrorMessage)
    ensures r.Ok? ==> StartsWith(r.value, PromptHead + task.value)
  {
    if task.None? || task.value == [] then Err(ValueErrorMessage)
    else if fileName.None? then Err(TypeErrorMessage)
    else
      var head := PromptHead + task.value;
      var tail := if IsFileOrFolder(fileName.value) == File then FileClause + fileName.value + FileTail else FolderTail;
      PrefixOfConcat(head, tail);
      Ok(head + tail)
  }

  lemma PrefixOfConcat(a: string, b: string)
    ensures StartsWith(a + b, a)
  {
  }

  /** The prompt names the file, right after the task, exactly when the path is classed "file". */
  lemma PromptNamesFileIffFile(task: string, fileName: string)
    requires task != []
    ensures var r := InitialPrompt(Some(task), Some(fileName));
      var rest := r.value[|PromptHead + task|..];
      StartsWith(rest, FileClause + fileName) <==> IsFileOrFolder(fileName) == File
  {
    var head := PromptHead + task;
    var tail := if IsFileOrFolder(fileName) == File then FileClause + fileName + FileTail else FolderTail;
    assert InitialPrompt(Some(task), Some(fileName)).value == head + tail;
    assert (head + tail)[|head|..] == tail;
    var clause := FileClause + fileName;
    if IsFileOrFolder(fileName) != File {
      assert FolderTail[2] == AgentsClause[2] == 'c';
      assert clause[2] == FileClause[2] == 'a';
    } else {
      assert tail[..|clause|] == clause;
    }
  }
}
