# Agent-defined workflow: driver, orchestrator helpers and workforce guard

A Dafny model of the bookkeeping around the multi-agent GAIA benchmark run in
`agent_defined_workflow`. Three parts are modelled.

- **The driver.** Each task gets its own bus server and five agent processes. The driver then waits until an answer appears in the shared ledger `submitted_answers.json` or the task's deadline passes. It grades the answer against the gold answer after normalising both, rewrites the ledger, and tears the processes down.
- **The orchestrator agent's helpers.** These are the path rule that decides whether a task comes with a file, the filter over the bus tools the agent may call, the answer-submission tool (give-up override, resource dump, append to the ledger), the lifecycle timer and the choice of the first prompt.
- **The workforce utilities.** These are the guard that lets an operation run only in the expected running state, and the strict schemas of the workers' critique rounds.

Everything outside the program is an input of the model:

- clock readings;
- process behaviour;
- replies to pings;
- connection attempts;
- the bus session's listings and reads;
- the XML parser;
- every read of the ledger file while agents may be writing it.

Each read of the ledger is its own input, because the agents write the ledger concurrently. Exceptions are `Result` values. Processes are objects of the class `Supervisor.Proc` whose state the driver changes by signalling them. Times are integer seconds.

Modules, one per file:

- `Wrappers`: `Option` and `Result`.
- `Normalize`: the answer normaliser and the grading comparison.
- `Deadline`: the per-task timer.
- `Ledger`:
  - ledger records;
  - reading the file;
  - the skip rule;
  - reconciliation.
- `Mcp`:
  - the bus endpoint URL and its regular expression;
  - client choice;
  - the two resource dumps (the driver's and the submit tool's).
- `Setup`: the readiness probe and the connection retry loop.
- `Supervisor`: processes, `stop_process`, and starting and stopping agents.
- `Driver`:
  - the answer wait;
  - one task from set-up to teardown;
  - the task loop.
- `Orchestrator`:
  - paths;
  - tool filter;
  - submit tool;
  - lifecycle timer;
  - initial prompt.
- `Workforce`: the running-state guard and the critique schemas.

Behaviours of the code that the model follows deliberately:

- **Exceptions end the run.** A failure during set-up, such as the server not becoming ready, an agent not starting, the connection retries running out, or reconciling against an empty ledger, is not turned into a give-up record. The task body is `try`/`finally` with no `except`, so teardown runs and the exception then ends the whole run (`Driver.RunTask`, `Driver.RunAll`).
- **Cancellation is retried.** A cancelled connection attempt is recorded as `"CancelledError"` and retried like any other failure (`Setup.SetupWithRetry`).
- **Last-entry overwrite.** When an answer arrived, the driver overwrites the last entry of a fresh read of the ledger, whatever that entry is (`Ledger.Reconcile`).
- **Failed disconnect.** An exception while disconnecting the driver's toolkit skips the rest of the teardown. The agents and the server then get no signal, and each keeps running unless it ended on its own (`Driver.RunTask`).
- **Partial agent start.** When starting the agents fails part-way, the agents already spawned are never stopped. Nothing refers to them any more (`Driver.RunTask`'s `orphans`).
- **Unreadable ledger.** The ledger is rewritten from the driver's last read, and a missing, malformed or undecodable file reads as empty, because the driver catches every exception. A file unreadable at that moment therefore loses every earlier record (`Driver.UnreadableLedgerIsReplaced`). The submit tool catches only JSON decoding errors, so a file that is not valid UTF-8 makes it raise without writing (`Orchestrator.SubmitAnswer`).
- **Submit-tool reads.** The submit tool does not catch resource read failures, unlike the driver. The first failure aborts the submission before anything is written (`Mcp.SubmissionDump`, `Orchestrator.SubmitAnswer`).

## Model

| member | source | states |
|---|---|---|
| Normalize.Normalize | agent_defined_workflow/run.py:52-53 | `normalize`: lower-case, split on whitespace, join with single spaces; its properties are the lemmas below |
| Normalize.Words | agent_defined_workflow/run.py:53 | `split()` with no separator: the maximal runs of non-whitespace characters, in order (see `WordsAreWords`, `WordsOfJoin`) |
| Normalize.Join | agent_defined_workflow/run.py:53 | `" ".join`: the words with one space between consecutive ones (see `JoinIsNormal`) |
| Normalize.AnswersMatch | agent_defined_workflow/run.py:302 | the grading verdict `normalize(gold) == normalize(pred)` on `str()` of each answer |
| Normalize.Lower | agent_defined_workflow/run.py:53 | `lower()` keeps the length and lower-cases each character on its own |
| Normalize.WordsAreWords | agent_defined_workflow/run.py:53 | every piece `split()` yields is non-empty and free of whitespace |
| Normalize.WordsCharsFromInput | agent_defined_workflow/run.py:53 | `split()` yields only characters of its input |
| Normalize.JoinIsNormal | agent_defined_workflow/run.py:53 | joining lower-case words with single spaces gives a normal string: no upper case, no leading or trailing whitespace, and only single spaces between words |
| Normalize.NormalizeIsNormal | agent_defined_workflow/run.py:52-53 | every normalised answer is normal |
| Normalize.WordsOfJoin | agent_defined_workflow/run.py:53 | splitting words joined by single spaces gives the words back |
| Normalize.JoinOfWordsOfNormal | agent_defined_workflow/run.py:53 | splitting and re-joining a normal string gives it back |
| Normalize.NormalizeIdempotent | agent_defined_workflow/run.py:52-53 | normalising twice is normalising once |
| Normalize.NormalizeFixedPoint | agent_defined_workflow/run.py:52-53 | a string is left unchanged by `normalize` exactly when it is normal |
| Normalize.ParisExample | agent_defined_workflow/run.py:302 | gold " Paris " and prediction "paris" are graded correct |
| Normalize.NoNumericCoercion | agent_defined_workflow/run.py:302 | gold "12" and prediction "12.0" are graded wrong: no numeric comparison |
| Normalize.MissingGoldIsNone | agent_defined_workflow/run.py:300-302 | a missing gold answer compares as the text "none", via `str(None)` |
| Deadline.TaskTimer.constructor | agent_defined_workflow/run.py:38-40 | the timeout defaults to 1800 seconds and the timer starts unstarted |
| Deadline.TaskTimer.Start | agent_defined_workflow/run.py:42-43 | the start time becomes the current clock reading |
| Deadline.TaskTimer.Expired | agent_defined_workflow/run.py:45-46 | expired exactly when more than `timeout` seconds have passed since the start, strictly |
| Deadline.ExpiredIsMonotone | agent_defined_workflow/run.py:45-46 | once expired, a timer stays expired at every later time |
| Deadline.NotExpiredAtBoundary | agent_defined_workflow/run.py:45-46 | exactly `timeout` seconds after the start the timer has not expired; one second later it has |
| Ledger.Load | agent_defined_workflow/run.py:61-68 | a missing, malformed or undecodable ledger reads as the empty list, otherwise as its records |
| Ledger.LedgerFile.Touch | agent_defined_workflow/run.py:236 | a missing file becomes an empty one; its records read the same |
| Ledger.LedgerFile.Overwrite | agent_defined_workflow/run.py:317-318 | the file afterwards holds exactly the given records |
| Ledger.AlreadyDone | agent_defined_workflow/run.py:245 | the skip rule: some record carries the task's id (see `AlreadyDoneAppend`) |
| Ledger.AlreadyDoneAppend | agent_defined_workflow/run.py:245 | the skip rule holds for a concatenation exactly when it holds for one of its parts |
| Ledger.SubmissionsDoNotMarkDone | agent_defined_workflow/run.py:245 | appending a submission record, which has no `task_id`, never makes a task count as done |
| Ledger.GiveUpRecord | agent_defined_workflow/run.py:284-297 | the give-up record carries the task's id, level, question and gold answer; its answer is "Give up", it is not correct, and it has the terminate reason |
| Ledger.AnsweredRecord | agent_defined_workflow/run.py:299-314 | the graded record carries the prediction from the ledger's last entry; it is correct exactly when gold and prediction normalise equal; it has no terminate reason |
| Ledger.Reconcile | agent_defined_workflow/run.py:283-315 | on a timeout the ledger grows by one give-up record and nothing else changes; with an answer, the last entry is replaced by the graded record and the rest is kept, and an empty ledger is `IndexError('list assignment index out of range')`; a written ledger always records the task |
| Mcp.MatchServer | agent_defined_workflow/run.py:159 | the hand-written matcher for `http://([^/]+)/(.+)`, proved equal to the regular expression by `MatchServerIsRegex` |
| Mcp.MatchServerIsRegex | agent_defined_workflow/run.py:159 | the hand-written matcher succeeds with host `h` exactly when `http://([^/]+)/(.+)` matches with group one `h` |
| Mcp.TaskUrlMatches | agent_defined_workflow/run.py:157-163 | the task's endpoint URL always matches with host `localhost:5555`, so the `return {}` branch for a failed match is dead |
| Mcp.FirstClient | agent_defined_workflow/run.py:165-169 | a chosen client is one of the toolkit's clients and its URL starts with `http://<host>` |
| Mcp.FirstClientIsFirst | agent_defined_workflow/run.py:165-169 | none is chosen exactly when no client's URL starts with the prefix; otherwise the chosen client sits at a position before which no URL does |
| Mcp.FindClient | agent_defined_workflow/run.py:165-169 | the search loop finds exactly the client `FirstClient` describes |
| Mcp.FirstText | agent_defined_workflow/run.py:181 | a successful read gives its first content text, a failed read its error, and an empty content list `IndexError('list index out of range')` |
| Mcp.ParsedOrRaw | agent_defined_workflow/run.py:182-185 | when the parser accepts the text the entry is exactly the parsed document; when it refuses, exactly `{"raw_xml": text}` |
| Mcp.ArtifactOf | agent_defined_workflow/run.py:179-187 | a resource's entry is an error marker exactly when reading it failed; a raw entry holds the text the parser refused |
| Mcp.ExpectedDump | agent_defined_workflow/run.py:155-189 | the driver's dump as a value: empty without a matching client, the listing's failure, or one entry per listed URI; `GetResources` is proved to compute it |
| Mcp.GetResources | agent_defined_workflow/run.py:155-189 | the dump is empty without a matching client, the listing's failure when listing raises, and otherwise one entry per listed URI |
| Mcp.DumpResources | agent_defined_workflow/run.py:175-189 | the loop builds one entry per URI, each from that resource alone |
| Mcp.DumpToleratesFailures | agent_defined_workflow/run.py:178-187 | a failing read yields an error entry for that URI only; the dump still succeeds with every listed key |
| Mcp.FirstFailure | agent_defined_workflow/information_flow_orchestrator.py:226-229 | the first resource, in listing order, whose read fails, with its error (see `FirstFailureIsFirst`) |
| Mcp.FirstFailureIsFirst | agent_defined_workflow/information_flow_orchestrator.py:226-229 | the submit tool's dump fails exactly when some resource cannot be read, and then with the first such failure in listing order |
| Mcp.ExpectedSubmissionDump | agent_defined_workflow/information_flow_orchestrator.py:209-235 | the submit tool's dump as a value: like the driver's, except that the first failing read ends it; `SubmissionDump` is proved to compute it |
| Mcp.SubmissionDump | agent_defined_workflow/information_flow_orchestrator.py:209-235 | the submit tool's dump is empty without a matching client; the first listing or read failure aborts it; otherwise one parsed-or-raw entry per URI |
| Mcp.ReadAllResources | agent_defined_workflow/information_flow_orchestrator.py:226-235 | the read loop stops at the first unreadable resource, otherwise fills one entry per URI |
| Setup.WaitForSseReady | agent_defined_workflow/run.py:125-135 | ready exactly when a ping got a reply before `timeout` seconds passed, with every earlier ping in time and failed, which is exactly when the environment's pings and clock allow a reply in time; otherwise `TimeoutError` |
| Setup.NoReplyInTime | agent_defined_workflow/run.py:125-135 | a probe whose clock ran out after failed pings had no reply in time to find |
| Setup.CauseOf | agent_defined_workflow/run.py:142-145 | the cause a failed attempt leaves in `last_exc`: "CancelledError" for a cancellation, otherwise the exception's text |
| Setup.SetupWithRetry | agent_defined_workflow/run.py:137-150 | at most `retries` attempts (default 5); the first success is returned and every earlier attempt failed; after `retries` failures the error carries the last cause, "CancelledError" for a cancellation |
| Supervisor.StopSignals | agent_defined_workflow/run.py:106-112 | a process that is no longer alive gets no signal; an alive one gets SIGTERM first, and SIGKILL exactly when it ignores SIGTERM |
| Supervisor.Proc.Spawn | agent_defined_workflow/run.py:199-205 | a spawned process is alive and has received no signal |
| Supervisor.Proc.Terminate | agent_defined_workflow/run.py:108 | SIGTERM is sent; a process that honours it has exited by the end of the grace period |
| Supervisor.Proc.WaitGrace | agent_defined_workflow/run.py:109-110 | the wait succeeds exactly when the process is no longer running |
| Supervisor.Proc.Kill | agent_defined_workflow/run.py:111-112 | SIGKILL is sent and an alive process is killed |
| Supervisor.StopProcess | agent_defined_workflow/run.py:106-113 | a missing or finished process gets no signal; an alive one gets SIGTERM, and SIGKILL too if it ignores SIGTERM; afterwards it is not running |
| Supervisor.Proc.ExitOnItsOwn | agent_defined_workflow/run.py:107 | a process may end by itself, so that `poll()` then finds it finished; it receives no signal |
| Supervisor.ExitSome | agent_defined_workflow/run.py:107 | the chosen alive processes end by themselves, the others keep their state, and none gets a signal |
| Supervisor.StartAgents | agent_defined_workflow/run.py:195-208 | the five scripts are spawned in order as distinct alive processes; the start fails exactly when a spawn fails |
| Supervisor.StopAgents | agent_defined_workflow/run.py:211-214 | every agent is stopped, each with the signals `stop_process` sends it |
| Driver.TaskFile | agent_defined_workflow/run.py:255 | a task with no file name is given the folder `GAIA_ROOT`; an absolute name is given alone; otherwise the path starts with the root and ends with the name |
| Driver.ResourcesOf | agent_defined_workflow/run.py:278-281 | the record's `resources` are the collected dump, or the error the collection raised |
| Driver.WaitForAnswer | agent_defined_workflow/run.py:220-228 | the deadline is checked before each ledger read; a timeout means no record and an expired timer; a normal end means an unexpired timer, a ledger longer than before, and its last entry; every earlier check found neither; the number of checks is bounded by the timeout |
| Driver.WrittenIsReconciled | agent_defined_workflow/run.py:285-318 | both ways of writing a task's outcome keep the rest of the read ledger and put the task's record last |
| Driver.ReconciledIsDone | agent_defined_workflow/run.py:245 | a ledger the driver has written makes the task count as done, so a rerun skips it |
| Driver.UnreadableLedgerIsReplaced | agent_defined_workflow/run.py:61-68 | a ledger written after a read that found the file missing, malformed or undecodable holds this task's record alone |
| Driver.RecordSurvives | agent_defined_workflow/run.py:283-318 | an earlier task's record is still in the ledger a later task writes, when that task's final read held the earlier ledger with entries appended |
| Driver.RecordAnswer | agent_defined_workflow/run.py:275-318 | the wait is the one `wait_for_answer` has for this ledger and deadline, and the resources are the driver's dump or its error; with no answer the final read gets the give-up record appended; with an answer its last entry is replaced by the graded record; an answer with an empty final read is `IndexError` and writes nothing |
| Driver.StartProcesses | agent_defined_workflow/run.py:263-267 | the step that fails is the one the environment decides (`StartFailure`): the server spawn, else the readiness probe with `TimeoutError`, else the first agent script that does not spawn; each process created is new, running and unsignalled; the agents are kept only when all five started, otherwise the spawned ones are orphans, as many as spawned |
| Driver.TryTask | agent_defined_workflow/run.py:262-320 | the exception is the one the environment decides (`TryFailure`): the first steps', else the connection's after five failed attempts carrying the fifth cause, else reconciling an empty ledger; the toolkit is that of the first successful attempt; once connected, the session and the ledger written are those of `RecordAnswer` |
| Driver.RunTask | agent_defined_workflow/run.py:245-328 | the outcome is the one `ExpectedOutcome` gives for the environment and the ledger found: skipped exactly when the ledger records the task, else the disconnect's exception, else the `try` block's, else completed; otherwise the teardown disconnects, then stops the agents, then stops the server, each only if created, as `TeardownFor` lists per outcome, and each stopped process gets the signals `stop_process` sends it; a disconnect failure leaves every process unsignalled; a connected task wrote the ledger of its session, or nothing when reconciling failed |
| Driver.Conclude | agent_defined_workflow/run.py:262-328 | the outcome is the disconnect's exception if it raised, else the `try` block's, else completion; the teardown steps are those `TeardownFor` lists for that outcome |
| Driver.Finally | agent_defined_workflow/run.py:322-328 | the `finally` block after processes may have ended on their own: the teardown steps run as the toolkit, agents and server require, with each process's signals fixed by whether it was still alive |
| Driver.EndOnTheirOwn | agent_defined_workflow/run.py:107 | before the `finally` block the server and each agent may have ended by themselves, as the environment says; none has been signalled |
| Driver.Teardown | agent_defined_workflow/run.py:322-328 | disconnect first; a failed disconnect skips the rest; the agents are stopped before the server |
| Driver.RunAll | agent_defined_workflow/run.py:234-330 | tasks run in order until the first one that aborts, which ends the run; each task's outcome and session are those its environment and the ledger it found decide (`Decided`); the ledger history holds: each task is skipped exactly when the ledger it found records it, a skipped task leaves the ledger alone, a completed one writes a reconciliation of its final read, and its record stays while later reads only grow the ledger |
| Driver.HistoryExtends | agent_defined_workflow/run.py:236-330 | the ledger history of a run extends by one task's outcome |
| Driver.DecidedExtends | agent_defined_workflow/run.py:236-330 | one more task keeps every outcome of the run decided by its environment |
| Driver.RepeatIsSkipped | agent_defined_workflow/run.py:245 | a later task with a completed task's id is skipped, as long as the ledger only grew in between |
| Orchestrator.Basename | agent_defined_workflow/information_flow_orchestrator.py:42 | the base name is the longest suffix without '/' |
| Orchestrator.SplitExt | agent_defined_workflow/information_flow_orchestrator.py:43 | root and extension re-assemble the name, and a non-empty extension starts with '.' |
| Orchestrator.IsFileOrFolder | agent_defined_workflow/information_flow_orchestrator.py:41-47 | "file" exactly when `splitext` finds an extension in the base name |
| Orchestrator.ExtensionIffDotted | agent_defined_workflow/information_flow_orchestrator.py:43-44 | in a name without '/', `splitext` finds an extension exactly when the last '.' has a character other than '.' before it |
| Orchestrator.FileIffDottedName | agent_defined_workflow/information_flow_orchestrator.py:41-47 | a path is classed "file" exactly when its base name's last '.' follows some character other than '.' |
| Orchestrator.JoinPath | agent_defined_workflow/run.py:255 | `os.path.join` keeps an absolute second part alone, otherwise ends with it after the first part |
| Orchestrator.EmptyFileNameIsFolder | agent_defined_workflow/run.py:255 | a task with no file name gets a path classed "folder" |
| Orchestrator.FilterTools | agent_defined_workflow/information_flow_orchestrator.py:113-126 | the kept tools are exactly those whose name is allowed |
| Orchestrator.FilterConcat | agent_defined_workflow/information_flow_orchestrator.py:123-126 | filtering commutes with concatenation, so the original order is kept |
| Orchestrator.FilterKeepsAllowed | agent_defined_workflow/information_flow_orchestrator.py:123-126 | a list of allowed tools passes unchanged |
| Orchestrator.FilterIdempotent | agent_defined_workflow/information_flow_orchestrator.py:123-126 | filtering twice is filtering once |
| Orchestrator.FinalAnswer | agent_defined_workflow/information_flow_orchestrator.py:203-206 | a "Give up" raw answer stays "Give up" whatever the formatter produced; otherwise the formatted answer is used |
| Orchestrator.SubmitAnswer | agent_defined_workflow/information_flow_orchestrator.py:205-262 | on success it returns the final answer, and the ledger is the previous records (empty if missing or malformed) plus exactly one submission record; a dump failure, or a file that is not valid UTF-8, raises and writes nothing |
| Orchestrator.SubmissionIsSeen | agent_defined_workflow/information_flow_orchestrator.py:246-260 | a submission makes the ledger longer than the driver's last length and becomes its last entry, keeping every prior record |
| Orchestrator.LifecycleTimer.constructor | agent_defined_workflow/information_flow_orchestrator.py:264-269 | the initial record is not started, has no times and a 40-minute duration |
| Orchestrator.LifecycleTimer.Start | agent_defined_workflow/information_flow_orchestrator.py:271-312 | starting sets the record started, with the end `duration` minutes after the start, and reports the same |
| Orchestrator.LifecycleTimer.Query | agent_defined_workflow/information_flow_orchestrator.py:338-366 | not started: no remaining fields and not time-up; time-up exactly from the end time on, with both fields 0; otherwise the seconds left and the whole minutes among them |
| Orchestrator.Launch | agent_defined_workflow/information_flow_orchestrator.py:314 | the orchestrator starts a 60-minute lifecycle timer at launch, ending 3600 seconds later |
| Orchestrator.LaunchTimeUpAfterOneHour | agent_defined_workflow/information_flow_orchestrator.py:314 | after launch, time is up exactly when an hour has elapsed |
| Orchestrator.QueryMonotone | agent_defined_workflow/information_flow_orchestrator.py:349-366 | a later query never reports more time left, and once time is up it stays up |
| Orchestrator.QueryAfterStart | agent_defined_workflow/information_flow_orchestrator.py:300-366 | after a start, time is up exactly when `60 * duration` seconds have elapsed, and before that the seconds left are the rest |
| Orchestrator.InitialPrompt | agent_defined_workflow/information_flow_orchestrator.py:375-387 | a missing or empty task is a `ValueError`; with a task, a missing file variable is exactly the `TypeError` of `os.path.basename(None)`; a prompt begins with the task |
| Orchestrator.PromptNamesFileIffFile | agent_defined_workflow/information_flow_orchestrator.py:384-387 | the file name follows the task in the prompt exactly when the path is classed "file" |
| Workforce.Status | agent_defined_workflow/utils/camel/societies/workforce/utils.py:105 | the reported status is "not running" when running was required and "running" otherwise |
| Workforce.CheckIfRunning | agent_defined_workflow/utils/camel/societies/workforce/utils.py:93-114 | the wrapper keeps the wrapped operation's name |
| Workforce.GuardPassesThrough | agent_defined_workflow/utils/camel/societies/workforce/utils.py:103-110 | in the required state the wrapper returns the operation's own result |
| Workforce.GuardRefuses | agent_defined_workflow/utils/camel/societies/workforce/utils.py:104-109 | otherwise the wrapper raises `RuntimeError`, and its result does not depend on the operation, which is never invoked |
| Workforce.GuardMessage | agent_defined_workflow/utils/camel/societies/workforce/utils.py:106-108 | the refusal message ends with the refused operation's name and a full stop |
| Workforce.MessageNamesOperation | agent_defined_workflow/utils/camel/societies/workforce/utils.py:106-108 | the error message ends with the operation's name |
| Workforce.ParseCritiqueItem | agent_defined_workflow/utils/camel/societies/workforce/utils.py:58-63 | an item validates exactly when it is an object with precisely the string fields `target` and `issue` |
| Workforce.ParseItems | agent_defined_workflow/utils/camel/societies/workforce/utils.py:76-80 | a list validates exactly when each item does, position by position |
| Workforce.ParseRound2 | agent_defined_workflow/utils/camel/societies/workforce/utils.py:65-80 | round two validates exactly when it has only `critiques`, a non-empty list of valid items |
| Workforce.ParseRound3 | agent_defined_workflow/utils/camel/societies/workforce/utils.py:82-91 | round three validates exactly when it has only the string `final_opinion` |
| Workforce.ItemRoundTrip | agent_defined_workflow/utils/camel/societies/workforce/utils.py:58-63 | an item validates from its dump, and only its dump validates to it |
| Workforce.ItemsRoundTrip | agent_defined_workflow/utils/camel/societies/workforce/utils.py:76-80 | lists of items round-trip both ways |
| Workforce.Round2RoundTrip | agent_defined_workflow/utils/camel/societies/workforce/utils.py:65-80 | a non-empty round two validates from its dump, and only its dump validates to it |
| Workforce.EmptyCritiquesRejected | agent_defined_workflow/utils/camel/societies/workforce/utils.py:76-80 | an empty critique list never validates |
| Workforce.Round3RoundTrip | agent_defined_workflow/utils/camel/societies/workforce/utils.py:82-91 | round three round-trips both ways |
| Workforce.ExtraFieldRejected | agent_defined_workflow/utils/camel/societies/workforce/utils.py:58-91 | a field outside a schema makes validation fail |

## Left out

- Normalize.Lower: only ASCII letters are lower-cased. Python's full Unicode case mapping is not modelled, and some of its mappings change a string's length.
- Deadline.TaskTimer.Expired: time is integer seconds; `time.time()` floats are not modelled.
- Orchestrator.LifecycleTimer.Query: time is integer seconds. The truncation of a fractional remaining time by `int()` is not modelled, nor are ISO timestamp strings.
- Orchestrator.LifecycleTimer.constructor: the orchestrator's `main` binds a local timer record, but the tools' `global` declaration makes them use a module-level one. The model has a single record, and the difference matters only for a query made before any start, which the program never makes.
- Orchestrator.IsFileOrFolder: its two answers are an enumeration, not the strings "file" and "folder".
- Supervisor.StartAgents: when a spawn fails, it still returns the agents already spawned, as `orphans`, so that their fate is visible. The source loses them with the exception.
- Driver.RunTask: a cancellation (`asyncio.CancelledError`, which `except Exception` does not catch) while collecting resources is not modelled. Exceptions in the teardown's stop steps are not modelled either.
- Driver.WaitForAnswer: ledger reads are arbitrary inputs, so the agents' concurrent writes, and their timing relative to the driver's reads, are not modelled beyond that.
- Setup.WaitForSseReady: a ping's own 5-second timeout is part of the clock readings, not modelled separately. Its clock readings are required to advance by at least the ping interval per attempt, which is what bounds the loop; a wall clock stepped back would stretch the source's wait, and that is not modelled.
- Driver.WaitForAnswer: its clock readings are required to advance by at least the poll interval per check, which bounds the loop; a wall clock stepped back would stretch the source's wait, and that is not modelled.
- Driver.RunAll: the ledger object changes only by the driver's own writes; the agents' writes reach the model only through the driver's reads. The agents keep running after the driver's write until `stop_agents` (run.py:317-326), and for good after a failed disconnect. A submission they write in that window can rewrite or truncate the file the next task's skip check reads, so the history, `RepeatIsSkipped` included, assumes the agents leave the file as the driver wrote it.
- Driver.RunAll: the survival of a completed task's record is promised only while the later tasks' final reads held the ledger with entries appended; a later read that finds the file shrunk or unreadable can drop it, as `UnreadableLedgerIsReplaced` shows.
- Each task's environment variables are not modelled: `GAIA_TASK_ID`, `GAIA_TASK_QUESTION` and `GAIA_TASK_FILE` appear as parameters. Reading the task list with `read_jsonl` is not modelled: the tasks are an input.
- The driver's ledger path is fixed next to `run.py`, while the submit tool writes `submitted_answers.json` relative to its working directory. The model assumes both name the same file.
- JSON encoding and decoding are not modelled. A readable ledger is a list of records, and a ledger that decodes to something other than a list is not modelled. `xmltodict.parse` is an input that accepts or refuses a text.
- The language model is not modelled. The submit tool's formatting call is an input, `formatted`, and the agent loop (`run_agent_loop`), the system message and the agent scripts are outside the model.
- Process spawning, output streaming threads, `urllib` pings and `asyncio.sleep` are not modelled. Their effects appear only as process states and clock readings.
- Logging with `print` is not modelled.
- The top-level `except asyncio.CancelledError` that exits with status 1 (run.py:333-338) is not modelled: there is no process exit status, and a cancellation while waiting is not an input.
