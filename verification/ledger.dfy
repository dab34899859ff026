/**
 * The shared answer ledger (`submitted_answers.json`): its records, how a
 * read tolerates a missing or malformed file, the driver's skip rule and the
 * driver's reconciliation of a task's outcome into the ledger.
 */
module Ledger {
  import opened Wrappers
  import opened Normalize

  /** A parsed XML document, as the XML parser returns it. */
  datatype Xml = Element(tag: string, attributes: map<string, string>, children: seq<Xml>) | Text(text: string)

  /** What a resource dump holds for one resource URI. */
  datatype Artifact =
    | Parsed(doc: Xml)          // the parsed XML
    | RawXml(raw: string)       // `{"raw_xml": raw}`: the text did not parse
    | ReadError(error: string)  // `{"error": repr(e)}`: the text could not be read

  /** The `resources` field of a driver record. */
  datatype Resources =
    | Dump(entries: map<string, Artifact>)
    | CollectorError(error: string)  // `{"error": repr(e)}`: the collection itself raised

  datatype Reason = Normal | Timeout

  /** One benchmark item of the task list. */
  datatype Task = Task(taskId: string, question: string, fileName: string, level: string, finalAnswer: Option<string>)

  /** The text the give-up record carries as its answer. */
  const GiveUp := "Give up"

  /** One element of the ledger's JSON array. */
  datatype Record =
      /** Written by the orchestrator's submit tool. */
    | Submission(timestamp: int, task: string, submitted: string, dump: map<string, Artifact>)
      /** Written by the driver; `terminateReason` is absent (`None`) on an answered task. */
    | Outcome(startTimestamp: int, finishTimestamp: int, taskId: string, level: string, question: string,
              finalAnswer: Option<string>, coralAnswer: Option<string>, correct: bool,
              terminateReason: Option<Reason>, resources: Resources)

  /** `r.get("task_id")`. */
  function TaskIdOf(r: Record): Option<string> {
    match r
    case Submission(_, _, _, _) => None
    case Outcome(_, _, id, _, _, _, _, _, _, _) => Some(id)
  }

  /** `r.get("coral_answer")`. */
  function CoralAnswerOf(r: Record): Option<string> {
    match r
    case Submission(_, _, answer, _) => Some(answer)
    case Outcome(_, _, _, _, _, _, answer, _, _, _) => answer
  }

  /** The ledger file as found on disk. */
  datatype FileState =
    | Missing
    | Malformed                 // valid UTF-8 but not valid JSON (an empty file included)
    | Undecodable(decodeError: string)  // not valid UTF-8, e.g. cut mid-character; the `repr` of the decode error
    | Stored(records: seq<Record>)

  /**
   * The driver's `load_answers`: it catches every exception, so a missing,
   * malformed or undecodable file reads as the empty ledger.
   */
  function Load(f: FileState): (r: seq<Record>)
    ensures f.Stored? ==> r == f.records
    ensures !f.Stored? ==> r == []
  {
    match f
    case Stored(records) => records
    case _ => []
  }

  /** The ledger file, read whole and rewritten whole. */
  class LedgerFile {
    var content: FileState

    constructor (content0: FileState)
      ensures content == content0
    {
      content := content0;
    }

    function Records(): seq<Record>
      reads this
    {
      Load(content)
    }

    /** `Path.touch(exist_ok=True)`: a missing file becomes an empty, hence malformed, one. */
    method Touch()
      modifies this
      ensures content == (if old(content) == Missing then Malformed else old(content))
      ensures Records() == old(Records())
    {
      if content == Missing {
        content := Malformed;
      }
    }

    /** `json.dump(records, f)` over the whole file. */
    method Overwrite(records: seq<Record>)
      modifies this
      ensures content == Stored(records)
      ensures Records() == records
    {
      content := Stored(records);
    }
  }

  /** The driver's skip rule: some record already carries this task's id. */
  predicate AlreadyDone(ledger: seq<Record>, taskId: string) {
    exists i :: 0 <= i < |ledger| && TaskIdOf(ledger[i]) == Some(taskId)
  }

  /** The skip rule looks at each record independently. */
  lemma AlreadyDoneAppend(a: seq<Record>, b: seq<Record>, taskId: string)
    ensures AlreadyDone(a + b, taskId) <==> AlreadyDone(a, taskId) || AlreadyDone(b, taskId)
  {
    if AlreadyDone(a + b, taskId) {
      var i :| 0 <= i < |a + b| && TaskIdOf((a + b)[i]) == Some(taskId);
      if i >= |a| {
        assert b[i - |a|] == (a + b)[i];
      }
    }
    if AlreadyDone(a, taskId) {
      var i :| 0 <= i < |a| && TaskIdOf(a[i]) == Some(taskId);
      assert (a + b)[i] == a[i];
    }
    if AlreadyDone(b, taskId) {
      var i :| 0 <= i < |b| && TaskIdOf(b[i]) == Some(taskId);
      assert (a + b)[|a| + i] == b[i];
    }
  }

  /** Records the submit tool writes carry no task id, so they never make a task count as done. */
  lemma SubmissionsDoNotMarkDone(ledger: seq<Record>, s: Record, taskId: string)
    requires s.Submission?
    ensures AlreadyDone(ledger + [s], taskId) <==> AlreadyDone(ledger, taskId)
  {
    AlreadyDoneAppend(ledger, [s], taskId);
  }

  /** The record the driver appends when no answer arrived in time. */
  function GiveUpRecord(task: Task, startTs: int, finishTs: int, reason: Reason, resources: Resources): (r: Record)
    ensures TaskIdOf(r) == Some(task.taskId)
    ensures r.Outcome? && r.coralAnswer == Some(GiveUp) && !r.correct && r.terminateReason == Some(reason)
    ensures r.finalAnswer == task.finalAnswer && r.question == task.question && r.level == task.level
  {
    Outcome(startTs, finishTs, task.taskId, task.level, task.question, task.finalAnswer,
            Some(GiveUp), false, Some(reason), resources)
  }

  /** The record the driver writes over the last entry when an answer arrived. */
  function AnsweredRecord(task: Task, startTs: int, finishTs: int, answer: Record, resources: Resources): (r: Record)
    ensures TaskIdOf(r) == Some(task.taskId)
    ensures r.Outcome? && r.coralAnswer == CoralAnswerOf(answer) && r.terminateReason == None
    ensures r.correct <==> AnswersMatch(task.finalAnswer, CoralAnswerOf(answer))
    ensures r.finalAnswer == task.finalAnswer && r.question == task.question && r.level == task.level
  {
    var gold := task.finalAnswer;
    var pred := CoralAnswerOf(answer);
    Outcome(startTs, finishTs, task.taskId, task.level, task.question, gold,
            pred, AnswersMatch(gold, pred), None, resources)
  }

  /** What assigning to the last entry of an empty list raises. */
  const ListAssignError := "IndexError('list assignment index out of range')"

  /**
   * Reconciliation in the driver: on a timeout append a give-up record, otherwise
   * overwrite the LAST entry of the freshly read ledger, whatever it holds.
   * Overwriting the last entry of an empty ledger is an `IndexError`.
   */
  method Reconcile(allAns: seq<Record>, answer: Option<Record>, reason: Reason, task: Task,
                   startTs: int, finishTs: int, resources: Resources)
    returns (r: Result<seq<Record>, string>)
    ensures answer.None? ==> r == Ok(allAns + [GiveUpRecord(task, startTs, finishTs, reason, resources)])
    ensures answer.Some? && allAns == [] ==> r == Err(ListAssignError)
    ensures answer.Some? && allAns != [] ==>
      r == Ok(allAns[..|allAns| - 1] + [AnsweredRecord(task, startTs, finishTs, answer.value, resources)])
    ensures r.Ok? ==> AlreadyDone(r.value, task.taskId)
  {
    var all := allAns;
    if answer.None? {
      var giveUp := GiveUpRecord(task, startTs, finishTs, reason, resources);
      all := all + [giveUp];
      assert TaskIdOf(all[|all| - 1]) == Some(task.taskId);
    } else {
      if |all| == 0 {
        return Err(ListAssignError);
      }
      var answered := AnsweredRecord(task, startTs, finishTs, answer.value, resources);
      all := all[|all| - 1 := answered];
      assert all == allAns[..|allAns| - 1] + [answered];
      assert TaskIdOf(all[|all| - 1]) == Some(task.taskId);
    }
    r := Ok(all);
  }
}
