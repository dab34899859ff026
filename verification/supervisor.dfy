/**
 * The child processes of one task: the bus server and the agents. A process
 * is a handle whose state the driver changes by signalling it; spawning and
 * output streaming are outside the model.
 */
module Supervisor {

  /** The agent scripts, in the order the driver starts them. */
  const AgentScripts: seq<string> := [
    "web_agent.py",
    "planning_agent.py",
    "information_flow_orchestrator.py",
    "document_processing_agent.py",
    "coding_agent.py"
  ]

  /** Seconds `stop_process` waits after SIGTERM before it sends SIGKILL. */
  const GracePeriod: int := 5

  datatype ProcState = Alive | Exited | Killed

  datatype Signal = SigTerm | SigKill

  /** The signals `stop_process` sends to a process with the given state and behaviour. */
  function StopSignals(state: ProcState, exitsOnTerm: bool): (r: seq<Signal>)
    ensures r == [] <==> state != Alive
    ensures r != [] ==> r[0] == SigTerm
    ensures SigKill in r <==> state == Alive && !exitsOnTerm
  {
    if state != Alive then []
    else if exitsOnTerm then [SigTerm]
    else [SigTerm, SigKill]
  }

  class Proc {
    const name: string
    /** Whether the process exits within the grace period once it gets SIGTERM. */
    const exitsOnTerm: bool
    var state: ProcState
    /** The signals sent to the process so far. */
    var signals: seq<Signal>

    constructor Spawn(name: string, exitsOnTerm: bool)
      ensures this.name == name && this.exitsOnTerm == exitsOnTerm
      ensures state == Alive && signals == []
    {
      this.name := name;
      this.exitsOnTerm := exitsOnTerm;
      state := Alive;
      signals := [];
    }

    /** `p.poll() is None`. */
    predicate Running()
      reads this
    {
      state == Alive
    }

    /** `p.terminate()`: SIGTERM; a process that honours it exits within the grace period. */
    method Terminate()
      modifies this
      ensures signals == old(signals) + [SigTerm]
      ensures state == if old(state) == Alive && exitsOnTerm then Exited else old(state)
    {
      signals := signals + [SigTerm];
      if state == Alive && exitsOnTerm {
        state := Exited;
      }
    }

    /** `p.wait(timeout=5)`: whether it returned, that is, the process is no longer running. */
    method WaitGrace() returns (exited: bool)
      ensures exited <==> !Running()
    {
      exited := state != Alive;
    }

    /** The process ends by itself (its script returned or raised); no signal is involved. */
    method ExitOnItsOwn()
      modifies this
      ensures signals == old(signals)
      ensures state == if old(state) == Alive then Exited else old(state)
    {
      if state == Alive {
        state := Exited;
      }
    }

    /** `p.kill()`: SIGKILL, which a process cannot ignore. */
    method Kill()
      modifies this
      ensures signals == old(signals) + [SigKill]
      ensures state == if old(state) == Alive then Killed else old(state)
    {
      signals := signals + [SigKill];
      if state == Alive {
        state := Killed;
      }
    }
  }

  /**
   * `stop_process`: nothing for a missing or already finished process;
   * otherwise SIGTERM, and SIGKILL when the process is still running after
   * the grace period. Afterwards the process is not running.
   */
  method StopProcess(p: Proc?)
    modifies p
    ensures p != null ==> !p.Running()
    ensures p != null ==> p.signals == old(p.signals) + StopSignals(old(p.state), p.exitsOnTerm)
    ensures p != null && old(p.state) != Alive ==> p.state == old(p.state)
    ensures p != null && old(p.state) == Alive ==> p.state == if p.exitsOnTerm then Exited else Killed
  {
    if p != null && p.Running() {
      p.Terminate();
      var exited := p.WaitGrace();
      if !exited {
        p.Kill();
      }
    }
  }

  /**
   * `start_agents`: spawn one process per script, in order. Spawning the
   * `spawnable`-th script raises when `spawnable < |scripts|`; the processes
   * spawned before it are still returned here (`ok` false) although the
   * source loses them.
   */
  method StartAgents(scripts: seq<string>, spawnable: nat, exitsOnTerm: nat -> bool)
    returns (procs: seq<Proc>, ok: bool)
    ensures ok <==> spawnable >= |scripts|
    ensures |procs| == if ok then |scripts| else spawnable
    ensures forall i :: 0 <= i < |procs| ==> fresh(procs[i])
    ensures forall i :: 0 <= i < |procs| ==>
      procs[i].name == scripts[i] && procs[i].exitsOnTerm == exitsOnTerm(i) &&
      procs[i].state == Alive && procs[i].signals == []
    ensures forall i, j :: 0 <= i < j < |procs| ==> procs[i] != procs[j]
  {
    procs := [];
    var i := 0;
    while i < |scripts|
      invariant 0 <= i <= |scripts| && i <= spawnable
      invariant |procs| == i
      invariant forall k :: 0 <= k < i ==> fresh(procs[k])
      invariant forall k :: 0 <= k < i ==>
        procs[k].name == scripts[k] && procs[k].exitsOnTerm == exitsOnTerm(k) &&
        procs[k].state == Alive && procs[k].signals == []
      invariant forall k, l :: 0 <= k < l < i ==> procs[k] != procs[l]
    {
      if i == spawnable {
        return procs, false;
      }
      var p := new Proc.Spawn(scripts[i], exitsOnTerm(i));
      procs := procs + [p];
      i := i + 1;
    }
    ok := true;
  }

  /**
   * Processes ending by themselves while the driver is busy elsewhere: the
   * i-th of `procs` has ended when `exited(i)` holds.
   */
  method ExitSome(procs: seq<Proc>, exited: nat -> bool)
    requires forall i, j :: 0 <= i < j < |procs| ==> procs[i] != procs[j]
    modifies set i | 0 <= i < |procs| :: procs[i]
    ensures forall i :: 0 <= i < |procs| ==> procs[i].signals == old(procs[i].signals)
    ensures forall i :: 0 <= i < |procs| ==>
      procs[i].state == if exited(i) && old(procs[i].state) == Alive then Exited else old(procs[i].state)
  {
    var i := 0;
    while i < |procs|
      invariant 0 <= i <= |procs|
      invariant forall k :: 0 <= k < |procs| ==> procs[k].signals == old(procs[k].signals)
      invariant forall k :: 0 <= k < i ==>
        procs[k].state == if exited(k) && old(procs[k].state) == Alive then Exited else old(procs[k].state)
      invariant forall k :: i <= k < |procs| ==> procs[k].state == old(procs[k].state)
    {
      if exited(i) {
        procs[i].ExitOnItsOwn();
      }
      i := i + 1;
    }
  }

  /** `stop_agents`: `stop_process` on each agent in turn. */
  method StopAgents(procs: seq<Proc>)
    requires forall i, j :: 0 <= i < j < |procs| ==> procs[i] != procs[j]
    modifies set i | 0 <= i < |procs| :: procs[i]
    ensures forall i :: 0 <= i < |procs| ==> !procs[i].Running()
    ensures forall i :: 0 <= i < |procs| ==>
      procs[i].signals == old(procs[i].signals) + StopSignals(old(procs[i].state), procs[i].exitsOnTerm)
  {
    var i := 0;
    while i < |procs|
      invariant 0 <= i <= |procs|
      invariant forall k :: 0 <= k < i ==> !procs[k].Running()
      invariant forall k :: 0 <= k < i ==>
        procs[k].signals == old(procs[k].signals) + StopSignals(old(procs[k].state), procs[k].exitsOnTerm)
      invariant forall k :: i <= k < |procs| ==>
        procs[k].state == old(procs[k].state) && procs[k].signals == old(procs[k].signals)
    {
      StopProcess(procs[i]);
      i := i + 1;
    }
  }
}
