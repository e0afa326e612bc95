/** Mode routing: which engine entry point a task takes, given two checks that may fail. */
module Scheduling {
  import opened Wrappers
  import opened Tasks

  /** What the two disk checks answer; `None` is a check that raised. */
  datatype Probe = Probe(projectExists: Option<bool>, checkpointExists: Option<bool>)

  /** Both checks succeed: the project can be resumed. */
  const CHECKPOINT: Probe := Probe(Some(true), Some(true))

  predicate Holds(answer: Option<bool>) {
    answer == Some(true)
  }

  /** The routing table; `None` is the ValueError for an empty requirement without checkpoint. */
  function Decide(requirement: string, probe: Probe): Option<Mode> {
    if requirement == "" then
      if Holds(probe.checkpointExists) then Some(Resume) else None
    else if !Holds(probe.projectExists) then
      Some(New)
    else if Holds(probe.checkpointExists) then
      Some(Resume)
    else
      Some(Secondary)
  }

  /** The documented table, read row by row. */
  predicate Tabled(requirement: string, probe: Probe, mode: Option<Mode>) {
    var known, resumable := probe.projectExists == Some(true), probe.checkpointExists == Some(true);
    && mode != Some(Unknown)
    && (mode == None <==> requirement == "" && !resumable)
    && (mode == Some(Resume) <==> resumable && (requirement == "" || known))
    && (mode == Some(New) <==> requirement != "" && !known)
    && (mode == Some(Secondary) <==> requirement != "" && known && !resumable)
  }

  lemma DecisionTable(requirement: string, probe: Probe)
    ensures Tabled(requirement, probe, Decide(requirement, probe))
  {}

  /** A mode that a decision can have left on a task with this requirement. */
  predicate DecidedMode(requirement: string, mode: Mode) {
    mode != Unknown && (requirement == "" ==> mode == Resume)
  }

  class Scheduler {
    constructor () {}

    /** Writes the decided mode onto the task; on a ValueError the task is untouched. */
    method DecideTask(task: TaskRecord, probe: Probe) returns (mode: Option<Mode>)
      modifies task`mode
      ensures mode == Decide(task.requirement, probe) && Tabled(task.requirement, probe, mode)
      ensures mode.Some? ==> task.mode == mode.value
      ensures task.Payload() == if mode.Some? then old(task.Payload()).(mode := mode.value) else old(task.Payload())
    {
      if task.requirement == "" {
        var hasCheckpoint := match probe.checkpointExists { case Some(b) => b case None => false };
        if !hasCheckpoint {
          return None;
        }
        task.mode := Resume;
        return Some(Resume);
      }
      var projectExists := match probe.projectExists { case Some(b) => b case None => false };
      if !projectExists {
        task.mode := New;
        return Some(New);
      }
      var checkpointExists := match probe.checkpointExists { case Some(b) => b case None => false };
      task.mode := if checkpointExists then Resume else Secondary;
      mode := Some(task.mode);
    }
  }
}
