/** Task records: the payload that Redis stores, and the mutable object a worker edits. */
module Tasks {
  /** A uuid in hexadecimal. */
  datatype TaskId = TaskId(hex: string)

  datatype Mode = New | Resume | Secondary | Unknown

  datatype Status = Pending | Running | Success | Failed | Interrupted

  /** One serialised task record. Payloads round-trip, so a payload is the value it encodes. */
  datatype Task = Task(
    id: TaskId,
    project: string,
    requirement: string,
    workDir: string,
    configJson: string,
    mode: Mode,
    status: Status,
    retryCount: nat)
  {
    predicate IsTerminal() {
      status.Success? || status.Failed?
    }

    /** What `find_incomplete` looks for; an interrupted task is not incomplete in this sense. */
    predicate IsIncomplete() {
      status.Pending? || status.Running?
    }

    /** A task that may be queued: it waits for its first or its next attempt. */
    predicate IsWaiting() {
      status.Pending? || status.Interrupted?
    }
  }

  function Fresh(id: TaskId, project: string, requirement: string, workDir: string, configJson: string): Task {
    Task(id, project, requirement, workDir, configJson, Unknown, Pending, 0)
  }

  /** The status changes that the task life cycle allows. */
  predicate Allowed(before: Status, after: Status) {
    match before
    case Pending => after.Running? || after.Failed?
    case Running => after.Success? || after.Failed? || after.Interrupted?
    case Interrupted => after.Running? || after.Failed?
    case Success => false
    case Failed => false
  }

  /** The in-memory task object. `Transition` has no guard. */
  class TaskRecord {
    const id: TaskId
    const project: string
    const requirement: string
    const workDir: string
    const configJson: string
    var mode: Mode
    var status: Status
    var retryCount: nat

    /** Parses a payload. */
    constructor (payload: Task)
      ensures Payload() == payload
      ensures id == payload.id && project == payload.project && requirement == payload.requirement
      ensures workDir == payload.workDir && configJson == payload.configJson
      ensures mode == payload.mode && status == payload.status && retryCount == payload.retryCount
    {
      id, project, requirement := payload.id, payload.project, payload.requirement;
      workDir, configJson := payload.workDir, payload.configJson;
      mode, status, retryCount := payload.mode, payload.status, payload.retryCount;
    }

    /** Serialises the object. */
    function Payload(): Task
      reads this
    {
      Task(id, project, requirement, workDir, configJson, mode, status, retryCount)
    }

    method Transition(newStatus: Status)
      modifies this`status
      ensures Payload() == old(Payload()).(status := newStatus)
      ensures status == newStatus && mode == old(mode) && retryCount == old(retryCount)
    {
      status := newStatus;
    }
  }
}
