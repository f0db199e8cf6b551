// The loop record, its work items and the row writes of
// server/internal/loop/loop.go and store.go.
module LoopTypes {
  import opened Base

  datatype Status = Pending | Running | Paused | Done | Failed | Cancelled

  datatype Stage = Plan | Develop | Review | Fix

  datatype TaskType = LoopPlan | LoopDevelop | LoopReview | LoopFix

  datatype FailureReason =
    | MaxIterations | LoopTimeout | StageTimeout | PrCreateFailed
    | ContextExceeded | ContentFilter | InvalidConfig | Unrecoverable

  // What an agent id string can be: "" falls through to the loop's own agent,
  // a string of blanks does not.
  datatype AgentId = EmptyId | BlankId | MalformedId | Id(uuid: nat)

  datatype LoopRow = LoopRow(
    status: Status, stage: Option<Stage>, iteration: int, maxIterations: int,
    prUrl: Option<string>, prNumber: Option<int>, branch: Option<string>,
    workspace: nat, agent: Option<AgentId>, stageAgents: map<Stage, AgentId>,
    failure: Option<FailureReason>, started: bool, completed: bool)
  {
    // A per-stage override wins unless it is absent or the empty string.
    function StageAgent(s: Stage): Option<AgentId> {
      if s in stageAgents && stageAgents[s] != EmptyId then Some(stageAgents[s]) else agent
    }

    // The number of fix rounds the loop may take.
    function Cap(): nat {
      if maxIterations < 0 then 0 else maxIterations
    }
  }

  function StageOf(t: TaskType): Stage {
    match t
    case LoopPlan => Plan
    case LoopDevelop => Develop
    case LoopReview => Review
    case LoopFix => Fix
  }

  function TaskOf(s: Stage): TaskType {
    match s
    case Plan => LoopPlan
    case Develop => LoopDevelop
    case Review => LoopReview
    case Fix => LoopFix
  }

  // The fields handed to Store.UpdateStatus; None is a nil pointer.
  datatype UpdateInput = UpdateInput(
    status: Status, stage: Option<Stage>, iteration: Option<int>,
    failure: Option<FailureReason>, started: bool, completed: bool)

  // A full-row write: a nil stage becomes NULL and a nil iteration becomes 0;
  // only started_at is kept once set.
  function UpdateRow(row: LoopRow, u: UpdateInput): LoopRow {
    row.(status := u.status, stage := u.stage,
         iteration := if u.iteration.Some? then u.iteration.value else 0,
         failure := u.failure, started := row.started || u.started, completed := u.completed)
  }

  function StrToText(s: string): Option<string> {
    if s == "" then None else Some(s)
  }

  // Store.SetPR: empty strings are stored as NULL, the number never is.
  function SetPr(row: LoopRow, url: string, number: int, branch: string): LoopRow {
    row.(prUrl := StrToText(url), prNumber := Some(ToInt32(number)), branch := StrToText(branch))
  }

  // The decoded output of a completed run.
  datatype TaskResult = TaskResult(
    approved: Option<bool>, prUrl: string, prNumber: Option<int>, branch: string)
  {
    function PrNumberOrZero(): int {
      if prNumber.Some? then prNumber.value else 0
    }
  }

  datatype EventKind =
    | Completed(result: Option<TaskResult>)
    | RunFailed(reason: FailureReason)
    | Rejected

  // runUsable is false when the event names no run, an unknown run, or a run
  // of another work item.
  datatype Event = Event(version: int, kind: EventKind, runUsable: bool)

  // Who created a work item.
  datatype Origin = ByStart | ByProjection | ByRestore

  // Queued, dispatched and running items are InFlight. Terminal items have an
  // event without a receipt; Lost items ended with no event of interest here.
  datatype ItemStatus = InFlight | Terminal(event: Event) | Receipted(event: Event) | Lost

  datatype Item = Item(taskType: TaskType, origin: Origin, status: ItemStatus) {
    predicate Live() {
      status.InFlight? || status.Terminal?
    }
  }

  // One loop row together with the work items that carry its loop_id, oldest first.
  datatype LoopState = LoopState(row: LoopRow, items: seq<Item>)

  predicate HasInFlight(ls: LoopState, t: TaskType) {
    exists i | 0 <= i < |ls.items| :: ls.items[i].taskType == t && ls.items[i].status.InFlight?
  }

  predicate HasPendingEvent(ls: LoopState, t: TaskType) {
    exists i | 0 <= i < |ls.items| :: ls.items[i].taskType == t && ls.items[i].status.Terminal?
  }

  // What restoreOne's two checks look for.
  predicate HasWork(ls: LoopState, t: TaskType) {
    HasInFlight(ls, t) || HasPendingEvent(ls, t)
  }

  // A running loop shows no failure and no end.
  predicate Clean(row: LoopRow) {
    row.status == Running ==> row.failure == None && !row.completed
  }

  function SetItemStatus(ls: LoopState, i: nat, st: ItemStatus): LoopState
    requires i < |ls.items|
  {
    ls.(items := ls.items[i := ls.items[i].(status := st)])
  }

  predicate IsTerminal(ls: LoopState, i: nat) {
    i < |ls.items| && ls.items[i].status.Terminal?
  }

  predicate IsInFlight(ls: LoopState, i: nat) {
    i < |ls.items| && ls.items[i].status.InFlight?
  }

  // What Store.CreateLoop inserts.
  predicate FreshRow(row: LoopRow) {
    && row.status == Pending && row.stage == None && row.iteration == 0
    && row.prUrl == None && row.prNumber == None && row.branch == None
    && row.failure == None && !row.started && !row.completed
  }
}
