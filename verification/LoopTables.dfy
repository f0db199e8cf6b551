// What an event, a start and an operator do to a loop.
module LoopTables {
  import opened Base
  import opened LoopTypes
  import opened LoopPolicy
  import opened LoopInvariant

  // Each operation case by case, on the columns of the row and the work items,
  // with no function of the policy in the conclusion.

  predicate IsApproval(r: Option<TaskResult>) {
    r.Some? && r.value.approved == Some(true)
  }

  // The stage that follows a completed run of the loop's stage, if any does.
  function Successor(row: LoopRow, r: Option<TaskResult>): Option<Stage>
    requires row.stage.Some?
  {
    match row.stage.value
    case Plan => Some(Develop)
    case Develop => Some(Review)
    case Fix => Some(Review)
    case Review => if IsApproval(r) || row.maxIterations <= row.iteration then None else Some(Fix)
  }

  // The loop fails for this reason; it has no stage and no iteration any more.
  function Failing(row: LoopRow, reason: FailureReason): LoopRow {
    row.(status := Failed, stage := None, iteration := 0, failure := Some(reason), completed := true)
  }

  // A loop that is paused or has ended is left alone, whatever its event says.
  lemma IdleIsLeftAlone(row: LoopRow, r: Option<TaskResult>, lookup: Lookup)
    requires row.status != Running && row.status != Pending
    ensures DecisionWrites(row, DecideNextStage(row, r), lookup) == Some([])
  {
  }

  // What is decided for a loop: nothing if it is paused or has ended; else its
  // next stage's work if it has one, the end of the loop if an approval stands,
  // and otherwise a failure, for want of rounds or of a stage.
  lemma DecisionTable(row: LoopRow, r: Option<TaskResult>)
    ensures DecideNextStage(row, r) ==
      if row.status != Running && row.status != Pending then Noop
      else if row.stage == None then Fail(Unrecoverable)
      else match Successor(row, r)
        case Some(s) => CreateTask(TaskOf(s), if s == Fix then 1 else 0)
        case None =>
          if IsApproval(r) then
            Complete(r.value.prUrl, match r.value.prNumber case None => 0 case Some(n) => n, r.value.branch)
          else Fail(MaxIterations)
  {
  }

  // Which events cannot be projected: those of another version; and of those the
  // guard lets pass, those whose run is not usable unless they reject the item,
  // and those that open a stage whose agent could not be looked up.
  lemma RefusedIff(ls: LoopState, i: nat, lookup: Lookup)
    requires IsTerminal(ls, i)
    ensures var e := ls.items[i].status.event;
      var passes := ls.row.status == Running && ls.row.stage == Some(StageOf(ls.items[i].taskType));
      var next := if passes && e.kind.Completed? then Successor(ls.row, e.kind.result) else None;
      Project(ls, i, lookup).None? <==>
        || e.version != 1
        || (passes && !e.kind.Rejected? && !e.runUsable)
        || (next.Some? && HasAgentId(ls.row, next.value) && lookup == QueryFailed)
  {
    var e := ls.items[i].status.event;
    if e.kind.Completed? && DecideNextStage(ls.row, e.kind.result).CreateTask? {
      ResolvedIff(ls.row, DecideNextStage(ls.row, e.kind.result).taskType, lookup);
    }
    hide ResolveStageAgent, HasAgentId;
  }

  // What an event's projection leaves: its receipt, and the row and the items
  // that the table gives.
  lemma ProjectionTable(ls: LoopState, i: nat, lookup: Lookup)
    requires IsTerminal(ls, i) && Project(ls, i, lookup).Some?
    ensures var e := ls.items[i].status.event;
      var after := Project(ls, i, lookup).value;
      var kept := ls.items[i := ls.items[i].(status := Receipted(e))];
      if ls.row.status != Running || ls.row.stage != Some(StageOf(ls.items[i].taskType)) then
        after == LoopState(ls.row, kept)
      else match e.kind
        case Rejected => after == LoopState(Failing(ls.row, InvalidConfig), kept)
        case RunFailed(reason) => after == LoopState(Failing(ls.row, reason), kept)
        case Completed(r) => AfterCompletion(ls, r, lookup, kept, after)
  {
    ProjectIsEffect(ls, i, lookup);
    var e := ls.items[i].status.event;
    if Applies(ls.row, ls.items[i].taskType) {
      match e.kind {
        case Rejected => FailShape(ls, i, lookup, InvalidConfig);
        case RunFailed(reason) => FailShape(ls, i, lookup, reason);
        case Completed(r) => CompletionTable(ls, i, lookup, r);
      }
    }
  }

  ghost predicate AfterCompletion(
    ls: LoopState, r: Option<TaskResult>, lookup: Lookup, kept: seq<Item>, after: LoopState)
    requires ls.row.stage.Some?
  {
    match Successor(ls.row, r)
    case None =>
      && after.items == kept
      && (if IsApproval(r) then
            && after.row == ls.row.(status := Done, stage := None, iteration := 0, failure := None, completed := true,
                 prUrl := after.row.prUrl, prNumber := after.row.prNumber, branch := after.row.branch)
            && Records(after.row.prUrl, r.value.prUrl) && Records(after.row.branch, r.value.branch)
            && RecordsNumber(after.row.prNumber, r.value.prNumber)
          else
            after.row == Failing(ls.row, MaxIterations))
    case Some(s) =>
      if !HasAgentId(ls.row, s) || Unusable(ls.row, lookup) then
        after == LoopState(ls.row.(status := Failed, failure := Some(InvalidConfig), completed := true), kept)
      else
        && lookup == Found(ls.row.workspace, false, true)
        && after.row == ls.row.(status := Running, stage := Some(s), failure := None, completed := false,
             iteration := ls.row.iteration + if s == Fix then 1 else 0)
        && after.items == kept + [Item(TaskOf(s), ByProjection, InFlight)]
  }

  lemma CompletionTable(ls: LoopState, i: nat, lookup: Lookup, r: Option<TaskResult>)
    requires IsTerminal(ls, i) && Project(ls, i, lookup).Some? && Applies(ls.row, ls.items[i].taskType)
    requires ls.items[i].status.event.kind == Completed(r)
    ensures AfterCompletion(ls, r, lookup, WithItemReceipted(ls, i), Project(ls, i, lookup).value)
  {
    var d := DecideNextStage(ls.row, r);
    ProjectIsEffect(ls, i, lookup);
    match d {
      case Noop =>
      case Fail(reason) => FailShape(ls, i, lookup, reason);
      case Complete(_, _, _) =>
        ExecTwo(ls, CompleteWrites(d)[0], CompleteWrites(d)[1], ByProjection);
        CompletedRecords(ls.row, r.value);
      case CreateTask(t, bump) =>
        ResolvedIff(ls.row, t, lookup);
        if ResolveStageAgent(ls.row, t, lookup).Resolved? {
          AdvanceShape(ls, i, lookup, t, bump);
        } else {
          ExecOne(ls, BadConfigWrites(ls.row)[0], ByProjection);
        }
        hide ResolveStageAgent, HasAgentId, Unusable;
    }
  }

  // A loop starts exactly if it is pending and the agent for planning is there,
  // in its workspace, in use and on a runtime.
  lemma StartTable(ls: LoopState, lookup: Lookup)
    ensures Start(ls, lookup).Some? <==>
      ls.row.status == Pending && HasAgentId(ls.row, Plan) && lookup == Found(ls.row.workspace, false, true)
    ensures Start(ls, lookup).Some? ==> Start(ls, lookup).value == LoopState(
      ls.row.(status := Running, stage := Some(Plan), iteration := 0, failure := None, started := true,
              completed := false),
      ls.items + [Item(LoopPlan, ByStart, InFlight)])
  {
    ResolvedIff(ls.row, LoopPlan, lookup);
    if Start(ls, lookup).Some? {
      StartShape(ls, lookup);
    }
  }

  // What restoring a loop does: nothing to one that does not run or has an item
  // of its stage that is in flight or has an unprojected event.
  lemma RestoreTable(ls: LoopState, lookup: Lookup, timedOut: bool)
    ensures var row, after := ls.row, RestoreOne(ls, lookup, timedOut);
      var busy := row.stage.Some? && exists k | 0 <= k < |ls.items| ::
          ls.items[k].taskType == TaskOf(row.stage.value)
            && (ls.items[k].status.InFlight? || ls.items[k].status.Terminal?);
      var misconfigured := ls.(row := row.(status := Failed, failure := Some(InvalidConfig), completed := true));
      if row.status != Running || busy then after == ls
      else if row.stage == None then after == misconfigured
      else if !HasAgentId(row, row.stage.value) || Unusable(row, lookup) then after == misconfigured
      else if lookup == QueryFailed then after == ls && RestoreOutcomeOf(ls, lookup, timedOut).Error?
      else if row.started && timedOut then after == ls.(row := Failing(row, LoopTimeout))
      else after == LoopState(row.(failure := None, completed := false),
                              ls.items + [Item(TaskOf(row.stage.value), ByRestore, InFlight)])
    ensures RestoreOutcomeOf(ls, lookup, timedOut).Error? ==> lookup == QueryFailed
  {
    ExecOne(ls, BadConfigWrites(ls.row)[0], ByRestore);
    ExecOne(ls, FailWrites(LoopTimeout)[0], ByRestore);
    if ls.row.stage.Some? {
      ResolvedIff(ls.row, TaskOf(ls.row.stage.value), lookup);
      ExecCreateTask(ls, TaskOf(ls.row.stage.value), 0, ByRestore);
    }
    hide ResolveStageAgent, HasAgentId, Unusable, ExecAll;
  }

  // An operator's request replaces status, stage and iteration and clears the rest.
  lemma OperatorTable(ls: LoopState, target: Status, stage: Option<Stage>, iteration: int)
    ensures OperatorWrite(ls, target, stage, iteration) == ls.(row := ls.row.(
      status := target, stage := stage, iteration := iteration, failure := None, completed := false))
  {
  }
}
