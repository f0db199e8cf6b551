// Replaying a lifecycle event: harmless at once, not harmless later.
module LoopReplay {
  import opened Base
  import opened LoopTypes
  import opened LoopPolicy
  import opened LoopInvariant

  function AfterEvent(ls: LoopState, t: TaskType, e: Event, lookup: Lookup): LoopState
    requires EventWrites(ls.row, t, e, lookup).Some?
  {
    ExecAll(ls, EventWrites(ls.row, t, e, lookup).value, ByProjection)
  }

  // Applying an event twice in a row equals applying it once, whatever the
  // loop's state, the verdict and the second agent lookup.
  lemma ImmediateReplayIsNoop(ls: LoopState, t: TaskType, e: Event, lookup: Lookup, lookup2: Lookup)
    requires EventWrites(ls.row, t, e, lookup).Some?
    ensures EventWrites(AfterEvent(ls, t, e, lookup).row, t, e, lookup2) == Some([])
    ensures AfterEvent(AfterEvent(ls, t, e, lookup), t, e, lookup2) == AfterEvent(ls, t, e, lookup)
  {
    var ws := EventWrites(ls.row, t, e, lookup).value;
    if Applies(ls.row, t) {
      var d := if e.kind.Completed? then DecideNextStage(ls.row, e.kind.result)
               else Fail(if e.kind.Rejected? then InvalidConfig else e.kind.reason);
      assert DecisionWrites(ls.row, d, lookup) == Some(ws);
      DecisionLeavesStage(ls, t, d, lookup);
    }
  }

  lemma DecisionLeavesStage(ls: LoopState, t: TaskType, d: Decision, lookup: Lookup)
    requires Applies(ls.row, t)
    requires d.Fail? || exists r :: d == DecideNextStage(ls.row, r)
    requires DecisionWrites(ls.row, d, lookup).Some?
    ensures !Applies(ExecAll(ls, DecisionWrites(ls.row, d, lookup).value, ByProjection).row, t)
  {
    match d {
      case Fail(reason) => ExecOne(ls, FailWrites(reason)[0], ByProjection);
      case Complete(_, _, _) => ExecTwo(ls, CompleteWrites(d)[0], CompleteWrites(d)[1], ByProjection);
      case CreateTask(next, bump) =>
        ExecOne(ls, BadConfigWrites(ls.row)[0], ByProjection);
        ExecCreateTask(ls, next, bump, ByProjection);
      case Noop =>
    }
  }

  // Whenever it comes, applying an event again changes the loop exactly if the
  // guard lets it pass; the guard compares the stage only.
  lemma ReplayIsNoopIff(ls: LoopState, t: TaskType, e: Event, lookup: Lookup)
    requires EventWrites(ls.row, t, e, lookup).Some?
    ensures AfterEvent(ls, t, e, lookup) == ls <==> !Applies(ls.row, t)
  {
    if Applies(ls.row, t) {
      var d := if e.kind.Completed? then DecideNextStage(ls.row, e.kind.result)
               else Fail(if e.kind.Rejected? then InvalidConfig else e.kind.reason);
      DecisionLeavesStage(ls, t, d, lookup);
    }
  }

  // Receipts are needed: once a fix round has brought the loop back to review,
  // a replayed rejection passes the guard and opens a further fix round.
  lemma DelayedReplayTakesEffect(ls: LoopState, reject: Event, fixed: Event, lookup: Lookup)
    requires Applies(ls.row, LoopReview) && ls.row.iteration + 1 < ls.row.maxIterations
    requires reject.version == 1 && reject.runUsable && reject.kind.Completed? && !Approved(reject.kind.result)
    requires fixed.version == 1 && fixed.runUsable && fixed.kind.Completed?
    requires ResolveStageAgent(ls.row, LoopFix, lookup).Resolved?
        && ResolveStageAgent(ls.row, LoopReview, lookup).Resolved?
    ensures EventWrites(ls.row, LoopReview, reject, lookup).Some?
    ensures var once := AfterEvent(ls, LoopReview, reject, lookup);
      && EventWrites(once.row, LoopFix, fixed, lookup).Some?
      && var back := AfterEvent(once, LoopFix, fixed, lookup);
      && EventWrites(back.row, LoopReview, reject, lookup).Some?
      && var twice := AfterEvent(back, LoopReview, reject, lookup);
      && twice.row.iteration == ls.row.iteration + 2
      && twice.row.stage == Some(Fix)
      && twice.items == ls.items + [Item(LoopFix, ByProjection, InFlight), Item(LoopReview, ByProjection, InFlight),
                                    Item(LoopFix, ByProjection, InFlight)]
  {
    ExecCreateTask(ls, LoopFix, 1, ByProjection);
    var once := AfterEvent(ls, LoopReview, reject, lookup);
    ExecCreateTask(once, LoopReview, 0, ByProjection);
    var back := AfterEvent(once, LoopFix, fixed, lookup);
    ExecCreateTask(back, LoopFix, 1, ByProjection);
  }
}
