// What holds in every run.
module LoopAnyRun {
  import opened Base
  import opened LoopTypes
  import opened LoopPolicy
  import opened LoopInvariant
  import opened LoopServer
  import opened LoopCluster

  // Operator requests may race with everything and claims may be late. None of
  // this rests on single flight.

  ghost predicate Bounded(row: LoopRow) {
    0 <= row.iteration <= row.Cap()
  }

  predicate HasPr(row: LoopRow) {
    row.prUrl.Some? || row.prNumber.Some? || row.branch.Some?
  }

  ghost predicate Kept(ls: LoopState, mode: Mode) {
    && Bounded(ls.row)
    && (ls.row.status == Pending ==> ls.items == [])
    && (ls.row.stage.Some? ==> ls.items != [])
    && (ls.row.status == Done || HasPr(ls.row) ==> Earned(ls))
    && (mode.Budgeted? ==> InBudget(ls))
  }

  // ls' is a later state of the loop.
  ghost predicate LaterState(ls: LoopState, ls': LoopState) {
    ls'.row.maxIterations == ls.row.maxIterations && |ls.items| <= |ls'.items|
  }

  // A stage and iteration that can be written to the loop.
  ghost predicate Writable(ls: LoopState, stage: Option<Stage>, iteration: int, mode: Mode) {
    && 0 <= iteration <= ls.row.Cap()
    && (stage.Some? ==> ls.items != [])
    && (mode.Budgeted? ==> BudgetWrite(ls, stage, iteration))
  }

  // ---------- one loop ----------

  // The item gets its receipt, and the row changes to one without a stage or
  // with the same, and to done only with the pull request.
  lemma ReceiptStaysKept(ls: LoopState, i: nat, row: LoopRow, mode: Mode)
    requires Kept(ls, mode) && HasEvent(ls, i)
    requires row.maxIterations == ls.row.maxIterations && row.status != Pending
    requires || (row.stage == None && row.iteration == 0)
             || (row.stage == ls.row.stage && row.iteration == ls.row.iteration)
    requires var after := LoopState(row, WithItemReceipted(ls, i));
      || EarnedBy(after, i)
      || (row.prUrl == ls.row.prUrl && row.prNumber == ls.row.prNumber && row.branch == ls.row.branch
          && (row.status == Done ==> ls.row.status == Done))
    ensures Kept(LoopState(row, WithItemReceipted(ls, i)), mode)
    ensures LaterState(ls, LoopState(row, WithItemReceipted(ls, i)))
  {
    hide PaidItems, Remaining;
    var after := LoopState(row, WithItemReceipted(ls, i));
    CountsAfterStatus(ls.items, i, Receipted(ls.items[i].status.event));
    if !EarnedBy(after, i) {
      KeepsEarned(ls, after);
    }
  }

  lemma AdvanceStaysKept(ls: LoopState, i: nat, r: Option<TaskResult>, mode: Mode)
    requires Kept(ls, mode) && HasEvent(ls, i) && ls.row.status == Running && DecideNextStage(ls.row, r).CreateTask?
    ensures var d := DecideNextStage(ls.row, r);
      var after := LoopState(StageRow(ls.row, d.taskType, d.bump),
                             WithItemReceipted(ls, i) + [Item(d.taskType, ByProjection, InFlight)]);
      Kept(after, mode) && LaterState(ls, after)
  {
    hide PaidItems, EarnedBy;
    var d := DecideNextStage(ls.row, r);
    var x := Item(d.taskType, ByProjection, InFlight);
    CountsAfterStatus(ls.items, i, Receipted(ls.items[i].status.event));
    CountsAfterAppend(WithItemReceipted(ls, i), x);
    KeepsEarned(ls, LoopState(StageRow(ls.row, d.taskType, d.bump), WithItemReceipted(ls, i) + [x]));
  }

  lemma EffectKeeps(ls: LoopState, i: nat, lookup: Lookup, mode: Mode)
    requires Kept(ls, mode) && HasEvent(ls, i) && WritesOf(ls, i, lookup).Some?
    ensures Kept(EventEffect(ls, i, lookup), mode) && LaterState(ls, EventEffect(ls, i, lookup))
  {
    EffectShape(ls, i, lookup);
    hide EventEffect, WritesOf, PaidItems, InBudget, Earned;
    var e, after := ls.items[i].status.event, EventEffect(ls, i, lookup);
    if Applies(ls.row, ls.items[i].taskType) && after.row.status == Running {
      AdvanceStaysKept(ls, i, e.kind.result, mode);
    } else {
      ReceiptStaysKept(ls, i, after.row, mode);
    }
  }

  lemma FreshIsKept(row: LoopRow, mode: Mode)
    requires FreshRow(row)
    ensures Kept(LoopState(row, []), mode)
  {
  }

  lemma StartStaysKept(ls: LoopState, lookup: Lookup, mode: Mode)
    requires Kept(ls, mode) && Start(ls, lookup).Some?
    ensures Kept(Start(ls, lookup).value, mode) && LaterState(ls, Start(ls, lookup).value)
  {
    StartShape(ls, lookup);
    assert ls.items == [] && [] + [Item(LoopPlan, ByStart, InFlight)] == [Item(LoopPlan, ByStart, InFlight)];
    CountsAfterAppend([], Item(LoopPlan, ByStart, InFlight));
    KeepsEarned(ls, Start(ls, lookup).value);
  }

  // An item ends, or is lost.
  lemma EndStaysKept(ls: LoopState, i: nat, st: ItemStatus, mode: Mode)
    requires Kept(ls, mode) && IsInFlight(ls, i)
    ensures Kept(SetItemStatus(ls, i, st), mode) && LaterState(ls, SetItemStatus(ls, i, st))
    ensures PaidItems(SetItemStatus(ls, i, st).items) == PaidItems(ls.items)
  {
    CountsAfterStatus(ls.items, i, st);
    KeepsEarned(ls, SetItemStatus(ls, i, st));
  }

  lemma RestoredItemStaysKept(ls: LoopState, t: TaskType, mode: Mode)
    requires Kept(ls, mode) && ls.items != []
    ensures var after := Exec(ls, InsertItem(t), ByRestore);
      Kept(after, mode) && LaterState(ls, after) && PaidItems(after.items) == PaidItems(ls.items)
  {
    CountsAfterAppend(ls.items, Item(t, ByRestore, InFlight));
    KeepsEarned(ls, Exec(ls, InsertItem(t), ByRestore));
  }

  // A status write other than that of a completion.
  lemma StatusWriteStaysKept(ls: LoopState, u: UpdateInput, origin: Origin, mode: Mode)
    requires Kept(ls, mode) && u.status != Done && u.status != Pending
    requires Writable(ls, u.stage, if u.iteration.Some? then u.iteration.value else 0, mode)
    ensures var after := Exec(ls, UpdateLoop(u), origin);
      && after == ExecAll(ls, [UpdateLoop(u)], origin)
      && Kept(after, mode) && LaterState(ls, after) && after.items == ls.items && after.row.status != Done
  {
    ExecOne(ls, UpdateLoop(u), origin);
    KeepsEarned(ls, Exec(ls, UpdateLoop(u), origin));
  }

  // ---------- the server ----------

  ghost predicate RequestKept(s: Server, r: OperatorRequest) {
    && r.loop in s.loops && OperatorTarget(r.target)
    && Writable(s.loops[r.loop], r.stage, r.iteration, Racy)
  }

  ghost predicate BootKept(loops: map<LoopId, LoopState>, b: Boot, mode: Mode) {
    && (forall id | id in b.rows :: id in loops && Writable(loops[id], b.rows[id].stage, b.rows[id].iteration, mode))
    && (b.pc.ItemInserted? && b.next < |b.loaded| && b.loaded[b.next] in b.rows ==>
          b.rows[b.loaded[b.next]].stage == Some(StageOf(b.pc.taskType)))
  }

  ghost predicate AnyInv(s: Server, mode: Mode) {
    && (forall id | id in s.loops :: Kept(s.loops[id], mode))
    && (forall req | req in s.requests :: RequestKept(s, s.requests[req]))
    && (s.phase.Restoring? ==> BootKept(s.loops, s.phase.boot, mode))
  }

  lemma SetLoopKeepsAny(s: Server, id: LoopId, ls: LoopState, mode: Mode)
    requires AnyInv(s, mode) && id in s.loops && Kept(ls, mode) && LaterState(s.loops[id], ls)
    requires s.phase.Restoring? ==> PaidItems(ls.items) == PaidItems(s.loops[id].items)
    ensures AnyInv(SetLoop(s, id, ls), mode)
  {
    hide Kept, PaidItems;
  }

  lemma SetBootKeepsAny(s: Server, b: Boot, mode: Mode)
    requires AnyInv(s, mode) && BootKept(s.loops, b, mode)
    ensures AnyInv(SetBoot(s, b), mode)
  {
  }

  lemma OperatorWriteKeepsAny(s: Server, req: nat, mode: Mode)
    requires AnyInv(s, mode) && Enabled(s, OperatorWrites(req), mode)
    ensures AnyInv(Do(s, OperatorWrites(req)), mode)
  {
    hide Kept, PaidItems, Remaining;
    var r := s.requests[req];
    assert RequestKept(s, r);
    StatusWriteStaysKept(
      s.loops[r.loop], UpdateInput(r.target, r.stage, Some(r.iteration), None, false, false), ByStart, mode);
    SetLoopKeepsAny(s, r.loop, OperatorWrite(s.loops[r.loop], r.target, r.stage, r.iteration), mode);
  }

  lemma LoopStepKeepsAny(s: Server, step: Step, mode: Mode)
    requires AnyInv(s, mode) && Enabled(s, step, mode) && (LoopStep(step) || EnvironmentStep(step))
    ensures AnyInv(Do(s, step), mode)
  {
    hide Kept, PaidItems, Project, Start, EventEffect, Remaining, Permitted, BudgetWrite;
    match step {
      case StartLoop(id, lookup) =>
        StartStaysKept(s.loops[id], lookup, mode);
        SetLoopKeepsAny(s, id, Start(s.loops[id], lookup).value, mode);
      case ProjectEvent(id, i, lookup) =>
        ProjectIsEffect(s.loops[id], i, lookup);
        EffectKeeps(s.loops[id], i, lookup, mode);
        SetLoopKeepsAny(s, id, Project(s.loops[id], i, lookup).value, mode);
      case OperatorReads(_, id, _) => RowIsWritable(s.loops[id], mode);
      case OperatorWrites(req) =>
        OperatorWriteKeepsAny(s, req, mode);
      case EndItem(id, i, e) =>
        EndStaysKept(s.loops[id], i, Terminal(e), mode);
        SetLoopKeepsAny(s, id, SetItemStatus(s.loops[id], i, Terminal(e)), mode);
      case LoseItem(id, i) =>
        EndStaysKept(s.loops[id], i, Lost, mode);
        SetLoopKeepsAny(s, id, SetItemStatus(s.loops[id], i, Lost), mode);
    }
  }

  lemma RowIsWritable(ls: LoopState, mode: Mode)
    requires Kept(ls, mode)
    ensures Writable(ls, ls.row.stage, ls.row.iteration, mode)
  {
  }

  // A restore step that changes the loop at the head and moves the boot on.
  lemma HeadStepKeepsAny(s: Server, ls: LoopState, b: Boot, mode: Mode)
    requires AnyInv(s, mode) && AtHead(s) && Kept(ls, mode) && LaterState(s.loops[Head(s)], ls)
    requires PaidItems(ls.items) == PaidItems(s.loops[Head(s)].items)
    requires b.rows == s.phase.boot.rows && b.loaded == s.phase.boot.loaded
    requires b.pc.ItemInserted? ==>
      b.next == s.phase.boot.next && HeadRow(s).stage == Some(StageOf(b.pc.taskType))
    ensures AnyInv(SetBoot(SetLoop(s, Head(s), ls), b), mode)
  {
    hide Kept, PaidItems, Remaining;
    SetLoopKeepsAny(s, Head(s), ls, mode);
  }

  lemma FailHeadKeepsAny(s: Server, w: Write, mode: Mode)
    requires AnyInv(s, mode) && AtHead(s)
    requires w == BadConfigWrites(HeadRow(s))[0] || w == FailWrites(LoopTimeout)[0]
    ensures var failed := ExecAll(s.loops[Head(s)], [w], ByRestore);
      AnyInv(SetBoot(SetLoop(s, Head(s), failed), s.phase.boot.Advance()), mode)
  {
    hide Kept, PaidItems, Remaining;
    StatusWriteStaysKept(s.loops[Head(s)], w.input, ByRestore, mode);
    HeadStepKeepsAny(s, ExecAll(s.loops[Head(s)], [w], ByRestore), s.phase.boot.Advance(), mode);
  }

  lemma ArmHeadKeepsAny(s: Server, st: Stage, mode: Mode)
    requires AnyInv(s, mode) && AtHead(s) && HeadRow(s).stage == Some(st)
    ensures AnyInv(SetBoot(SetLoop(s, Head(s), Exec(s.loops[Head(s)], InsertItem(TaskOf(st)), ByRestore)),
                           s.phase.boot.(pc := ItemInserted(TaskOf(st)))), mode)
  {
    var ls, b := s.loops[Head(s)], s.phase.boot;
    assert Writable(ls, HeadRow(s).stage, HeadRow(s).iteration, mode);
    hide Kept, PaidItems, Remaining, BudgetWrite;
    RestoredItemStaysKept(ls, TaskOf(st), mode);
    HeadStepKeepsAny(s, Exec(ls, InsertItem(TaskOf(st)), ByRestore), b.(pc := ItemInserted(TaskOf(st))), mode);
  }

  // A restore step that changes no loop and inserts nothing.
  lemma MoveOnKeepsAny(s: Server, b: Boot, mode: Mode)
    requires AnyInv(s, mode) && AtHead(s) && !b.pc.ItemInserted?
    requires b.rows == s.phase.boot.rows && b.loaded == s.phase.boot.loaded
    ensures AnyInv(SetBoot(s, b), mode)
  {
    hide Kept, PaidItems, Remaining;
  }

  lemma CheckInFlightKeepsAny(s: Server, mode: Mode)
    requires AnyInv(s, mode) && Enabled(s, CheckInFlight, mode)
    ensures AnyInv(DoCheckInFlight(s), mode)
  {
    hide AnyInv, HasInFlight, ExecAll;
    var b := s.phase.boot;
    FailHeadKeepsAny(s, BadConfigWrites(HeadRow(s))[0], mode);
    MoveOnKeepsAny(s, b.Advance(), mode);
    MoveOnKeepsAny(s, b.(pc := NoTaskInFlight), mode);
  }

  lemma DecideRestoreKeepsAny(s: Server, lookup: Lookup, timedOut: bool, mode: Mode)
    requires AnyInv(s, mode) && Enabled(s, DecideRestore(lookup, timedOut), mode)
    ensures AnyInv(DoDecideRestore(s, lookup, timedOut), mode)
  {
    hide AnyInv, ExecAll, Exec, ResolveStageAgent;
    FailHeadKeepsAny(s, BadConfigWrites(HeadRow(s))[0], mode);
    FailHeadKeepsAny(s, FailWrites(LoopTimeout)[0], mode);
    ArmHeadKeepsAny(s, HeadRow(s).stage.value, mode);
    MoveOnKeepsAny(s, s.phase.boot.Advance().Excuse(Head(s)), mode);
  }

  lemma WriteRestoredRowKeepsAny(s: Server, mode: Mode)
    requires AnyInv(s, mode) && Enabled(s, WriteRestoredRow, mode)
    ensures AnyInv(Do(s, WriteRestoredRow), mode)
  {
    hide Kept, PaidItems, Remaining;
    var ls, row, t := s.loops[Head(s)], HeadRow(s), s.phase.boot.pc.taskType;
    assert Writable(ls, row.stage, row.iteration, mode);
    StatusWriteStaysKept(ls, StageWrite(row, t, 0).input, ByRestore, mode);
    HeadStepKeepsAny(s, Exec(ls, StageWrite(row, t, 0), ByRestore), s.phase.boot.Advance(), mode);
  }

  lemma LoadActiveKeepsAny(s: Server, mode: Mode)
    requires AnyInv(s, mode) && Enabled(s, LoadActive, mode)
    ensures AnyInv(Do(s, LoadActive), mode)
  {
    hide PaidItems, Remaining, LoadedLoops, ActiveLoops, Earned;
    var b := Do(s, LoadActive).phase.boot;
    SetBootKeepsAny(s, b, mode);
  }

  lemma PhaseStepKeepsAny(s: Server, step: Step, mode: Mode)
    requires AnyInv(s, mode) && Enabled(s, step, mode) && !LoopStep(step) && !EnvironmentStep(step)
    ensures AnyInv(Do(s, step), mode)
  {
    hide Kept, Writable, LoadedLoops, HasPendingEvent, DoCheckInFlight, DoDecideRestore, Start, Project, Permitted;
    match step {
      case CreateLoop(_, row) => FreshIsKept(row, mode);
      case LoadActive => LoadActiveKeepsAny(s, mode);
      case CheckInFlight => CheckInFlightKeepsAny(s, mode);
      case DecideRestore(lookup, timedOut) => DecideRestoreKeepsAny(s, lookup, timedOut, mode);
      case WriteRestoredRow => WriteRestoredRowKeepsAny(s, mode);
      case _ =>
    }
  }

  lemma StepKeepsAny(s: Server, step: Step, mode: Mode)
    requires AnyInv(s, mode) && Enabled(s, step, mode)
    ensures AnyInv(Do(s, step), mode)
  {
    hide AnyInv, Do, Enabled;
    if LoopStep(step) || EnvironmentStep(step) {
      LoopStepKeepsAny(s, step, mode);
    } else {
      PhaseStepKeepsAny(s, step, mode);
    }
  }

  lemma {:induction false} RunKeepsAny(run: seq<Server>, steps: seq<Step>, mode: Mode, k: nat)
    requires IsRun(run, steps, mode) && k < |run|
    ensures AnyInv(run[k], mode)
  {
    hide Do, Enabled, Kept;
    if k > 0 {
      RunKeepsAny(run, steps, mode, k - 1);
      assert Moves(run[k - 1], steps[k - 1], run[k], mode);
      StepKeepsAny(run[k - 1], steps[k - 1], mode);
    }
  }

  // ---------- any number of workers, late claims included ----------

  lemma {:induction false} ClusterRunKeepsAny(run: seq<Cluster>, steps: seq<WorkerStep>, mode: Mode, k: nat)
    requires IsClusterRun(run, steps, mode) && k < |run|
    ensures ClusterInv(run[k]) && AnyInv(run[k].server, mode)
  {
    hide Do, Enabled, Kept, ClusterInv, WritesOf, EventEffect;
    ClusterRunKeepsInv(run, steps, mode, k);
    if k > 0 {
      var c, step := run[k - 1], steps[k - 1];
      ClusterRunKeepsAny(run, steps, mode, k - 1);
      assert StepsTo(c, step, run[k], mode);
      match step {
        case Serve(s) => StepKeepsAny(c.server, s, mode);
        case Commit(w) =>
          var tx := c.workers[w];
          CommitIsEffect(c, w);
          EffectKeeps(c.server.loops[tx.id], tx.item, tx.lookup, mode);
          SetLoopKeepsAny(c.server, tx.id, EventEffect(c.server.loops[tx.id], tx.item, tx.lookup), mode);
        case _ => WorkerStepKeeps(c, step);
      }
    }
  }

  // ---------- only an approved review completes a loop ----------

  lemma DoneByProjection(ls: LoopState, i: nat, lookup: Lookup)
    requires HasEvent(ls, i) && WritesOf(ls, i, lookup).Some?
    ensures var after := EventEffect(ls, i, lookup);
      ls.row.status != Done && after.row.status == Done ==>
        && Applies(ls.row, LoopReview) && ls.items[i].taskType == LoopReview
        && EarnedBy(after, i) && after.items[i].status.event == ls.items[i].status.event
        && var r := ls.items[i].status.event.kind.result.value;
        && (r.prUrl != "" ==> after.row.prUrl == Some(r.prUrl)) && (r.prUrl == "" ==> after.row.prUrl == None)
        && (r.branch != "" ==> after.row.branch == Some(r.branch)) && (r.branch == "" ==> after.row.branch == None)
        && (r.prNumber.None? ==> after.row.prNumber == Some(0))
        && (r.prNumber.Some? && FitsInt32(r.prNumber.value) ==> after.row.prNumber == r.prNumber)
  {
    EffectShape(ls, i, lookup);
    if ls.items[i].status.event.kind.Completed? && ls.items[i].status.event.kind.result.Some? {
      CompletedRecords(ls.row, ls.items[i].status.event.kind.result.value);
    }
    hide EventEffect, WritesOf;
  }

  ghost predicate IsDone(s: Server, id: LoopId) {
    id in s.loops && s.loops[id].row.status == Done
  }

  lemma FailingNotDone(ls: LoopState, w: Write)
    requires w.UpdateLoop? && w.input.status == Failed
    ensures ExecAll(ls, [w], ByRestore).row.status == Failed
  {
    ExecOne(ls, w, ByRestore);
  }

  lemma RestoreStepNotDone(s: Server, step: Step, id: LoopId)
    requires Enabled(s, step, Racy) && (step.CheckInFlight? || step.DecideRestore? || step.WriteRestoredRow?)
    ensures IsDone(Do(s, step), id) ==> IsDone(s, id)
  {
    FailingNotDone(s.loops[Head(s)], BadConfigWrites(HeadRow(s))[0]);
    FailingNotDone(s.loops[Head(s)], FailWrites(LoopTimeout)[0]);
    hide ExecAll, HasInFlight;
  }

  // Only a projection turns a loop done.
  lemma StepNotDone(s: Server, step: Step, mode: Mode, id: LoopId)
    requires AnyInv(s, mode) && Enabled(s, step, mode) && !step.ProjectEvent?
    ensures IsDone(Do(s, step), id) ==> IsDone(s, id)
  {
    hide Kept, BootKept, Permitted, Start, DoCheckInFlight, DoDecideRestore;
    match step {
      case StartLoop(l, lookup) => StartShape(s.loops[l], lookup);
      case OperatorWrites(req) => assert RequestKept(s, s.requests[req]);
      case CheckInFlight => RestoreStepNotDone(s, step, id);
      case DecideRestore(_, _) => RestoreStepNotDone(s, step, id);
      case WriteRestoredRow => RestoreStepNotDone(s, step, id);
      case _ =>
    }
  }

  // The loop's event i is a completed review whose verdict is an approval, and
  // in s' the loop's pull request is the one that very result names.
  ghost predicate ApprovedBy(s: Server, s': Server, id: LoopId, i: nat) {
    && id in s.loops && id in s'.loops && HasEvent(s.loops[id], i)
    && Applies(s.loops[id].row, LoopReview) && s.loops[id].items[i].taskType == LoopReview
    && EarnedBy(s'.loops[id], i) && s'.loops[id].items[i].status.event == s.loops[id].items[i].status.event
  }

  // ---------- theorems over every run ----------

  // 0 <= iteration <= max in every reachable state, even if operator requests
  // race with everything else.
  lemma IterationBoundedEvenIfRacy(run: seq<Server>, steps: seq<Step>, mode: Mode, k: nat, id: LoopId)
    requires IsRun(run, steps, mode) && k < |run| && id in run[k].loops
    ensures var row := run[k].loops[id].row;
      0 <= row.iteration && (row.iteration <= row.maxIterations || row.iteration == 0)
  {
    RunKeepsAny(run, steps, mode, k);
  }

  // StartLoop and projections together create at most 2*max+3 items if every
  // operator's write stays within the budget. In runs with sound writes the
  // unspent rest is exactly Remaining while a stage is set, and the iteration
  // counts the fix items created by projection.
  lemma WorkIsBounded(run: seq<Server>, steps: seq<Step>, mode: Mode, k: nat, id: LoopId)
    requires IsRun(run, steps, mode) && (mode.Budgeted? || mode.Guarded?) && k < |run| && id in run[k].loops
    ensures var ls := run[k].loops[id];
      && PaidItems(ls.items) <= 2 * (if ls.row.maxIterations < 0 then 0 else ls.row.maxIterations) + 3
      && (mode.Guarded? && ls.row.stage.Some? ==>
            && PaidItems(ls.items)
                == 2 * ls.row.Cap() + 3 - Remaining(ls.row.stage.value, ls.row.iteration, ls.row.Cap())
            && ls.row.iteration == FixItems(ls.items))
  {
    RunKeepsAny(run, steps, mode, k);
    if mode.Guarded? {
      RunKeepsInv(run, steps, k, mode);
    }
  }

  // A loop turns done in one way only, in every run: by projecting a completed
  // review whose parsed verdict is an approval; the pull request recorded is the
  // one that result names.
  lemma DoneIsEarned(run: seq<Server>, steps: seq<Step>, mode: Mode, k: nat, id: LoopId)
    requires IsRun(run, steps, mode) && k < |steps| && IsDone(run[k + 1], id) && !IsDone(run[k], id)
    ensures steps[k].ProjectEvent? && steps[k].id == id && ApprovedBy(run[k], run[k + 1], id, steps[k].item)
    ensures IsTerminal(run[k].loops[id], steps[k].item)
  {
    RunKeepsAny(run, steps, mode, k);
    assert Moves(run[k], steps[k], run[k + 1], mode);
    hide IsRun, AnyInv, EarnedBy, Project, Start, Permitted, DoCheckInFlight, DoDecideRestore, OperatorWrite;
    var s, step := run[k], steps[k];
    if step.ProjectEvent? {
      ProjectIsEffect(s.loops[step.id], step.item, step.lookup);
      DoneByProjection(s.loops[step.id], step.item, step.lookup);
    } else {
      StepNotDone(s, step, mode, id);
    }
  }

  // Once done, the approving review stays on record, whatever operators do later.
  lemma RecordedPrIsEarned(run: seq<Server>, steps: seq<Step>, mode: Mode, k: nat, id: LoopId)
    requires IsRun(run, steps, mode) && k < |run| && id in run[k].loops
    ensures run[k].loops[id].row.status == Done || HasPr(run[k].loops[id].row) ==> Earned(run[k].loops[id])
  {
    RunKeepsAny(run, steps, mode, k);
  }

  // All of it holds with any number of workers and with late claims, those that
  // pass the guard a second time among them.
  lemma ClusterKeepsAccounts(run: seq<Cluster>, steps: seq<WorkerStep>, mode: Mode, k: nat, id: LoopId)
    requires IsClusterRun(run, steps, mode) && k < |run| && id in run[k].server.loops
    ensures var ls := run[k].server.loops[id];
      && 0 <= ls.row.iteration && (ls.row.iteration <= ls.row.maxIterations || ls.row.iteration == 0)
      && (mode.Budgeted? ==>
            PaidItems(ls.items) <= 2 * (if ls.row.maxIterations < 0 then 0 else ls.row.maxIterations) + 3)
      && (ls.row.status == Done || HasPr(ls.row) ==> Earned(ls))
  {
    ClusterRunKeepsAny(run, steps, mode, k);
  }

  lemma DoneIsEarnedInCluster(run: seq<Cluster>, steps: seq<WorkerStep>, mode: Mode, k: nat, id: LoopId)
    requires IsClusterRun(run, steps, mode) && k < |steps|
    requires IsDone(run[k + 1].server, id) && !IsDone(run[k].server, id)
    ensures steps[k].Commit? && steps[k].w in run[k].workers && run[k].workers[steps[k].w].id == id
    ensures ApprovedBy(run[k].server, run[k + 1].server, id, run[k].workers[steps[k].w].item)
  {
    ClusterRunKeepsAny(run, steps, mode, k);
    assert StepsTo(run[k], steps[k], run[k + 1], mode);
    hide AnyInv, EarnedBy, ClusterInv, WritesOf, EventEffect, Do, Enabled;
    var c := run[k];
    match steps[k] {
      case Serve(s) => StepNotDone(c.server, s, mode, id);
      case Commit(w) =>
        var tx := c.workers[w];
        CommitIsEffect(c, w);
        DoneByProjection(c.server.loops[tx.id], tx.item, tx.lookup);
      case _ =>
    }
  }
}
