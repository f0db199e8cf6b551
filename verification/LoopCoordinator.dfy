// server/internal/loop/coordinator.go and the status handler of
// server/internal/handler/loop.go as the statements they run.
module LoopCoordinators {
  import opened Base
  import opened LoopTypes
  import opened LoopPolicy
  import opened LoopInvariant
  import opened LoopServer
  import opened LoopStores
  import opened LoopTables

  // Which statement fails, if one does: begin, a read, one of restoreOne's two
  // checks, the item insert, the status write, the PR write, the started_at
  // stamp, the claim, the receipt, commit.
  datatype Fault =
    | NoFault | BeginFails | ReadFails | InFlightCheckFails | PendingCheckFails | InsertFails
    | RowWriteFails | PrWriteFails | StampFails | ClaimFails | ReceiptFails | CommitFails

  class Coordinator {
    const store: LoopStore

    constructor (store: LoopStore)
      ensures this.store == store
    {
      this.store := store;
    }

    // Two statements with nothing around them: when the second fails, the item
    // of the first stays.
    method CreateTaskForStageWithAgent(id: LoopId, l: LoopRow, t: TaskType, bump: nat, origin: Origin, fault: Fault)
        returns (failed: bool)
      requires id in store.loops
      modifies store`loops
      ensures failed <==> fault.InsertFails? || fault.RowWriteFails?
      ensures store.loops == old(store.loops)[id := Created(old(store.loops)[id], l, t, bump, origin, fault)]
    {
      ghost var ls := store.loops[id];
      if fault.InsertFails? {
        assert store.loops == store.loops[id := ls];
        return true;
      }
      ExecTwo(ls, InsertItem(t), StageWrite(l, t, bump), origin);
      store.Run(id, InsertItem(t), origin);
      if fault.RowWriteFails? {
        return true;
      }
      failed := false;
      var _ := store.UpdateStatus(id,
          UpdateInput(Running, Some(StageOf(t)), Some(l.iteration + bump), None, false, false));
    }

    method FailInvalidConfiguration(id: LoopId, l: LoopRow, fault: Fault) returns (failed: bool)
      requires id in store.loops
      modifies store`loops
      ensures failed <==> fault.RowWriteFails?
      ensures store.loops == if failed then old(store.loops)
        else old(store.loops)[id := ExecAll(old(store.loops)[id], BadConfigWrites(l), ByRestore)]
    {
      failed := fault.RowWriteFails?;
      if !failed {
        ExecOne(store.loops[id], BadConfigWrites(l)[0], ByRestore);
        var _ := store.UpdateStatus(id,
            UpdateInput(Failed, l.stage, Some(l.iteration), Some(InvalidConfig), false, true));
      }
    }

    method ApplyDecision(id: LoopId, l: LoopRow, d: Decision, lookup: Lookup, fault: Fault) returns (failed: bool)
      requires id in store.loops
      modifies store`loops
      ensures failed <==> DecisionFails(l, d, lookup, fault)
      ensures !failed ==> DecisionWrites(l, d, lookup).Some?
      ensures !failed ==>
        store.loops == old(store.loops)[id :=
            ExecAll(old(store.loops)[id], DecisionWrites(l, d, lookup).value, ByProjection)]
    {
      failed := false;
      ghost var ls := store.loops[id];
      match d {
        case CreateTask(t, bump) =>
          var resolution := ResolveStageAgent(l, t, lookup);
          if resolution == BadConfig {
            ExecOne(ls, BadConfigWrites(l)[0], ByProjection);
            ExecOne(ls, BadConfigWrites(l)[0], ByRestore);
            failed := FailInvalidConfiguration(id, l, fault);
          } else if resolution == LookupFailed {
            failed := true;
          } else {
            failed := CreateTaskForStageWithAgent(id, l, t, bump, ByProjection, fault);
          }
        case Complete(url, number, branch) =>
          if fault.PrWriteFails? {
            return true;
          }
          ExecTwo(ls, CompleteWrites(d)[0], CompleteWrites(d)[1], ByProjection);
          var _ := store.SetPR(id, url, number, branch);
          if fault.RowWriteFails? {
            return true;
          }
          var _ := store.UpdateStatus(id, UpdateInput(Done, None, None, None, false, true));
        case Fail(reason) =>
          if fault.RowWriteFails? {
            return true;
          }
          ExecOne(ls, FailWrites(reason)[0], ByProjection);
          var _ := store.UpdateStatus(id, UpdateInput(Failed, None, None, Some(reason), false, true));
        case Noop =>
      }
    }

    // StartLoop runs in a transaction: any failure leaves the store as it was.
    method StartLoop(id: LoopId, lookup: Lookup, fault: Fault) returns (failed: bool)
      modifies store`loops
      ensures failed <==> StartCannot(fault) || id !in old(store.loops) || Start(old(store.loops)[id], lookup).None?
      ensures failed <==>
        || !(fault in {NoFault, InFlightCheckFails, PendingCheckFails, PrWriteFails, ClaimFails, ReceiptFails})
        || id !in old(store.loops) || old(store.loops)[id].row.status != Pending
        || !HasAgentId(old(store.loops)[id].row, Plan)
        || lookup != Found(old(store.loops)[id].row.workspace, false, true)
      ensures failed ==> store.loops == old(store.loops)
      ensures !failed ==> store.loops == old(store.loops)[id := Start(old(store.loops)[id], lookup).value]
    {
      if id in store.loops {
        StartTable(store.loops[id], lookup);
      }
      hide HasAgentId;
      if fault.BeginFails? || fault.ReadFails? {
        return true;
      }
      var tx := new LoopStore(store.loops, store.order);
      var row := tx.GetLoop(id);
      if row.None? || row.value.status != Pending || ResolveStageAgent(row.value, LoopPlan, lookup) != Resolved {
        return true;
      }
      ghost var ls := tx.loops[id];
      var inTx := new Coordinator(tx);
      failed := inTx.CreateTaskForStageWithAgent(id, row.value, LoopPlan, 0, ByStart, fault);
      if failed {
        return;
      }
      if fault.StampFails? {
        return true;
      }
      var stamp := UpdateInput(Running, Some(Plan), None, None, true, false);
      ExecAppend(ls, CreateTaskWrites(row.value, LoopPlan, 0), [UpdateLoop(stamp)], ByStart);
      ExecOne(tx.loops[id], UpdateLoop(stamp), ByStart);
      var _ := tx.UpdateStatus(id, stamp);
      if fault.CommitFails? {
        return true;
      }
      store.loops := tx.loops;
    }

    // restoreOne, with l the row loaded at startup.
    method RestoreOne(id: LoopId, l: LoopRow, lookup: Lookup, timedOut: bool, fault: Fault) returns (failed: bool)
      requires id in store.loops && l == store.loops[id].row
      modifies store`loops
      ensures store.loops == old(store.loops)[id := RestoredWith(old(store.loops)[id], lookup, timedOut, fault)]
      ensures failed <==> RestoreReportsError(old(store.loops)[id], lookup, timedOut, fault)
    {
      hide HasInFlight, HasPendingEvent, ExecAll, UpdateRow;
      ghost var ls := store.loops[id];
      assert store.loops == store.loops[id := ls];
      failed := false;
      if l.status != Running {
        return;
      }
      if l.stage == None {
        failed := FailInvalidConfiguration(id, l, fault);
        return;
      }
      var t := TaskOf(l.stage.value);
      if fault.InFlightCheckFails? {
        return true;
      }
      if HasInFlight(store.loops[id], t) {
        return;
      }
      if fault.PendingCheckFails? {
        return true;
      }
      if HasPendingEvent(store.loops[id], t) {
        return;
      }
      var resolution := ResolveStageAgent(l, t, lookup);
      if resolution == BadConfig {
        failed := FailInvalidConfiguration(id, l, fault);
      } else if resolution == LookupFailed {
        failed := true;
      } else if l.started && timedOut {
        if fault.RowWriteFails? {
          return true;
        }
        ExecOne(ls, FailWrites(LoopTimeout)[0], ByRestore);
        var _ := store.UpdateStatus(id, UpdateInput(Failed, None, None, Some(LoopTimeout), false, true));
      } else {
        failed := CreateTaskForStageWithAgent(id, l, t, 0, ByRestore, fault);
      }
    }

    // One bad loop does not stop the others; a failed load ends the restore. The
    // oracle says, per loop, what the agent query returns, what the clock says
    // and where the database fails.
    method RestoreOnStartup(loadFails: bool, oracle: LoopId -> (Lookup, bool, Fault)) returns (failed: set<LoopId>)
      requires Distinct(store.order)
      modifies store`loops
      ensures RestoredExactly(old(store.loops), if loadFails then [] else LoadedLoops(store.order, old(store.loops)),
                              oracle, store.loops, failed)
    {
      failed := {};
      if loadFails {
        return;
      }
      hide RestoreOutcomeOf, RestoredWith, LoadedLoops;
      var loaded := store.LoadActive();
      ghost var ids := LoadedLoops(store.order, store.loops);
      LoadedAreDistinct(store.order, store.loops);
      for k := 0 to |loaded|
        invariant store.order == old(store.order)
        invariant RestoredExactly(old(store.loops), ids[..k], oracle, store.loops, failed)
      {
        var (id, l) := loaded[k];
        assert ids[..k + 1] == ids[..k] + [id];
        assert id !in ids[..k];
        var (lookup, timedOut, fault) := oracle(id);
        ghost var before := store.loops;
        var bad := RestoreOne(id, l, lookup, timedOut, fault);
        RestoredOneMore(old(store.loops), ids[..k], oracle, before, failed, id, bad);
        if bad {
          failed := failed + {id};
        }
      }
      assert ids[..|loaded|] == ids;
    }

    // The handler: an unlocked read, then a full-row write that echoes what was
    // read. Run without interruption here.
    method TransitionLoopStatus(id: LoopId, workspace: nat, target: Status, fault: Fault) returns (done: bool)
      modifies store`loops
      ensures done <==>
        && !fault.ReadFails? && !fault.RowWriteFails?
        && id in old(store.loops) && old(store.loops)[id].row.workspace == workspace
      ensures store.loops ==
        if done then
          old(store.loops)[id := OperatorWrite(old(store.loops)[id], target,
                                               old(store.loops)[id].row.stage, old(store.loops)[id].row.iteration)]
        else old(store.loops)
      ensures done ==> var ls := old(store.loops)[id];
        store.loops[id] == ls.(row := ls.row.(status := target, failure := None, completed := false))
    {
      if fault.ReadFails? {
        return false;
      }
      var existing := store.GetLoop(id);
      if existing.None? || existing.value.workspace != workspace {
        return false;
      }
      if fault.RowWriteFails? {
        return false;
      }
      done := store.UpdateStatus(id,
        UpdateInput(target, existing.value.stage, Some(existing.value.iteration), None, false, false));
    }
  }

  // What the two statements of createTaskForStageWithAgent leave behind.
  function Created(ls: LoopState, l: LoopRow, t: TaskType, bump: nat, origin: Origin, fault: Fault): LoopState {
    if fault.InsertFails? then ls
    else if fault.RowWriteFails? then Exec(ls, InsertItem(t), origin)
    else ExecAll(ls, CreateTaskWrites(l, t, bump), origin)
  }

  // The row is written only if the item was inserted, which stays if it is not.
  lemma CreatedInOrder(ls: LoopState, l: LoopRow, t: TaskType, bump: nat, origin: Origin, fault: Fault)
    ensures Created(ls, l, t, bump, origin, fault) ==
      if fault.InsertFails? then ls
      else LoopState(
        if fault.RowWriteFails? then ls.row
        else ls.row.(status := Running, stage := Some(StageOf(t)), iteration := l.iteration + bump,
                     failure := None, completed := false),
        ls.items + [Item(t, origin, InFlight)])
  {
    ExecTwo(ls, InsertItem(t), StageWrite(l, t, bump), origin);
  }

  // Failing for bad configuration keeps the stage and the iteration it is given.
  lemma MisconfiguredKeepsPlace(ls: LoopState, l: LoopRow, origin: Origin)
    ensures ExecAll(ls, BadConfigWrites(l), origin) == ls.(row := ls.row.(
      status := Failed, stage := l.stage, iteration := l.iteration, failure := Some(InvalidConfig), completed := true))
  {
    ExecOne(ls, BadConfigWrites(l)[0], origin);
  }

  predicate DecisionFails(l: LoopRow, d: Decision, lookup: Lookup, fault: Fault) {
    match d
    case Noop => false
    case Fail(_) => fault.RowWriteFails?
    case Complete(_, _, _) => fault.PrWriteFails? || fault.RowWriteFails?
    case CreateTask(t, _) =>
      match ResolveStageAgent(l, t, lookup)
      case LookupFailed => true
      case BadConfig => fault.RowWriteFails?
      case Resolved => fault.InsertFails? || fault.RowWriteFails?
  }

  // A decision fails exactly if it has a row to write and cannot, or the pull
  // request, or the item of a stage whose agent is usable, or if that agent could
  // not be looked up.
  lemma DecisionFaults(l: LoopRow, d: Decision, lookup: Lookup, fault: Fault)
    ensures DecisionFails(l, d, lookup, fault) <==>
        || (fault.RowWriteFails? && !d.Noop?)
        || (fault.PrWriteFails? && d.Complete?)
        || (d.CreateTask? && HasAgentId(l, StageOf(d.taskType)) && lookup == QueryFailed)
        || (fault.InsertFails? && d.CreateTask? && HasAgentId(l, StageOf(d.taskType)) && !Unusable(l, lookup))
  {
    if d.CreateTask? {
      ResolvedIff(l, d.taskType, lookup);
    }
    hide ResolveStageAgent, HasAgentId, Unusable;
  }

  predicate StartCannot(fault: Fault) {
    || fault.BeginFails? || fault.ReadFails? || fault.InsertFails? || fault.RowWriteFails?
    || fault.StampFails? || fault.CommitFails?
  }

  // One of restoreOne's checks fails when it is made.
  predicate CheckFails(ls: LoopState, fault: Fault) {
    && ls.row.status == Running && ls.row.stage.Some?
    && (|| fault.InFlightCheckFails?
        || (fault.PendingCheckFails? && !HasInFlight(ls, TaskOf(ls.row.stage.value))))
  }

  // RestoreOne's effect when any of its statements may fail.
  function RestoredWith(ls: LoopState, lookup: Lookup, timedOut: bool, fault: Fault): LoopState {
    if CheckFails(ls, fault) then ls
    else match RestoreOutcomeOf(ls, lookup, timedOut)
    case Arm(t) => Created(ls, ls.row, t, 0, ByRestore, fault)
    case Write(_) => if fault.RowWriteFails? then ls else RestoreOne(ls, lookup, timedOut)
    case _ => ls
  }

  predicate RestoreReportsError(ls: LoopState, lookup: Lookup, timedOut: bool, fault: Fault) {
    var out := RestoreOutcomeOf(ls, lookup, timedOut);
    || CheckFails(ls, fault)
    || out.Error?
    || (out.Arm? && (fault.InsertFails? || fault.RowWriteFails?))
    || (out.Write? && fault.RowWriteFails?)
  }

  // Where a failing statement leaves a loop that is restored, and when the
  // restore says so.
  lemma RestoreFaults(ls: LoopState, lookup: Lookup, timedOut: bool, fault: Fault)
    ensures var row, after, reported :=
          ls.row, RestoredWith(ls, lookup, timedOut, fault), RestoreReportsError(ls, lookup, timedOut, fault);
      var t := if row.stage.Some? then TaskOf(row.stage.value) else LoopPlan;
      var misconfigured := row.stage == None || !HasAgentId(row, row.stage.value) || Unusable(row, lookup);
      if row.status != Running then after == ls && !reported
      else if row.stage != None && fault.InFlightCheckFails? then after == ls && reported
      else if row.stage != None && HasInFlight(ls, t) then after == ls && !reported
      else if row.stage != None && fault.PendingCheckFails? then after == ls && reported
      else if row.stage != None && HasPendingEvent(ls, t) then after == ls && !reported
      else if misconfigured || (lookup != QueryFailed && row.started && timedOut) then
        && (reported <==> fault.RowWriteFails?)
        && after == if reported then ls
           else if misconfigured then
             ls.(row := row.(status := Failed, failure := Some(InvalidConfig), completed := true))
           else ls.(row := Failing(row, LoopTimeout))
      else if lookup == QueryFailed || fault.InsertFails? then after == ls && reported
      else
        && (reported <==> fault.RowWriteFails?)
        && after == LoopState(if reported then row else row.(failure := None, completed := false),
                              ls.items + [Item(t, ByRestore, InFlight)])
  {
    RestoreTable(ls, lookup, timedOut);
    if ls.row.stage.Some? {
      ResolvedIff(ls.row, TaskOf(ls.row.stage.value), lookup);
      ExecCreateTask(ls, TaskOf(ls.row.stage.value), 0, ByRestore);
    }
    hide ResolveStageAgent, HasAgentId, Unusable, ExecAll;
  }

  // Exactly the loops in done went through restoreOne, and failed are those of
  // them that reported an error.
  ghost predicate RestoredExactly(
    before: map<LoopId, LoopState>, done: seq<LoopId>, oracle: LoopId -> (Lookup, bool, Fault),
    after: map<LoopId, LoopState>, failed: set<LoopId>)
  {
    && after.Keys == before.Keys
    && (forall id | id in before :: after[id] == AfterRestore(before[id], id in done, oracle(id)))
    && (forall id | id in before :: id in failed <==> id in done && ErrorReported(before[id], oracle(id)))
  }

  lemma RestoredOneMore(
    before: map<LoopId, LoopState>, done: seq<LoopId>, oracle: LoopId -> (Lookup, bool, Fault),
    now: map<LoopId, LoopState>, failed: set<LoopId>, id: LoopId, bad: bool)
    requires RestoredExactly(before, done, oracle, now, failed)
    requires id in before && id !in done && bad == ErrorReported(before[id], oracle(id))
    ensures RestoredExactly(before, done + [id], oracle,
                            now[id := AfterRestore(before[id], true, oracle(id))],
                            if bad then failed + {id} else failed)
  {
  }

  lemma LoadedAreDistinct(order: seq<LoopId>, loops: map<LoopId, LoopState>)
    requires Distinct(order)
    ensures Distinct(LoadedLoops(order, loops))
    ensures forall id | id in LoadedLoops(order, loops) :: id in loops
  {
    ActiveLoopsExact(order, loops);
  }

  predicate ErrorReported(ls: LoopState, o: (Lookup, bool, Fault)) {
    RestoreReportsError(ls, o.0, o.1, o.2)
  }

  function AfterRestore(ls: LoopState, loaded: bool, o: (Lookup, bool, Fault)): LoopState {
    if loaded then RestoredWith(ls, o.0, o.1, o.2) else ls
  }
}
