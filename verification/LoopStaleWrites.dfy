// What an operator's stale write can lead to: every write that breaks the guard
// of single flight extends to a run with two live work items, and every write
// over the budget extends to a run that breaks the work bound.
module LoopStaleWrites {
  import opened Base
  import opened LoopTypes
  import opened LoopPolicy
  import opened LoopInvariant
  import opened LoopServer
  import opened LoopAnyRun
  import opened LoopRace

  // ---------- runs that go on ----------

  ghost predicate Extends(run: seq<Server>, steps: seq<Step>, run': seq<Server>, steps': seq<Step>) {
    run <= run' && steps <= steps' && IsRun(run', steps', Racy)
  }

  lemma ExtendsOn(r1: seq<Server>, s1: seq<Step>, r2: seq<Server>, s2: seq<Step>, r3: seq<Server>, s3: seq<Step>)
    requires Extends(r1, s1, r2, s2) && Extends(r2, s2, r3, s3)
    ensures Extends(r1, s1, r3, s3)
  {
  }

  lemma Take(run: seq<Server>, steps: seq<Step>, step: Step) returns (run': seq<Server>, steps': seq<Step>)
    requires IsRun(run, steps, Racy) && Enabled(Last(run), step, Racy)
    ensures Extends(run, steps, run', steps') && Last(run') == Do(Last(run), step) && steps' == steps + [step]
  {
    hide Do, Enabled;
    assert Moves(Last(run), step, Do(Last(run), step), Racy);
    run', steps' := Push(run, steps, step, Do(Last(run), step));
  }

  // An operator request that nothing comes between.
  function WithStatus(ls: LoopState, target: Status): LoopState {
    OperatorWrite(ls, target, ls.row.stage, ls.row.iteration)
  }

  lemma SetStatus(run: seq<Server>, steps: seq<Step>, id: LoopId, target: Status)
      returns (run': seq<Server>, steps': seq<Step>)
    requires IsRun(run, steps, Racy) && Last(run).phase.Serving? && id in Last(run).loops && OperatorTarget(target)
    ensures Extends(run, steps, run', steps') && Last(run').phase.Serving? && Last(run').order == Last(run).order
    ensures Last(run').loops == Last(run).loops[id := WithStatus(Last(run).loops[id], target)]
  {
    var r1, s1 := Take(run, steps, OperatorReads(0, id, target));
    run', steps' := Take(r1, s1, OperatorWrites(0));
    ExtendsOn(run, steps, r1, s1, run', steps');
  }

  // ---------- every loop but one out of the way ----------

  ghost predicate Others(s: Server, keep: LoopId, n: nat)
    requires n <= |s.order|
  {
    forall j | 0 <= j < n && s.order[j] != keep && s.order[j] in s.loops :: !Active(s.loops[s.order[j]].row)
  }

  lemma {:induction false} CancelOthers(run: seq<Server>, steps: seq<Step>, keep: LoopId, n: nat)
      returns (run': seq<Server>, steps': seq<Step>)
    requires IsRun(run, steps, Racy) && Last(run).phase.Serving? && keep in Last(run).loops && n <= |Last(run).order|
    ensures Extends(run, steps, run', steps') && Last(run').phase.Serving? && Last(run').order == Last(run).order
    ensures keep in Last(run').loops && Last(run').loops[keep] == Last(run).loops[keep]
    ensures Others(Last(run'), keep, n)
    decreases n
  {
    if n == 0 {
      run', steps' := run, steps;
    } else {
      var r1, s1 := CancelOthers(run, steps, keep, n - 1);
      var id := Last(run).order[n - 1];
      if id == keep || id !in Last(r1).loops {
        run', steps' := r1, s1;
      } else {
        run', steps' := SetStatus(r1, s1, id, Cancelled);
        ExtendsOn(run, steps, r1, s1, run', steps');
      }
    }
  }

  lemma {:induction false} OnlyOneActive(order: seq<LoopId>, loops: map<LoopId, LoopState>, keep: LoopId)
    requires Distinct(order)
    requires forall j | 0 <= j < |order| && order[j] != keep && order[j] in loops :: !Active(loops[order[j]].row)
    requires keep in order ==> keep in loops && Active(loops[keep].row)
    ensures ActiveLoops(order, loops) == if keep in order then [keep] else []
  {
    if order != [] {
      var rest := order[1..];
      assert order == [order[0]] + rest;
      assert forall j | 0 <= j < |rest| :: rest[j] == order[j + 1];
      OnlyOneActive(rest, loops, keep);
    }
  }

  // ---------- two live items ----------

  // A restart that finds the loop running, with no live item of its stage,
  // enqueues one, whatever else the loop has in flight.
  lemma RestartArms(run: seq<Server>, steps: seq<Step>, id: LoopId, st: Stage)
      returns (run': seq<Server>, steps': seq<Step>)
    requires IsRun(run, steps, Racy) && Last(run).phase.Serving? && id in Last(run).loops
    requires Last(run).loops[id].row.status == Running && Last(run).loops[id].row.stage == Some(st)
    requires !HasInFlight(Last(run).loops[id], TaskOf(st)) && !HasPendingEvent(Last(run).loops[id], TaskOf(st))
    requires Configured(Last(run).loops[id].row, TaskOf(st))
    ensures Extends(run, steps, run', steps') && id in Last(run').loops
    ensures Last(run').loops[id] == Exec(Last(run).loops[id], InsertItem(TaskOf(st)), ByRestore)
    ensures OnlyLoaded(Last(run'), id) && HeadRow(Last(run')) == Last(run).loops[id].row
    ensures Last(run').phase.boot.pc == ItemInserted(TaskOf(st))
  {
    hide ActiveLoops, LoadedLoops, Project, Start, OperatorWrite;
    var ls := Last(run).loops[id];
    var r1, s1 := CancelOthers(run, steps, id, |Last(run).order|);
    var r2, s2 := Restart(r1, s1, id);
    ExtendsOn(run, steps, r1, s1, r2, s2);
    var r3, s3 := Take(r2, s2, CheckInFlight);
    ExtendsOn(run, steps, r2, s2, r3, s3);
    var r4, s4 := Take(r3, s3, CheckPendingEvent);
    ExtendsOn(run, steps, r3, s3, r4, s4);
    run', steps' := Take(r4, s4, DecideRestore(Usable(ls.row), false));
    ExtendsOn(run, steps, r4, s4, run', steps');
  }

  // Startup has loaded one loop and is restoring it.
  predicate OnlyLoaded(s: Server, id: LoopId) {
    AtHead(s) && Head(s) == id && |s.phase.boot.loaded| == 1 && s.phase.boot.next == 0
  }

  // The same up to the point where the server serves again.
  lemma RestartServes(run: seq<Server>, steps: seq<Step>, id: LoopId, st: Stage)
      returns (run': seq<Server>, steps': seq<Step>)
    requires IsRun(run, steps, Racy) && Last(run).phase.Serving? && id in Last(run).loops
    requires var ls := Last(run).loops[id];
      && ls.row.status == Running && ls.row.stage == Some(st) && ls.row.failure == None && !ls.row.completed
      && !HasInFlight(ls, TaskOf(st)) && !HasPendingEvent(ls, TaskOf(st)) && Configured(ls.row, TaskOf(st))
    ensures Extends(run, steps, run', steps') && Last(run').phase.Serving? && id in Last(run').loops
    ensures Last(run').loops[id] == Exec(Last(run).loops[id], InsertItem(TaskOf(st)), ByRestore)
  {
    var r1, s1 := RestartArms(run, steps, id, st);
    hide HasInFlight, HasPendingEvent, Configured, LoadedLoops, Project, Start, OperatorWrite, DoCheckInFlight,
        DoDecideRestore;
    var r2, s2 := Take(r1, s1, WriteRestoredRow);
    ExtendsOn(run, steps, r1, s1, r2, s2);
    run', steps' := Take(r2, s2, BeginServing);
    ExtendsOn(run, steps, r2, s2, run', steps');
  }

  // What the agent query returns for a usable agent.
  function Usable(row: LoopRow): Lookup {
    Found(row.workspace, false, true)
  }

  // The stage's work has a well-formed agent id.
  predicate Configured(row: LoopRow, t: TaskType) {
    ResolveStageAgent(row, t, Usable(row)).Resolved?
  }

  lemma Restart(run: seq<Server>, steps: seq<Step>, id: LoopId) returns (run': seq<Server>, steps': seq<Step>)
    requires IsRun(run, steps, Racy) && Last(run).phase.Serving? && id in Last(run).loops
    requires Active(Last(run).loops[id].row) && Others(Last(run), id, |Last(run).order|)
    ensures Extends(run, steps, run', steps') && Last(run').loops == Last(run).loops
    ensures OnlyLoaded(Last(run'), id) && Last(run').phase.boot.pc.LoadedRow?
    ensures HeadRow(Last(run')) == Last(run).loops[id].row
  {
    RunIsSteady(run, steps, Racy, |run| - 1);
    var s := Last(run);
    var boot := LoadsOnly(s, id);
    var r1, s1 := Take(run, steps, Crash);
    var r2, s2 := Take(r1, s1, BeginDrain);
    ExtendsOn(run, steps, r1, s1, r2, s2);
    assert Last(r2) == Server(s.loops, s.order, Draining, map[]);
    run', steps' := Take(r2, s2, LoadActive);
    hide Extends, ActiveLoops, LoadedLoops, Others;
    ExtendsOn(run, steps, r2, s2, run', steps');
  }

  lemma LoadsOnly(s: Server, id: LoopId) returns (boot: Boot)
    requires id in s.loops && Active(s.loops[id].row) && Others(s, id, |s.order|)
    requires Distinct(s.order) && forall i :: i in s.loops <==> i in s.order
    ensures LoadedLoops(s.order, s.loops) == [id]
    ensures boot == Boot([id], map[id := s.loops[id].row], true, 0, LoadedRow, {})
    ensures var empty := map[];
      Do(Server(s.loops, s.order, Draining, empty), LoadActive) == Server(s.loops, s.order, Restoring(boot), empty)
  {
    OnlyOneActive(s.order, s.loops, id);
    boot := Boot([id], map[id := s.loops[id].row], true, 0, LoadedRow, {});
    var loaded := LoadedLoops(s.order, s.loops);
    assert loaded == [id];
    assert (map i | i in loaded && i in s.loops :: s.loops[i].row) == map[id := s.loops[id].row];
    assert Do(Server(s.loops, s.order, Draining, map[]), LoadActive).phase.boot.rows == boot.rows;
  }

  // Where the guard of single flight fails, single flight can fail: if an
  // operator's write names a stage that is not the live item's, and that stage
  // has an agent, some continuation ends with two live items.
  lemma StaleStageBreaksSingleFlight(run: seq<Server>, steps: seq<Step>, req: nat)
      returns (run': seq<Server>, steps': seq<Step>)
    requires IsRun(run, steps, Racy) && Enabled(Last(run), OperatorWrites(req), Racy)
    requires var r := Last(run).requests[req]; var ls := Last(run).loops[r.loop];
      && FlightInv(ls) && OperatorTarget(r.target)
      && !FlightWrite(ls, r.stage)
      && Configured(ls.row, TaskOf(r.stage.value))
    ensures Extends(run, steps, run', steps') && |steps| < |steps'| && steps'[|steps|] == OperatorWrites(req)
    ensures var id := Last(run).requests[req].loop;
      id in Last(run').loops && LiveItems(Last(run').loops[id].items) == 2
  {
    var r := Last(run).requests[req];
    var id, ls, t := r.loop, Last(run).loops[r.loop], TaskOf(r.stage.value);
    AtMostOneLive(ls);
    OtherStageOnly(ls, t);
    var r1, s1 := Take(run, steps, OperatorWrites(req));
    var r2, s2 := SetStatus(r1, s1, id, Running);
    ExtendsOn(run, steps, r1, s1, r2, s2);
    run', steps' := RestartArms(r2, s2, id, r.stage.value);
    ExtendsOn(run, steps, r2, s2, run', steps');
    CountsAfterAppend(ls.items, Item(t, ByRestore, InFlight));
  }

  lemma OtherStageOnly(ls: LoopState, t: TaskType)
    requires FlightInv(ls)
    requires exists i | 0 <= i < |ls.items| && ls.items[i].Live() :: ls.items[i].taskType != t
    ensures !HasInFlight(ls, t) && !HasPendingEvent(ls, t) && LiveItems(ls.items) == 1
  {
    AtMostOneLive(ls);
  }

  // ---------- more work than the bound ----------

  // The loop runs, its newest item is in flight and of its stage.
  ghost predicate AtWork(s: Server, id: LoopId) {
    && s.phase.Serving? && id in s.loops
    && Busy(s.loops[id])
  }

  ghost predicate Busy(ls: LoopState) {
    && ls.row.status == Running && ls.row.stage.Some?
    && ls.items != [] && Last(ls.items).status.InFlight? && Last(ls.items).taskType == TaskOf(ls.row.stage.value)
    && Bounded(ls.row)
    && (forall t :: Configured(ls.row, t))
  }

  function Left(row: LoopRow): int
    requires row.stage.Some?
  {
    Remaining(row.stage.value, row.iteration, row.Cap())
  }

  const NO_VERDICT := Event(1, Completed(None), true)

  function Ended(ls: LoopState): LoopState
    requires ls.items != []
  {
    SetItemStatus(ls, |ls.items| - 1, Terminal(NO_VERDICT))
  }

  // What projecting the newest item's event, without a verdict, leads to.
  ghost predicate Advanced(before: LoopState, after: LoopState)
    requires Busy(before)
  {
    && Busy(after) && |after.items| == |before.items| + 1
    && Left(after.row) == Left(before.row) - 1 && after.row.Cap() == before.row.Cap()
    && (forall j | 0 <= j < |before.items| - 1 :: after.items[j] == before.items[j])
    && after.items[|before.items| - 1] == Last(before.items).(status := Receipted(NO_VERDICT))
    && PaidItems(after.items) == PaidItems(before.items) + 1
    && (LoopInv(before) ==> LoopInv(after))
  }

  lemma AdvancedBy(before: LoopState)
    requires Busy(before) && 0 < Left(before.row)
    ensures var i, lookup := |before.items| - 1, Usable(before.row);
      && Project(Ended(before), i, lookup).Some?
      && Advanced(before, Project(Ended(before), i, lookup).value)
  {
    hide LoopInv, PaidItems;
    var i, lookup := |before.items| - 1, Usable(before.row);
    var d := DecideNextStage(before.row, None);
    NextStage(before.row);
    assert Configured(before.row, d.taskType);
    AdvanceShape(Ended(before), i, lookup, d.taskType, d.bump);
    SameAgents(before.row, StageRow(before.row, d.taskType, d.bump));
    SpentOne(before, NO_VERDICT, d.taskType);
    if LoopInv(before) {
      EndKeeps(before, i, Terminal(NO_VERDICT));
      ProjectKeeps(Ended(before), i, lookup);
    }
  }

  // The agent completes the item with no verdict, and the event is projected.
  lemma SpendOne(run: seq<Server>, steps: seq<Step>, id: LoopId) returns (run': seq<Server>, steps': seq<Step>)
    requires IsRun(run, steps, Racy) && AtWork(Last(run), id) && 0 < Left(Last(run).loops[id].row)
    ensures Extends(run, steps, run', steps') && AtWork(Last(run'), id)
    ensures Advanced(Last(run).loops[id], Last(run').loops[id])
    ensures Last(run').requests == Last(run).requests
  {
    hide Project, Configured, LoopInv, PaidItems, Remaining, DoCheckInFlight, DoDecideRestore, Start,
        OperatorWrite, LoadedLoops;
    var ls := Last(run).loops[id];
    AdvancedBy(ls);
    var r1, s1 := Take(run, steps, EndItem(id, |ls.items| - 1, NO_VERDICT));
    run', steps' := Take(r1, s1, ProjectEvent(id, |ls.items| - 1, Usable(ls.row)));
    ExtendsOn(run, steps, r1, s1, run', steps');
  }

  // What an event without a verdict leads to.
  lemma NextStage(row: LoopRow)
    requires row.status == Running && row.stage.Some? && Bounded(row) && 0 < Left(row)
    ensures var d := DecideNextStage(row, None);
      && d.CreateTask?
      && var next := StageRow(row, d.taskType, d.bump);
      && Left(next) == Left(row) - 1 && next.stage == Some(StageOf(d.taskType))
      && Bounded(next) && next.Cap() == row.Cap()
  {
  }

  lemma SpentOne(ls: LoopState, e: Event, t: TaskType)
    requires ls.items != []
    ensures var i := |ls.items| - 1;
      var items := SetItemStatus(SetItemStatus(ls, i, Terminal(e)), i, Receipted(e)).items
          + [Item(t, ByProjection, InFlight)];
      PaidItems(items) == PaidItems(ls.items) + 1
  {
    var i := |ls.items| - 1;
    var ended := SetItemStatus(ls, i, Terminal(e));
    CountsAfterStatus(ls.items, i, Terminal(e));
    CountsAfterStatus(ended.items, i, Receipted(e));
    CountsAfterAppend(SetItemStatus(ended, i, Receipted(e)).items, Item(t, ByProjection, InFlight));
  }

  lemma SameAgents(row: LoopRow, row': LoopRow)
    requires row'.agent == row.agent && row'.stageAgents == row.stageAgents && row'.workspace == row.workspace
    ensures forall t :: Configured(row', t) <==> Configured(row, t)
  {
  }

  lemma {:induction false} SpendAll(run: seq<Server>, steps: seq<Step>, id: LoopId)
      returns (run': seq<Server>, steps': seq<Step>)
    requires IsRun(run, steps, Racy) && AtWork(Last(run), id)
    ensures Extends(run, steps, run', steps') && AtWork(Last(run'), id)
    ensures var ls, ls' := Last(run).loops[id], Last(run').loops[id];
      PaidItems(ls'.items) == PaidItems(ls.items) + Left(ls.row) && ls'.row.Cap() == ls.row.Cap()
    decreases Left(Last(run).loops[id].row)
  {
    hide Extends;
    if Left(Last(run).loops[id].row) == 0 {
      run', steps' := run, steps;
      Itself(run, steps);
    } else {
      var r1, s1 := SpendOne(run, steps, id);
      Extended(run, steps, r1, s1);
      run', steps' := SpendAll(r1, s1, id);
      ExtendsOn(run, steps, r1, s1, run', steps');
    }
  }

  lemma Itself(run: seq<Server>, steps: seq<Step>)
    requires IsRun(run, steps, Racy)
    ensures Extends(run, steps, run, steps)
  {
  }

  lemma Extended(run: seq<Server>, steps: seq<Step>, run': seq<Server>, steps': seq<Step>)
    requires Extends(run, steps, run', steps')
    ensures IsRun(run', steps', Racy)
  {
  }

  // The items of type t among the first n have ended and are dealt with; the
  // rest are as before.
  ghost predicate Cleared(before: LoopState, after: LoopState, t: TaskType, n: nat) {
    && after.row == before.row && |after.items| == |before.items|
    && PaidItems(after.items) == PaidItems(before.items)
    && (forall j | 0 <= j < n && j < |after.items| && after.items[j].taskType == t :: !after.items[j].Live())
    && (forall j | n <= j < |after.items| :: after.items[j] == before.items[j])
  }

  // No event of type t is of a version the projector rejects.
  ghost predicate Projectable(ls: LoopState, t: TaskType) {
    forall i | 0 <= i < |ls.items| && ls.items[i].taskType == t && ls.items[i].status.Terminal? ::
      ls.items[i].status.event.version == 1
  }

  // While the loop is paused its items are lost or their events swallowed.
  lemma {:induction false} Clear(run: seq<Server>, steps: seq<Step>, id: LoopId, t: TaskType, n: nat)
      returns (run': seq<Server>, steps': seq<Step>)
    requires IsRun(run, steps, Racy) && Last(run).phase.Serving? && id in Last(run).loops
    requires Last(run).loops[id].row.status == Paused && n <= |Last(run).loops[id].items|
    requires Projectable(Last(run).loops[id], t)
    ensures Extends(run, steps, run', steps') && Last(run').phase.Serving? && id in Last(run').loops
    ensures Cleared(Last(run).loops[id], Last(run').loops[id], t, n)
    decreases n
  {
    hide PaidItems;
    if n == 0 {
      run', steps' := run, steps;
    } else {
      var r1, s1 := Clear(run, steps, id, t, n - 1);
      var ls, i := Last(r1).loops[id], n - 1;
      if ls.items[i].taskType != t || !ls.items[i].Live() {
        run', steps' := r1, s1;
      } else {
        run', steps' := ClearOne(r1, s1, id, i);
        ExtendsOn(run, steps, r1, s1, run', steps');
      }
    }
  }

  lemma ClearOne(run: seq<Server>, steps: seq<Step>, id: LoopId, i: nat)
      returns (run': seq<Server>, steps': seq<Step>)
    requires IsRun(run, steps, Racy) && Last(run).phase.Serving? && id in Last(run).loops
    requires var ls := Last(run).loops[id];
      && ls.row.status == Paused && i < |ls.items| && ls.items[i].Live()
      && (ls.items[i].status.Terminal? ==> ls.items[i].status.event.version == 1)
    ensures Extends(run, steps, run', steps') && Last(run').phase.Serving? && id in Last(run').loops
    ensures var ls, ls' := Last(run).loops[id], Last(run').loops[id];
      && ls'.row == ls.row && PaidItems(ls'.items) == PaidItems(ls.items)
      && exists st: ItemStatus :: (st.Lost? || st.Receipted?) && ls'.items == ls.items[i := ls.items[i].(status := st)]
  {
    hide PaidItems;
    var ls := Last(run).loops[id];
    var st := if ls.items[i].status.InFlight? then Lost else Receipted(ls.items[i].status.event);
    CountsAfterStatus(ls.items, i, st);
    if ls.items[i].status.InFlight? {
      run', steps' := Take(run, steps, LoseItem(id, i));
    } else {
      assert Project(ls, i, NotFound) == Some(SetItemStatus(ls, i, st));
      run', steps' := Take(run, steps, ProjectEvent(id, i, NotFound));
    }
    assert Last(run').loops[id].items == ls.items[i := ls.items[i].(status := st)];
  }

  // The write is made, the stage it names is cleared, and the loop is resumed.
  lemma WriteAndClear(run: seq<Server>, steps: seq<Step>, req: nat)
      returns (run': seq<Server>, steps': seq<Step>)
    requires IsRun(run, steps, Racy) && Enabled(Last(run), OperatorWrites(req), Racy)
    requires var r := Last(run).requests[req];
      r.stage.Some? && Projectable(Last(run).loops[r.loop], TaskOf(r.stage.value))
    ensures Extends(run, steps, run', steps') && |steps| < |steps'| && steps'[|steps|] == OperatorWrites(req)
    ensures var r := Last(run).requests[req];
      && Last(run').phase.Serving? && r.loop in Last(run').loops
      && Cleared(OperatorWrite(Last(run).loops[r.loop], Running, r.stage, r.iteration), Last(run').loops[r.loop],
                 TaskOf(r.stage.value), |Last(run').loops[r.loop].items|)
  {
    hide PaidItems, LoadedLoops, Project, Start, DoCheckInFlight, DoDecideRestore;
    var r := Last(run).requests[req];
    var id, ls, t := r.loop, Last(run).loops[r.loop], TaskOf(r.stage.value);
    var r1, s1 := Take(run, steps, OperatorWrites(req));
    var r2, s2 := SetStatus(r1, s1, id, Paused);
    ExtendsOn(run, steps, r1, s1, r2, s2);
    var r3, s3 := Clear(r2, s2, id, t, |ls.items|);
    ExtendsOn(run, steps, r2, s2, r3, s3);
    run', steps' := SetStatus(r3, s3, id, Running);
    ExtendsOn(run, steps, r3, s3, run', steps');
  }

  // A write that names a stage and iteration from which the loop would overspend
  // does let it overspend: with every stage configured, some continuation creates
  // more than 2*max+3 items without restoring any, whatever is live at the write.
  lemma OverBudgetBreaksWorkBound(run: seq<Server>, steps: seq<Step>, req: nat)
      returns (run': seq<Server>, steps': seq<Step>)
    requires IsRun(run, steps, Racy) && Enabled(Last(run), OperatorWrites(req), Racy)
    requires var r := Last(run).requests[req]; var ls := Last(run).loops[r.loop];
      && !BudgetWrite(ls, r.stage, r.iteration)
      && (forall t :: Configured(ls.row, t)) && Projectable(ls, TaskOf(r.stage.value))
    ensures Extends(run, steps, run', steps') && |steps| < |steps'| && steps'[|steps|] == OperatorWrites(req)
    ensures var id := Last(run).requests[req].loop;
      id in Last(run').loops && PaidItems(Last(run').loops[id].items) > 2 * Last(run').loops[id].row.Cap() + 3
  {
    var r := Last(run).requests[req];
    var id, t := r.loop, TaskOf(r.stage.value);
    hide PaidItems, Remaining, Configured, AnyInv, Do, Enabled;
    RequestIsWritable(run, steps, req);
    var r1, s1 := WriteAndClear(run, steps, req);
    var ls := Last(r1).loops[id];
    SameAgents(Last(run).loops[id].row, ls.row);
    var r2, s2 := RestartServes(r1, s1, id, r.stage.value);
    ExtendsOn(run, steps, r1, s1, r2, s2);
    CountsAfterAppend(ls.items, Item(t, ByRestore, InFlight));
    run', steps' := SpendAll(r2, s2, id);
    ExtendsOn(run, steps, r2, s2, run', steps');
  }

  lemma RequestIsWritable(run: seq<Server>, steps: seq<Step>, req: nat)
    requires IsRun(run, steps, Racy) && Enabled(Last(run), OperatorWrites(req), Racy)
    ensures RequestKept(Last(run), Last(run).requests[req])
  {
    RunKeepsAny(run, steps, Racy, |run| - 1);
  }

  // In particular one that gives a busy, sound loop rounds back.
  lemma StaleIterationBreaksWorkBound(run: seq<Server>, steps: seq<Step>, req: nat)
      returns (run': seq<Server>, steps': seq<Step>)
    requires IsRun(run, steps, Racy) && Enabled(Last(run), OperatorWrites(req), Racy)
    requires var r := Last(run).requests[req]; var ls := Last(run).loops[r.loop];
      && LoopInv(ls) && OperatorTarget(r.target) && AtWork(Last(run), r.loop)
      && r.stage == ls.row.stage && 0 <= r.iteration < ls.row.iteration
    ensures Extends(run, steps, run', steps') && |steps| < |steps'| && steps'[|steps|] == OperatorWrites(req)
    ensures var id := Last(run).requests[req].loop;
      id in Last(run').loops && PaidItems(Last(run').loops[id].items) > 2 * Last(run').loops[id].row.Cap() + 3
  {
    SoundIsInBudget(Last(run).loops[Last(run).requests[req].loop]);
    run', steps' := OverBudgetBreaksWorkBound(run, steps, req);
  }

  // Such a run from a fresh database: the operator reads at the first review and
  // writes at the second.
  lemma RacingPauseBreaksWorkBound() returns (run: seq<Server>, steps: seq<Step>)
    ensures IsRun(run, steps, Racy)
    ensures 0 in Last(run).loops && PaidItems(Last(run).loops[0].items) > 2 * Last(run).loops[0].row.Cap() + 3
  {
    hide LoopInv, PaidItems, Do, SoundWrite, FlightWrite;
    run, steps := AtSecondReview();
    run, steps := StaleIterationBreaksWorkBound(run, steps, 0);
  }

  lemma AtSecondReview() returns (run: seq<Server>, steps: seq<Step>)
    ensures IsRun(run, steps, Racy) && AtWork(Last(run), 0) && LoopInv(Last(run).loops[0])
    ensures Last(run).loops[0].row.stage == Some(Review) && Last(run).loops[0].row.iteration == 1
    ensures 0 in Last(run).requests && Last(run).requests[0] == OperatorRequest(0, Paused, Some(Review), 0)
  {
    hide LoopInv, PaidItems, SoundWrite, FlightWrite, Project, Start, LoadedLoops, DoCheckInFlight, DoDecideRestore;
    run, steps := Started();
    PlanningIsSound();
    assert AtWork(Last(run), 0) && Left(Last(run).loops[0].row) == 8;
    run, steps := SpendOne(run, steps, 0);
    run, steps := SpendOne(run, steps, 0);
    LeftTells(Last(run).loops[0], 3);
    run, steps := Take(run, steps, OperatorReads(0, 0, Paused));
    run, steps := SpendOne(run, steps, 0);
    run, steps := SpendOne(run, steps, 0);
    LeftTells(Last(run).loops[0], 3);
  }

  lemma PlanningIsSound()
    ensures LoopInv(LoopState(PLANNING, [PLAN])) && forall t :: Configured(PLANNING, t)
  {
    PlanningIsConfigured();
    hide LoopInv, Configured, Start;
    FreshKeeps(FRESH);
    StartsPlanning();
    StartKeeps(LoopState(FRESH, []), AGENT);
  }

  lemma PlanningIsConfigured()
    ensures forall t :: Configured(PLANNING, t)
  {
  }

  // Where a sound loop is, told from how much it has left.
  lemma LeftTells(ls: LoopState, cap: nat)
    requires LoopInv(ls) && ls.row.stage.Some? && ls.row.Cap() == cap == 3
    requires Left(ls.row) % 2 == 0 && Left(ls.row) <= 6
    ensures ls.row.stage == Some(Review) && ls.row.iteration == 3 - Left(ls.row) / 2
  {
  }
}
