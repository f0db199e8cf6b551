// What goes wrong when an operator request races with a projection: the handler
// writes back the stage it read before the projection moved the loop on.
module LoopRace {
  import opened Base
  import opened LoopTypes
  import opened LoopPolicy
  import opened LoopInvariant
  import opened LoopServer

  const AGENT := Found(0, false, true)
  const PLAN_DONE := Event(1, Completed(None), true)
  const PLAN := Item(LoopPlan, ByStart, InFlight)
  const DEVELOP := Item(LoopDevelop, ByProjection, InFlight)
  const FRESH := LoopRow(Pending, None, 0, 3, None, None, None, 0, Some(Id(7)), map[], None, false, false)
  const PLANNING := FRESH.(status := Running, stage := Some(Plan), started := true)

  const PLANNED := [PLAN.(status := Receipted(PLAN_DONE)), DEVELOP]

  function Only(ls: LoopState, phase: Phase, requests: map<nat, OperatorRequest>): Server {
    Server(map[0 := ls], [0], phase, requests)
  }

  lemma Push(run: seq<Server>, steps: seq<Step>, step: Step, next: Server)
      returns (run': seq<Server>, steps': seq<Step>)
    requires IsRun(run, steps, Racy) && Moves(Last(run), step, next, Racy)
    ensures IsRun(run', steps', Racy) && Last(run') == next
    ensures run <= run' && steps' == steps + [step]
  {
    run', steps' := run + [next], steps + [step];
    forall k | 0 <= k < |steps'|
      ensures Moves(run'[k], steps'[k], run'[k + 1], Racy)
    {
      if k < |steps| {
        assert Moves(run[k], steps[k], run[k + 1], Racy);
      }
    }
  }

  lemma Replaced(a: LoopState, b: LoopState)
    ensures map[0 := a][0 := b] == map[0 := b]
  {
  }

  lemma StartsPlanning()
    ensures Start(LoopState(FRESH, []), AGENT) == Some(LoopState(PLANNING, [PLAN]))
  {
    StartShape(LoopState(FRESH, []), AGENT);
    assert [] + [PLAN] == [PLAN];
  }

  // Boot an empty server, create a loop and start it.
  lemma Started() returns (run: seq<Server>, steps: seq<Step>)
    ensures IsRun(run, steps, Racy) && Last(run) == Only(LoopState(PLANNING, [PLAN]), Serving, map[])
  {
    var s := Server(map[], [], Down, map[]);
    var boot := Boot([], map[], true, 0, LoadedRow, {});
    run, steps := [s], [];
    run, steps := Push(run, steps, BeginDrain, s.(phase := Draining));
    run, steps := Push(run, steps, LoadActive, s.(phase := Restoring(boot)));
    run, steps := Push(run, steps, BeginServing, s.(phase := Serving));
    run, steps := Push(run, steps, CreateLoop(0, FRESH), Only(LoopState(FRESH, []), Serving, map[]));
    var ls := LoopState(FRESH, []);
    StartsPlanning();
    Replaced(ls, LoopState(PLANNING, [PLAN]));
    run, steps := Push(run, steps, StartLoop(0, AGENT), Only(LoopState(PLANNING, [PLAN]), Serving, map[]));
  }

  // A pause reads the row, and the plan's event is projected.
  lemma Projected() returns (run: seq<Server>, steps: seq<Step>)
    ensures IsRun(run, steps, Racy)
    ensures Last(run) == Only(LoopState(PLANNING.(stage := Some(Develop)), PLANNED), Serving,
                              map[0 := OperatorRequest(0, Paused, Some(Plan), 0)])
  {
    hide SoundWrite, FlightWrite, LoadedLoops, DoCheckInFlight, DoDecideRestore, Start, IsRun;
    run, steps := Started();
    var pause := map[0 := OperatorRequest(0, Paused, Some(Plan), 0)];
    var ended := LoopState(PLANNING, [PLAN.(status := Terminal(PLAN_DONE))]);
    var developing := LoopState(PLANNING.(stage := Some(Develop)), PLANNED);
    run, steps := Push(run, steps, OperatorReads(0, 0, Paused), Only(LoopState(PLANNING, [PLAN]), Serving, pause));
    assert SetItemStatus(LoopState(PLANNING, [PLAN]), 0, Terminal(PLAN_DONE)) == ended;
    Replaced(LoopState(PLANNING, [PLAN]), ended);
    run, steps := Push(run, steps, EndItem(0, 0, PLAN_DONE), Only(ended, Serving, pause));
    ExecCreateTask(ended, LoopDevelop, 0, ByProjection);
    assert (ended.items + [DEVELOP])[0 := PLAN.(status := Receipted(PLAN_DONE))] == PLANNED;
    assert Project(ended, 0, AGENT) == Some(developing);
    Replaced(ended, developing);
    run, steps := Push(run, steps, ProjectEvent(0, 0, AGENT), Only(developing, Serving, pause));
  }

  // The pause writes, and the loop is resumed.
  lemma Raced() returns (run: seq<Server>, steps: seq<Step>)
    ensures IsRun(run, steps, Racy) && Last(run) == Only(LoopState(PLANNING, PLANNED), Serving, map[])
  {
    hide SoundWrite, FlightWrite, LoadedLoops, DoCheckInFlight, DoDecideRestore, Start, Project, IsRun;
    run, steps := Projected();
    var resume := map[0 := OperatorRequest(0, Running, Some(Plan), 0)];
    var paused := LoopState(PLANNING.(status := Paused), PLANNED);
    run, steps := Push(run, steps, OperatorWrites(0), Only(paused, Serving, map[]));
    run, steps := Push(run, steps, OperatorReads(0, 0, Running), Only(paused, Serving, resume));
    run, steps := Push(run, steps, OperatorWrites(0), Only(LoopState(PLANNING, PLANNED), Serving, map[]));
  }

  lemma Reloaded() returns (run: seq<Server>, steps: seq<Step>)
    ensures IsRun(run, steps, Racy)
    ensures Last(run) == Only(LoopState(PLANNING, PLANNED),
                              Restoring(Boot([0], map[0 := PLANNING], true, 0, LoadedRow, {})), map[])
  {
    hide LoadedLoops, DoCheckInFlight, DoDecideRestore, Start, Project, IsRun;
    run, steps := Raced();
    var ls := LoopState(PLANNING, PLANNED);
    run, steps := Push(run, steps, Crash, Only(ls, Down, map[]));
    run, steps := Push(run, steps, BeginDrain, Only(ls, Draining, map[]));
    LoadsOne(ls);
    run, steps := Push(run, steps, LoadActive,
                       Only(ls, Restoring(Boot([0], map[0 := PLANNING], true, 0, LoadedRow, {})), map[]));
  }

  // The server restarts and startup finds no live item of the plan stage.
  lemma Restarted() returns (run: seq<Server>, steps: seq<Step>)
    ensures IsRun(run, steps, Racy)
    ensures Last(run) == Only(LoopState(PLANNING, PLANNED),
                              Restoring(Boot([0], map[0 := PLANNING], true, 0, NoEventPending, {})), map[])
  {
    hide LoadedLoops, DoDecideRestore, Start, Project, IsRun;
    run, steps := Reloaded();
    var ls, boot := LoopState(PLANNING, PLANNED), Boot([0], map[0 := PLANNING], true, 0, LoadedRow, {});
    run, steps := Push(run, steps, CheckInFlight, Only(ls, Restoring(boot.(pc := NoTaskInFlight)), map[]));
    run, steps := Push(run, steps, CheckPendingEvent, Only(ls, Restoring(boot.(pc := NoEventPending)), map[]));
  }

  lemma LoadsOne(ls: LoopState)
    requires Active(ls.row)
    ensures Do(Only(ls, Draining, map[]), LoadActive)
         == Only(ls, Restoring(Boot([0], map[0 := ls.row], true, 0, LoadedRow, {})), map[])
  {
    assert [0][1..] == [];
    assert ActiveLoops([0], map[0 := ls]) == [0];
    assert Do(Only(ls, Draining, map[]), LoadActive).phase.boot.rows == map[0 := ls.row];
  }

  // The develop item is still in flight, and startup enqueues a second plan item
  // beside it: two live items.
  lemma RacingPauseBreaksSingleFlight() returns (run: seq<Server>, steps: seq<Step>)
    ensures IsRun(run, steps, Racy)
    ensures 0 in Last(run).loops && LiveItems(Last(run).loops[0].items) == 2
  {
    run, steps := Restarted();
    var ls := Last(run).loops[0];
    var boot := Last(run).phase.boot;
    var again := Item(LoopPlan, ByRestore, InFlight);
    var armed := LoopState(PLANNING, ls.items + [again]);
    Replaced(ls, armed);
    run, steps := Push(run, steps, DecideRestore(AGENT, false),
                       Only(armed, Restoring(boot.(pc := ItemInserted(LoopPlan))), map[]));
    assert ls.items == ([] + [ls.items[0]]) + [DEVELOP];
    CountsAfterAppend([], ls.items[0]);
    CountsAfterAppend([] + [ls.items[0]], DEVELOP);
    CountsAfterAppend(ls.items, again);
  }
}
