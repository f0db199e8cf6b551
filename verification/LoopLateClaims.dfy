// What a late claim can lead to: where it passes the guard of a loop with live
// work, exactly when the loop gets a second live item; and such a run.
module LoopLateClaims {
  import opened Base
  import opened LoopTypes
  import opened LoopPolicy
  import opened LoopInvariant
  import opened LoopServer
  import opened LoopAnyRun
  import opened LoopRace
  import opened LoopStaleWrites
  import opened LoopCluster
  import opened LoopClusterFlight

  ghost predicate Continues(run: seq<Cluster>, steps: seq<WorkerStep>, run': seq<Cluster>, steps': seq<WorkerStep>,
                            mode: Mode) {
    run <= run' && steps <= steps' && IsClusterRun(run', steps', mode)
  }

  lemma ContinuesOn(r1: seq<Cluster>, s1: seq<WorkerStep>, r2: seq<Cluster>, s2: seq<WorkerStep>,
                    r3: seq<Cluster>, s3: seq<WorkerStep>, mode: Mode)
    requires Continues(r1, s1, r2, s2, mode) && Continues(r2, s2, r3, s3, mode)
    ensures Continues(r1, s1, r3, s3, mode)
  {
  }

  lemma TakeStep(run: seq<Cluster>, steps: seq<WorkerStep>, step: WorkerStep, mode: Mode)
      returns (run': seq<Cluster>, steps': seq<WorkerStep>)
    requires IsClusterRun(run, steps, mode) && CanStep(Last(run), step, mode)
    ensures CanStep(Last(run), step, Racy)
    ensures Continues(run, steps, run', steps', mode) && Last(run') == StepTo(Last(run), step)
  {
    CanStepAnyway(Last(run), step, mode);
    hide CanStep, StepTo;
    run', steps' := run + [StepTo(Last(run), step)], steps + [step];
    forall k | 0 <= k < |steps'|
      ensures StepsTo(run'[k], steps'[k], run'[k + 1], mode)
    {
      if k < |steps| {
        assert StepsTo(run[k], steps[k], run[k + 1], mode);
      }
    }
  }

  lemma CanStepAnyway(c: Cluster, step: WorkerStep, mode: Mode)
    requires CanStep(c, step, mode)
    ensures CanStep(c, step, Racy)
  {
    hide EventWrites;
  }

  // ---------- one worker's transaction ----------

  lemma {:induction false} PerformAll(run: seq<Cluster>, steps: seq<WorkerStep>, w: WorkerId, mode: Mode)
      returns (run': seq<Cluster>, steps': seq<WorkerStep>)
    requires IsClusterRun(run, steps, mode) && w in Last(run).workers && Last(run).workers[w].Working?
    ensures Continues(run, steps, run', steps', mode)
    ensures var tx := Last(run).workers[w];
      Last(run') == Last(run).(workers := Last(run).workers[w := tx.(done := tx.done + tx.todo, todo := [])])
    decreases |Last(run).workers[w].todo|
  {
    var tx := Last(run).workers[w];
    if tx.todo == [] {
      run', steps' := run, steps;
      assert tx.done + tx.todo == tx.done;
      assert Last(run).workers[w := tx] == Last(run).workers;
    } else {
      var r1, s1 := TakeStep(run, steps, PerformWrite(w), mode);
      run', steps' := PerformAll(r1, s1, w, mode);
      ContinuesOn(run, steps, r1, s1, run', steps', mode);
      assert (tx.done + [tx.todo[0]]) + tx.todo[1..] == tx.done + tx.todo;
    }
  }

  // From the row lock to the commit.
  lemma Finish(run: seq<Cluster>, steps: seq<WorkerStep>, w: WorkerId, lookup: Lookup, mode: Mode)
      returns (run': seq<Cluster>, steps': seq<WorkerStep>)
    requires IsClusterRun(run, steps, mode) && CanStep(Last(run), LockRow(w, lookup), mode)
    ensures Continues(run, steps, run', steps', mode) && Last(run').workers == Last(run).workers - {w}
    ensures var tx := Last(run).workers[w];
      var ls := Last(run).server.loops[tx.id];
      Last(run').server == SetLoop(Last(run).server, tx.id, EventEffect(ls, tx.item, lookup))
  {
    hide EventWrites, ExecAll, WithReceipt;
    var tx := Last(run).workers[w];
    var ls := Last(run).server.loops[tx.id];
    var ws := WritesOf(ls, tx.item, lookup).value;
    var r1, s1 := TakeStep(run, steps, LockRow(w, lookup), mode);
    var r2, s2 := PerformAll(r1, s1, w, mode);
    ContinuesOn(run, steps, r1, s1, r2, s2, mode);
    assert [] + ws == ws;
    var r3, s3 := TakeStep(r2, s2, WriteReceipt(w), mode);
    ContinuesOn(run, steps, r2, s2, r3, s3, mode);
    run', steps' := TakeStep(r3, s3, Commit(w), mode);
    ContinuesOn(run, steps, r3, s3, run', steps', mode);
  }

  // ---------- the sequential server's runs ----------

  // One worker's transaction from the snapshot to the commit, with nobody else
  // at work, is the atomic projection.
  lemma ProjectInSteps(run: seq<Cluster>, steps: seq<WorkerStep>, id: LoopId, i: nat, lookup: Lookup, mode: Mode)
      returns (run': seq<Cluster>, steps': seq<WorkerStep>)
    requires IsClusterRun(run, steps, mode) && Last(run).workers == map[]
    requires Enabled(Last(run).server, ProjectEvent(id, i, lookup), mode)
    ensures IsClusterRun(run', steps', mode) && Last(run').workers == map[]
    ensures Enabled(Last(run).server, ProjectEvent(id, i, lookup), Racy)
    ensures Last(run').server == Do(Last(run).server, ProjectEvent(id, i, lookup))
  {
    ProjectIsEffect(Last(run).server.loops[id], i, lookup);
    hide EventEffect, WritesOf, Project, IsClusterRun;
    var r1, s1 := TakeStep(run, steps, TakeSnapshot(0, id, i), mode);
    var r2, s2 := TakeStep(r1, s1, LockEvent(0), mode);
    run', steps' := Finish(r2, s2, 0, lookup, mode);
  }

  lemma ServeAlone(run: seq<Cluster>, steps: seq<WorkerStep>, step: Step, mode: Mode)
      returns (run': seq<Cluster>, steps': seq<WorkerStep>)
    requires IsClusterRun(run, steps, mode) && Last(run).workers == map[]
    requires Enabled(Last(run).server, step, mode) && !step.ProjectEvent?
    ensures IsClusterRun(run', steps', mode) && Last(run').workers == map[]
    ensures Enabled(Last(run).server, step, Racy) && Last(run').server == Do(Last(run).server, step)
  {
    EnabledAnyway(Last(run).server, step, mode);
    hide Enabled, Do;
    run', steps' := TakeStep(run, steps, Serve(step), mode);
  }

  // The cluster can do whatever the sequential server does, at any strength of
  // the operators' guard: each of its projections with one worker.
  lemma {:induction false} ServerRunInCluster(run: seq<Server>, steps: seq<Step>, mode: Mode)
      returns (clustered: seq<Cluster>, clusterSteps: seq<WorkerStep>)
    requires IsRun(run, steps, mode)
    ensures IsClusterRun(clustered, clusterSteps, mode) && Last(clustered) == Cluster(Last(run), map[])
    decreases |steps|
  {
    hide IsClusterRun, Enabled, Do;
    if steps == [] {
      NewClusterRun(run[0], mode);
      clustered, clusterSteps := [Cluster(run[0], map[])], [];
    } else {
      var n := |steps| - 1;
      assert IsRun(run[..n + 1], steps[..n], mode) by { RunPrefix(run, steps, mode); }
      assert Moves(run[n], steps[n], run[n + 1], mode);
      clustered, clusterSteps := ServerRunInCluster(run[..n + 1], steps[..n], mode);
      match steps[n] {
        case ProjectEvent(id, i, lookup) =>
          clustered, clusterSteps := ProjectInSteps(clustered, clusterSteps, id, i, lookup, mode);
        case _ => clustered, clusterSteps := ServeAlone(clustered, clusterSteps, steps[n], mode);
      }
    }
  }

  lemma RunPrefix(run: seq<Server>, steps: seq<Step>, mode: Mode)
    requires IsRun(run, steps, mode) && steps != []
    ensures IsRun(run[..|steps|], steps[..|steps| - 1], mode)
  {
    hide Moves;
    forall k | 0 <= k < |steps| - 1
      ensures Moves(run[..|steps|][k], steps[..|steps| - 1][k], run[..|steps|][k + 1], mode)
    {
      assert Moves(run[k], steps[k], run[k + 1], mode);
    }
  }

  lemma NewClusterRun(s: Server, mode: Mode)
    requires Init(s)
    ensures IsClusterRun([Cluster(s, map[])], [], mode)
  {
  }

  // ---------- a second live item ----------

  // A worker that has locked an event locks the row of a loop with live work.
  // The event is receipted by now, and the loop is at the event's stage again.
  // From then on the worker can go through to a commit, and after it the loop has
  // a second live item exactly if the event's decision opens new work.
  lemma LateClaimBreaksSingleFlight(run: seq<Cluster>, steps: seq<WorkerStep>, w: WorkerId, lookup: Lookup, mode: Mode)
      returns (run': seq<Cluster>, steps': seq<WorkerStep>)
    requires IsClusterRun(run, steps, mode) && CanStep(Last(run), LockRow(w, lookup), mode)
    requires StaleEffect(Last(run), LockRow(w, lookup))
    requires var ls := Last(run).server.loops[Last(run).workers[w].id]; FlightInv(ls) && LiveItems(ls.items) == 1
    ensures Continues(run, steps, run', steps', mode)
    ensures var id, i := Last(run).workers[w].id, Last(run).workers[w].item;
      && id in Last(run').server.loops
      && LiveItems(Last(run').server.loops[id].items)
          == if OpensWork(Last(run).server.loops[id], i, lookup) then 2 else 1
  {
    var id, i := Last(run).workers[w].id, Last(run).workers[w].item;
    var ls := Last(run).server.loops[id];
    hide CanStep, FlightInv, EventEffect, WritesOf, OpensWork;
    run', steps' := Finish(run, steps, w, lookup, mode);
    SecondEffectLive(ls, i, lookup);
  }

  // ---------- from a fresh database ----------

  lemma ServeOn(run: seq<Cluster>, steps: seq<WorkerStep>, step: Step, next: Server)
      returns (run': seq<Cluster>, steps': seq<WorkerStep>)
    requires IsClusterRun(run, steps, Guarded) && CanServe(Last(run), step, Guarded) && !step.Crash?
    requires Enabled(Last(run).server, step, Racy) && Do(Last(run).server, step) == next
    ensures IsClusterRun(run', steps', Guarded) && Last(run') == Cluster(next, Last(run).workers)
  {
    hide Do, Enabled;
    run', steps' := TakeStep(run, steps, Serve(step), Guarded);
  }

  lemma ServingCluster() returns (run: seq<Cluster>, steps: seq<WorkerStep>)
    ensures IsClusterRun(run, steps, Guarded)
    ensures Last(run) == Cluster(Server(map[], [], Serving, map[]), map[])
  {
    var s := Server(map[], [], Down, map[]);
    NewClusterRun(s, Guarded);
    hide Start, Project, IsClusterRun;
    run, steps := ServeOn([Cluster(s, map[])], [], BeginDrain, s.(phase := Draining));
    run, steps := ServeOn(run, steps, LoadActive, s.(phase := Restoring(Boot([], map[], true, 0, LoadedRow, {}))));
    run, steps := ServeOn(run, steps, BeginServing, s.(phase := Serving));
  }

  lemma StartedCluster() returns (run: seq<Cluster>, steps: seq<WorkerStep>)
    ensures IsClusterRun(run, steps, Guarded)
    ensures Last(run) == Cluster(Only(LoopState(PLANNING, [PLAN]), Serving, map[]), map[])
  {
    var empty := LoopState(FRESH, []);
    StartsPlanning();
    Replaced(empty, LoopState(PLANNING, [PLAN]));
    hide Start, Project, IsClusterRun;
    run, steps := ServingCluster();
    run, steps := ServeOn(run, steps, CreateLoop(0, FRESH), Only(empty, Serving, map[]));
    run, steps := ServeOn(run, steps, StartLoop(0, AGENT), Only(LoopState(PLANNING, [PLAN]), Serving, map[]));
  }

  // Nobody holds the loop's row or the event of its newest item.
  ghost predicate Unlocked(c: Cluster, id: LoopId)
    requires id in c.server.loops && c.server.loops[id].items != []
  {
    !RowLocked(c, id) && !EventLocked(c, id, |c.server.loops[id].items| - 1)
  }

  // The newest item has ended with no verdict.
  ghost predicate AtEvent(s: Server, id: LoopId, before: LoopState) {
    s.phase.Serving? && id in s.loops && Busy(before) && s.loops[id] == Ended(before)
  }

  lemma EndLast(run: seq<Cluster>, steps: seq<WorkerStep>, id: LoopId)
      returns (run': seq<Cluster>, steps': seq<WorkerStep>)
    requires IsClusterRun(run, steps, Guarded) && AtWork(Last(run).server, id)
    ensures Continues(run, steps, run', steps', Guarded) && Last(run').workers == Last(run).workers
    ensures AtEvent(Last(run').server, id, Last(run).server.loops[id])
  {
    var ls := Last(run).server.loops[id];
    run', steps' := TakeStep(run, steps, Serve(EndItem(id, |ls.items| - 1, NO_VERDICT)), Guarded);
  }

  lemma ProjectLast(run: seq<Cluster>, steps: seq<WorkerStep>, id: LoopId, before: LoopState, w: WorkerId)
      returns (run': seq<Cluster>, steps': seq<WorkerStep>)
    requires IsClusterRun(run, steps, Guarded) && w !in Last(run).workers
    requires AtEvent(Last(run).server, id, before) && 0 < Left(before.row) && Unlocked(Last(run), id)
    ensures Continues(run, steps, run', steps', Guarded) && Last(run').workers == Last(run).workers
    ensures AtWork(Last(run').server, id) && Advanced(before, Last(run').server.loops[id])
  {
    hide LoopInv, PaidItems, Left, Configured, Project, EventWrites, ExecAll, WithReceipt;
    var i, lookup := |before.items| - 1, Usable(before.row);
    AdvancedBy(before);
    ProjectIsItsWrites(Ended(before), i, lookup);
    var c := Last(run);
    var r1, s1 := TakeStep(run, steps, TakeSnapshot(w, id, i), Guarded);
    var r2, s2 := TakeStep(r1, s1, LockEvent(w), Guarded);
    ContinuesOn(run, steps, r1, s1, r2, s2, Guarded);
    OneMoreClaim(c, w, id, i);
    run', steps' := Finish(r2, s2, w, lookup, Guarded);
    ContinuesOn(run, steps, r2, s2, run', steps', Guarded);
    assert Last(run').workers == c.workers;
  }

  lemma ProjectIsItsWrites(ls: LoopState, i: nat, lookup: Lookup)
    requires IsTerminal(ls, i) && Project(ls, i, lookup).Some?
    ensures WritesOf(ls, i, lookup).Some?
    ensures Project(ls, i, lookup).value
         == WithReceipt(ExecAll(ls, WritesOf(ls, i, lookup).value, ByProjection), i, ls.items[i].status.event)
  {
  }

  lemma OneMoreClaim(c: Cluster, w: WorkerId, id: LoopId, i: nat)
    requires w !in c.workers && !RowLocked(c, id)
    ensures !RowLocked(c.(workers := c.workers[w := Claimed(id, i)]), id)
  {
  }

  // A late claim of an event without a verdict, with the loop at work.
  lemma LateAtWork(c: Cluster, w: WorkerId)
    requires w in c.workers && c.workers[w].Claimed? && !RowLocked(c, c.workers[w].id)
    requires AtWork(c.server, c.workers[w].id) && FlightInv(c.server.loops[c.workers[w].id])
    requires HasReceipt(c.server, c.workers[w]) && PassesGuard(c.server, c.workers[w])
    requires var ls := c.server.loops[c.workers[w].id];
      ls.items[c.workers[w].item].status.event == NO_VERDICT && 0 < Left(ls.row)
    ensures var ls := c.server.loops[c.workers[w].id];
      && CanStep(c, LockRow(w, Usable(ls.row)), Guarded) && StaleEffect(c, LockRow(w, Usable(ls.row)))
      && LiveItems(ls.items) == 1 && OpensWork(ls, c.workers[w].item, Usable(ls.row))
  {
    var ls := c.server.loops[c.workers[w].id];
    NextStage(ls.row);
    AtMostOneLive(ls);
    assert Configured(ls.row, DecideNextStage(ls.row, None).taskType);
  }

  // With every operator write sound: the review's event is claimed late, by a
  // worker that is still to lock the row when the fix is done and the next review
  // is in flight; it opens a further fix round beside that review.
  lemma LateClaimRun() returns (run: seq<Cluster>, steps: seq<WorkerStep>)
    ensures IsClusterRun(run, steps, Guarded)
    ensures 0 in Last(run).server.loops && LiveItems(Last(run).server.loops[0].items) == 2
  {
    hide LoopInv, FlightInv, Configured, LiveItems;
    run, steps := StartedCluster();
    PlanningIsSound();
    var ls := Last(run).server.loops[0];
    run, steps := Round(run, steps, 0, 1);
    run, steps := Round(run, steps, 0, 1);
    ls := Last(run).server.loops[0];
    LeftTells(ls, 3);
    run, steps := EndLast(run, steps, 0);
    run, steps := TakeStep(run, steps, TakeSnapshot(2, 0, 2), Guarded);
    run, steps := ProjectLast(run, steps, 0, ls, 1);
    run, steps := TakeStep(run, steps, LockEvent(2), Guarded);
    run, steps := Round(run, steps, 0, 1);
    ls := Last(run).server.loops[0];
    LeftTells(ls, 3);
    SoundImpliesFlight(ls);
    LateAtWork(Last(run), 2);
    run, steps := LateClaimBreaksSingleFlight(run, steps, 2, Usable(ls.row), Guarded);
  }

  lemma Round(run: seq<Cluster>, steps: seq<WorkerStep>, id: LoopId, w: WorkerId)
      returns (run': seq<Cluster>, steps': seq<WorkerStep>)
    requires IsClusterRun(run, steps, Guarded) && w !in Last(run).workers
    requires AtWork(Last(run).server, id) && 0 < Left(Last(run).server.loops[id].row) && Unlocked(Last(run), id)
    ensures Continues(run, steps, run', steps', Guarded) && Last(run').workers == Last(run).workers
    ensures AtWork(Last(run').server, id) && Advanced(Last(run).server.loops[id], Last(run').server.loops[id])
  {
    hide Advanced;
    var ls := Last(run).server.loops[id];
    var r1, s1 := EndLast(run, steps, id);
    run', steps' := ProjectLast(r1, s1, id, ls, w);
    ContinuesOn(run, steps, r1, s1, run', steps', Guarded);
  }
}
