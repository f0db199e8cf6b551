// What can happen when, and what becomes of operators' requests over runs.
module LoopRequests {
  import opened Base
  import opened LoopTypes
  import opened LoopPolicy
  import opened LoopInvariant
  import opened LoopServer
  import opened LoopTables

  // ---------- what can happen when ----------

  // Requests are served while the server serves, and events are projected then
  // and while it drains.
  lemma OperationsIff(s: Server, mode: Mode, id: LoopId, i: nat, lookup: Lookup, req: nat, target: Status, row: LoopRow)
    ensures var serving, here := s.phase == Serving, id in s.loops;
      && (Enabled(s, CreateLoop(id, row), mode) <==> serving && !here && FreshRow(row))
      && (Enabled(s, StartLoop(id, lookup), mode) <==>
            && serving && here && s.loops[id].row.status == Pending && HasAgentId(s.loops[id].row, Plan)
            && lookup == Found(s.loops[id].row.workspace, false, true))
      && (Enabled(s, ProjectEvent(id, i, lookup), mode) <==>
            && (serving || s.phase == Draining) && here && i < |s.loops[id].items|
            && s.loops[id].items[i].status.Terminal? && Project(s.loops[id], i, lookup).Some?)
      && (Enabled(s, OperatorReads(req, id, target), mode) <==>
            serving && here && (target == Paused || target == Running || target == Cancelled))
      && (Enabled(s, OperatorWrites(req), Racy) <==> serving && req in s.requests && s.requests[req].loop in s.loops)
  {
    if id in s.loops {
      StartTable(s.loops[id], lookup);
    }
    hide Start, Project, HasAgentId, FreshRow;
  }

  // Items end and are lost in every phase, servers crash in every phase, and
  // startup comes before serving.
  lemma EventsIff(s: Server, mode: Mode, id: LoopId, i: nat, event: Event)
    ensures var running := id in s.loops && i < |s.loops[id].items| && s.loops[id].items[i].status == InFlight;
      && (Enabled(s, EndItem(id, i, event), mode) <==> running)
      && (Enabled(s, LoseItem(id, i), mode) <==> running)
      && Enabled(s, Crash, mode)
      && (Enabled(s, BeginDrain, mode) <==> s.phase == Down)
      && (Enabled(s, LoadActive, mode) <==> s.phase == Draining)
      && (Enabled(s, LoadActiveFails, mode) <==> s.phase == Draining)
  {
    hide Start, Project;
  }

  // A crash and the stages of startup change no loop; requests die with the server.
  lemma PhasesLeaveLoops(s: Server, step: Step)
    requires Enabled(s, step, Racy)
    requires step.Crash? || step.BeginDrain? || step.LoadActive? || step.LoadActiveFails? || step.BeginServing?
    ensures var s' := Do(s, step);
      && s'.loops == s.loops && s'.order == s.order && s'.requests == (if step.Crash? then map[] else s.requests)
      && (match step
          case Crash => s'.phase == Down
          case BeginDrain => s'.phase == Draining
          case LoadActive => s'.phase.Restoring? && s'.phase.boot.next == 0 && s'.phase.boot.excused == {}
          case _ => s'.phase == Serving)
  {
  }

  // ---------- requests over runs ----------

  // Step j read the row for the request, and since then the request was neither
  // read again nor written nor lost in a crash.
  ghost predicate ReadAt(steps: seq<Step>, j: int, k: nat, req: nat)
    requires k <= |steps|
  {
    && 0 <= j < k && steps[j].OperatorReads? && steps[j].req == req
    && forall i | j < i < k :: !Forgets(steps[i], req)
  }

  predicate Forgets(step: Step, req: nat) {
    step == Crash || step == OperatorWrites(req) || (step.OperatorReads? && step.req == req)
  }

  lemma StepOnRequests(s: Server, step: Step, req: nat)
    requires Enabled(s, step, Racy)
    ensures var s' := Do(s, step);
      if step.OperatorReads? && step.req == req then
        && step.id in s.loops && req in s'.requests
        && s'.requests[req] == OperatorRequest(step.id, step.target, s.loops[step.id].row.stage,
                                               s.loops[step.id].row.iteration)
      else if Forgets(step, req) then req !in s'.requests
      else (req in s'.requests <==> req in s.requests)
           && (req in s.requests ==> s'.requests[req] == s.requests[req])
  {
    hide Start, Project, OperatorWrite, DoCheckInFlight, DoDecideRestore;
    if step.CheckInFlight? || step.DecideRestore? {
      RestoreKeepsRequests(s, step);
    }
  }

  lemma RestoreKeepsRequests(s: Server, step: Step)
    requires Enabled(s, step, Racy) && (step.CheckInFlight? || step.DecideRestore?)
    ensures Do(s, step).requests == s.requests
  {
    hide ExecAll, HasInFlight;
  }

  // A request is pending exactly from when it read the row until it writes, or
  // the server crashes, and it holds what it read.
  lemma {:induction false} PendingRequestIff(run: seq<Server>, steps: seq<Step>, mode: Mode, k: nat, req: nat)
    requires IsRun(run, steps, mode) && k < |run|
    ensures req in run[k].requests <==> exists j :: ReadAt(steps, j, k, req)
    ensures forall j | ReadAt(steps, j, k, req) :: var id := steps[j].id;
      && id in run[j].loops && req in run[k].requests
      && run[k].requests[req] == OperatorRequest(id, steps[j].target, run[j].loops[id].row.stage,
                                                 run[j].loops[id].row.iteration)
  {
    hide Enabled, Do;
    if k > 0 {
      PendingRequestIff(run, steps, mode, k - 1, req);
      assert Moves(run[k - 1], steps[k - 1], run[k], mode);
      EnabledAnyway(run[k - 1], steps[k - 1], mode);
      StepOnRequests(run[k - 1], steps[k - 1], req);
      ReadAtNext(steps, k, req);
      if steps[k - 1].OperatorReads? && steps[k - 1].req == req {
        assert ReadAt(steps, k - 1, k, req);
      } else if req in run[k].requests {
        var j :| ReadAt(steps, j, k - 1, req);
        assert ReadAt(steps, j, k, req);
      }
    }
  }

  lemma ReadAtNext(steps: seq<Step>, k: nat, req: nat)
    requires 0 < k <= |steps|
    ensures forall j :: ReadAt(steps, j, k, req) <==>
      || (j == k - 1 && steps[j].OperatorReads? && steps[j].req == req)
      || (ReadAt(steps, j, k - 1, req) && !Forgets(steps[k - 1], req))
  {
    hide Forgets;
  }

  // So an operator's write, however late, puts back the stage and the iteration
  // that its own read found, with its target status, whatever happened between,
  // and touches no other loop.
  lemma WritesWhatItRead(run: seq<Server>, steps: seq<Step>, mode: Mode, k: nat) returns (j: nat)
    requires IsRun(run, steps, mode) && k < |steps| && steps[k].OperatorWrites?
    ensures ReadAt(steps, j, k, steps[k].req)
    ensures var id := steps[j].id;
      && id in run[j].loops && id in run[k].loops
      && run[k + 1].loops == run[k].loops[id := LoopState(
           run[k].loops[id].row.(status := steps[j].target, stage := run[j].loops[id].row.stage,
                                 iteration := run[j].loops[id].row.iteration, failure := None, completed := false),
           run[k].loops[id].items)]
  {
    var req := steps[k].req;
    PendingRequestIff(run, steps, mode, k, req);
    assert Moves(run[k], steps[k], run[k + 1], mode);
    j :| ReadAt(steps, j, k, req);
    var r := run[k].requests[req];
    OperatorTable(run[k].loops[r.loop], r.target, r.stage, r.iteration);
    hide OperatorWrite, Permitted, ReadAt;
  }
}
