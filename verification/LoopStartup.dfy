// Startup told by what was loaded and by the steps taken since.
module LoopStartup {
  import opened Base
  import opened LoopTypes
  import opened LoopPolicy
  import opened LoopInvariant
  import opened LoopServer
  import opened LoopTheorems

  // Step j loads the loops, and up to state k they are being restored.
  ghost predicate Startup(run: seq<Server>, steps: seq<Step>, j: nat, k: nat) {
    && |run| == |steps| + 1 && j < k < |run| && steps[j] == LoadActive
    && forall i | j < i <= k :: run[i].phase.Restoring?
  }

  // restoreOne fails for the loop before it has inserted an item, or cannot look
  // up its agent, or an item of it is lost that restoreOne has passed over, or
  // inserted.
  ghost predicate GivesUp(s: Server, step: Step, id: LoopId)
    requires s.phase.Restoring?
  {
    var b := s.phase.boot;
    || (step.RestoreFails? && b.next < |b.loaded| && b.loaded[b.next] == id && !b.pc.ItemInserted?)
    || (step.DecideRestore? && b.next < |b.loaded| && b.loaded[b.next] == id && step.lookup == QueryFailed
        && id in b.rows && b.rows[id].stage.Some? && HasAgentId(b.rows[id], b.rows[id].stage.value))
    || (step.LoseItem? && step.id == id && exists p | 0 <= p < |b.loaded| && b.loaded[p] == id ::
          p < b.next || (p == b.next && b.pc.ItemInserted?))
  }

  ghost predicate Excuses(s: Server, step: Step, s': Server, id: LoopId)
    requires s.phase.Restoring?
  {
    && s'.phase.Restoring?
    && var b, b' := s.phase.boot, s'.phase.boot;
    && b'.loaded == b.loaded && b'.rows == b.rows && b'.complete == b.complete
    && (id in b'.excused <==> id in b.excused || GivesUp(s, step, id))
  }

  lemma DecideExcuses(s: Server, lookup: Lookup, timedOut: bool, id: LoopId)
    requires Steady(s) && Enabled(s, DecideRestore(lookup, timedOut), Racy)
    ensures Excuses(s, DecideRestore(lookup, timedOut), DoDecideRestore(s, lookup, timedOut), id)
  {
    hide Steady, ExecAll, HasAgentId, Unusable, ResolveStageAgent;
    ResolvedIff(HeadRow(s), TaskOf(HeadRow(s).stage.value), lookup);
  }

  lemma CheckExcuses(s: Server, id: LoopId)
    requires Enabled(s, CheckInFlight, Racy)
    ensures Excuses(s, CheckInFlight, DoCheckInFlight(s), id)
  {
    hide HasInFlight, ExecAll, HasAgentId;
  }

  lemma LossExcuses(s: Server, l: LoopId, i: nat, id: LoopId)
    requires Steady(s) && s.phase.Restoring? && Enabled(s, LoseItem(l, i), Racy)
    ensures Excuses(s, LoseItem(l, i), Do(s, LoseItem(l, i)), id)
  {
    hide BootAt, Clean;
    PassedIff(s.phase.boot, l);
  }

  lemma StepExcuses(s: Server, step: Step, id: LoopId)
    requires Steady(s) && Enabled(s, step, Racy) && s.phase.Restoring? && Do(s, step).phase.Restoring?
    ensures Excuses(s, step, Do(s, step), id)
  {
    hide Steady, HasPendingEvent, Start, Project, OperatorWrite, HasAgentId, DoDecideRestore, DoCheckInFlight;
    match step {
      case CheckInFlight => CheckExcuses(s, id);
      case DecideRestore(lookup, timedOut) => DecideExcuses(s, lookup, timedOut, id);
      case LoseItem(l, i) => LossExcuses(s, l, i, id);
      case _ =>
    }
  }

  lemma PassedIff(b: Boot, id: LoopId)
    requires b.next <= |b.loaded|
    ensures b.Passed(id) <==> exists p | 0 <= p < |b.loaded| && b.loaded[p] == id ::
      p < b.next || (p == b.next && b.pc.ItemInserted?)
  {
    if id in b.loaded[..b.next] {
      var p :| 0 <= p < b.next && b.loaded[..b.next][p] == id;
      assert b.loaded[p] == id;
    }
    forall p | 0 <= p < b.next
      ensures b.loaded[p] in b.loaded[..b.next]
    {
      assert b.loaded[..b.next][p] == b.loaded[p];
    }
  }

  // What startup keeps of the load, and whom it has given up on since.
  lemma {:induction false} ExcusedIff(run: seq<Server>, steps: seq<Step>, mode: Mode, j: nat, k: nat, id: LoopId)
    requires IsRun(run, steps, mode) && Startup(run, steps, j, k)
    ensures var b, was := run[k].phase.boot, run[j];
      && b.loaded == LoadedLoops(was.order, was.loops)
      && (b.complete <==> |ActiveLoops(was.order, was.loops)| <= 1000)
      && b.rows == map l | l in b.loaded && l in was.loops :: was.loops[l].row
    ensures id in run[k].phase.boot.excused <==> exists i | j < i < k :: GivesUp(run[i], steps[i], id)
    decreases k
  {
    hide Enabled, Steady, GivesUp, ActiveLoops;
    assert Moves(run[k - 1], steps[k - 1], run[k], mode);
    EnabledAnyway(run[k - 1], steps[k - 1], mode);
    if k - 1 > j {
      ExcusedIff(run, steps, mode, j, k - 1, id);
      RunIsSteady(run, steps, mode, k - 1);
      StepExcuses(run[k - 1], steps[k - 1], id);
    }
    hide Do;
  }

  // Who counts as restored, told by the steps.
  lemma RestoredIff(run: seq<Server>, steps: seq<Step>, mode: Mode, j: nat, k: nat, id: LoopId)
    requires IsRun(run, steps, mode) && Startup(run, steps, j, k)
    ensures var was := run[j]; var loaded := LoadedLoops(was.order, was.loops);
      Restored(run[k], id) <==>
        && run[k].phase.boot.next == |loaded| && (id in loaded || |ActiveLoops(was.order, was.loops)| <= 1000)
        && id in run[k].loops && run[k].loops[id].row.status == Running
        && forall i | j < i < k :: !GivesUp(run[i], steps[i], id)
  {
    hide GivesUp, LoadedLoops, ActiveLoops, IsRun;
    ExcusedIff(run, steps, mode, j, k, id);
  }

  // When the server begins to serve, a loop it loaded that still runs has its
  // loaded row and live work of its stage, whatever operators write, unless
  // startup has given up on it.
  lemma StartupRecovers(run: seq<Server>, steps: seq<Step>, mode: Mode, j: nat, k: nat, id: LoopId)
    requires IsRun(run, steps, mode) && Startup(run, steps, j, k) && k < |steps| && steps[k] == BeginServing
    requires id in LoadedLoops(run[j].order, run[j].loops)
    requires forall i | j < i < k :: !GivesUp(run[i], steps[i], id)
    ensures id in run[j].loops && id in run[k + 1].loops
    ensures var ls := run[k + 1].loops[id];
      ls.row.status == Running ==>
        && ls.row == run[j].loops[id].row && ls.row.stage.Some?
        && exists m | 0 <= m < |ls.items| ::
             && StageOf(ls.items[m].taskType) == ls.row.stage.value
             && (ls.items[m].status.InFlight? || ls.items[m].status.Terminal?)
  {
    hide GivesUp, LoadedLoops, Steady, Restored;
    assert Moves(run[k], steps[k], run[k + 1], mode);
    assert id in run[j].loops && id in run[k].loops by { LoadedStay(run, steps, mode, j, k, id); }
    ExcusedIff(run, steps, mode, j, k, id);
    RestoredIff(run, steps, mode, j, k, id);
    if run[k].loops[id].row.status == Running {
      RecoveryReachesEveryLoop(run, steps, mode, k, id);
    }
  }

  lemma LoadedStay(run: seq<Server>, steps: seq<Step>, mode: Mode, j: nat, k: nat, id: LoopId)
    requires IsRun(run, steps, mode) && Startup(run, steps, j, k) && id in LoadedLoops(run[j].order, run[j].loops)
    ensures id in run[j].loops && id in run[k].loops
  {
    hide LoadedLoops, IsRun;
    RunIsSteady(run, steps, mode, j);
    RunIsSteady(run, steps, mode, k);
    ExcusedIff(run, steps, mode, j, k, id);
    var b := run[k].phase.boot;
    var p :| 0 <= p < |b.loaded| && b.loaded[p] == id;
    assert BootAt(run[k].loops, b, p);
    assert id in b.rows;
  }
}
