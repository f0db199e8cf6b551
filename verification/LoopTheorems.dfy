// Safety of whole runs of the server.
module LoopTheorems {
  import opened Base
  import opened LoopTypes
  import opened LoopPolicy
  import opened LoopInvariant
  import opened LoopRecovery
  import opened LoopServer

  // ---------- runs whose operator writes are permitted ----------

  // In every state reached with writes that respect single flight, every loop
  // has at most one live work item; it is the newest item and of the current
  // stage's type, so apply's guard, which compares types only, cannot pick out
  // an older item of the same type. (Weaker writes may leave no stage.)
  lemma SingleFlightAlways(run: seq<Server>, steps: seq<Step>, mode: Mode, k: nat, id: LoopId)
    requires IsRun(run, steps, mode) && KeepsFlight(mode) && k < |run| && id in run[k].loops
    ensures var ls := run[k].loops[id];
      && LiveItems(ls.items) <= 1
      && forall i | 0 <= i < |ls.items| && ls.items[i].Live() ::
           && i == |ls.items| - 1
           && (ls.row.stage == Some(StageOf(ls.items[i].taskType)) || (mode.FlightSafe? && ls.row.stage.None?))
  {
    RunKeepsInv(run, steps, k, mode);
    AtMostOneLive(run[k].loops[id]);
  }

  // Apart from what startup recovery re-creates, the work of a loop is plan,
  // develop, review, (fix, review)*, in every run.
  lemma WorkFollowsPlan(run: seq<Server>, steps: seq<Step>, k: nat, id: LoopId)
    requires IsRun(run, steps, Guarded) && k < |run| && id in run[k].loops
    ensures FollowsPlan(run[k].loops[id].items)
  {
    RunKeepsInv(run, steps, k, Guarded);
  }

  // Each projection that creates an item lowers Remaining by exactly one and
  // leaves it at or above zero.
  lemma ProjectionSpendsOne(ls: LoopState, i: nat, lookup: Lookup)
    requires ls.row.iteration <= ls.row.Cap() && IsTerminal(ls, i) && Project(ls, i, lookup).Some?
    requires |Project(ls, i, lookup).value.items| > |ls.items|
    ensures var after := Project(ls, i, lookup).value;
      && ls.row.stage.Some? && after.row.stage.Some?
      && Remaining(after.row.stage.value, after.row.iteration, after.row.Cap())
         == Remaining(ls.row.stage.value, ls.row.iteration, ls.row.Cap()) - 1
      && 0 <= Remaining(after.row.stage.value, after.row.iteration, after.row.Cap())
  {
    ProjectIsEffect(ls, i, lookup);
    EffectShape(ls, i, lookup);
    hide Project, EventEffect, WritesOf;
  }

  // Which events can be projected: those of the supported version that either
  // do not concern the current stage, or reject the item, or name its own run,
  // unless the next stage's agent could not be looked up.
  lemma ProjectableIff(ls: LoopState, i: nat, lookup: Lookup)
    requires LoopInv(ls) && IsTerminal(ls, i)
    ensures var e := ls.items[i].status.event;
      var advances := e.kind.Completed? && DecideNextStage(ls.row, e.kind.result).CreateTask?;
      Project(ls, i, lookup).Some? <==>
        && e.version == 1
        && (|| ls.row.status != Running || i != |ls.items| - 1 || ls.row.stage.None?
            || e.kind.Rejected?
            || (e.runUsable && (advances ==>
                  var next := StageOf(DecideNextStage(ls.row, e.kind.result).taskType);
                  !(HasAgentId(ls.row, next) && lookup == QueryFailed))))
  {
    AtMostOneLive(ls);
    var e := ls.items[i].status.event;
    if e.kind.Completed? && DecideNextStage(ls.row, e.kind.result).CreateTask? {
      ResolvedIff(ls.row, DecideNextStage(ls.row, e.kind.result).taskType, lookup);
    }
  }

  // What projecting an event of the current stage does and when, each way round.
  // exhausted: an unapproved review with no fix round left.
  lemma ProjectionOutcomes(ls: LoopState, i: nat, lookup: Lookup)
    requires IsTerminal(ls, i) && Project(ls, i, lookup).Some?
    requires Applies(ls.row, ls.items[i].taskType)
    ensures var e := ls.items[i].status.event; var after := Project(ls, i, lookup).value;
      var approved := e.kind.Completed? && ls.items[i].taskType == LoopReview
                      && e.kind.result.Some? && e.kind.result.value.approved == Some(true);
      var exhausted := e.kind.Completed? && ls.items[i].taskType == LoopReview
                       && !(e.kind.result.Some? && e.kind.result.value.approved == Some(true))
                       && ls.row.iteration >= ls.row.maxIterations;
      && (after.row.status == Done <==> approved)
      && (after.row.status == Failed && after.row.stage.None? <==> e.kind.Rejected? || e.kind.RunFailed? || exhausted)
      && (exhausted ==> after.row.failure == Some(MaxIterations))
      && (e.kind.Rejected? ==> after.row.failure == Some(InvalidConfig))
      && (e.kind.RunFailed? ==> after.row.failure == Some(e.kind.reason))
      && (|after.items| == |ls.items| + 1 <==> after.row.status == Running)
      && (after.row.status == Failed && after.row.stage.Some? ==>
            && after.row.failure == Some(InvalidConfig)
            && after.row.stage == ls.row.stage && after.row.iteration == ls.row.iteration)
      && (after.row.status == Done || after.row.status == Failed || after.row.status == Running)
  {
    var e := ls.items[i].status.event;
    ExecOne(ls, FailWrites(InvalidConfig)[0], ByProjection);
    if e.kind.RunFailed? {
      ExecOne(ls, FailWrites(e.kind.reason)[0], ByProjection);
    } else if e.kind.Completed? {
      var d := DecideNextStage(ls.row, e.kind.result);
      match d {
        case Noop =>
        case Fail(reason) => ExecOne(ls, FailWrites(reason)[0], ByProjection);
        case Complete(_, _, _) => ExecTwo(ls, CompleteWrites(d)[0], CompleteWrites(d)[1], ByProjection);
        case CreateTask(t, bump) =>
          ExecOne(ls, BadConfigWrites(ls.row)[0], ByProjection);
          ExecCreateTask(ls, t, bump, ByProjection);
      }
    }
  }

  function WithOverride(ls: LoopState, s: Stage, id: AgentId): LoopState {
    ls.(row := ls.row.(stageAgents := ls.row.stageAgents[s := id]))
  }

  // Overriding the agent of one stage changes what projecting an event does only
  // if the event opens that stage.
  lemma OverrideIsLocal(ls: LoopState, s: Stage, id: AgentId, i: nat, lookup: Lookup)
    requires IsTerminal(ls, i)
    requires var e := ls.items[i].status.event;
      e.kind.Completed? ==> var d := DecideNextStage(ls.row, e.kind.result); d.CreateTask? ==> StageOf(d.taskType) != s
    ensures Project(WithOverride(ls, s, id), i, lookup) ==
      match Project(ls, i, lookup) case None => None case Some(after) => Some(WithOverride(after, s, id))
  {
    SameWrites(ls, s, id, ls.items[i].taskType, ls.items[i].status.event, lookup);
    hide EventWrites, ExecAll;
    var ws := EventWrites(ls.row, ls.items[i].taskType, ls.items[i].status.event, lookup);
    if ws.Some? {
      OverrideCommutes(ls, s, id, ws.value);
    }
  }

  lemma SameWrites(ls: LoopState, s: Stage, id: AgentId, t: TaskType, e: Event, lookup: Lookup)
    requires e.kind.Completed? ==>
      var d := DecideNextStage(ls.row, e.kind.result); d.CreateTask? ==> StageOf(d.taskType) != s
    ensures EventWrites(WithOverride(ls, s, id).row, t, e, lookup) == EventWrites(ls.row, t, e, lookup)
  {
    if e.kind.Completed? {
      var d := DecideNextStage(ls.row, e.kind.result);
      assert DecideNextStage(WithOverride(ls, s, id).row, e.kind.result) == d;
      assert d.CreateTask? ==>
        ResolveStageAgent(WithOverride(ls, s, id).row, d.taskType, lookup)
          == ResolveStageAgent(ls.row, d.taskType, lookup);
      hide DecideNextStage, ResolveStageAgent;
    }
  }

  lemma {:induction false} OverrideCommutes(ls: LoopState, s: Stage, id: AgentId, ws: seq<Write>)
    ensures ExecAll(WithOverride(ls, s, id), ws, ByProjection) == WithOverride(ExecAll(ls, ws, ByProjection), s, id)
    decreases |ws|
  {
    if ws != [] {
      OverrideCommutes(Exec(ls, ws[0], ByProjection), s, id, ws[1..]);
      assert Exec(WithOverride(ls, s, id), ws[0], ByProjection)
          == WithOverride(Exec(ls, ws[0], ByProjection), s, id);
    }
  }

  // An event of any other stage, or of a loop that does not run, is receipted
  // and nothing else happens: completing while paused leaves no live work.
  lemma SwallowedEventLeavesNoWork(ls: LoopState, i: nat, lookup: Lookup)
    requires FlightInv(ls) && IsTerminal(ls, i) && ls.row.status != Running && Project(ls, i, lookup).Some?
    ensures var after := Project(ls, i, lookup).value;
      && after.row == ls.row
      && LiveItems(after.items) == 0
      && var resumed := OperatorWrite(after, Running, after.row.stage, after.row.iteration);
      && resumed.row.status == Running && LiveItems(resumed.items) == 0
  {
    AtMostOneLive(ls);
    NoneLive(Project(ls, i, lookup).value.items);
  }

  // ---------- startup recovery ----------

  // Whenever the restore loop has gone through its list, every loaded loop that
  // is still running has live work of its stage and the row that was loaded, so
  // the same stage and iteration, unless restoring it reported an error before
  // an item was there, or it lost its item after restoreOne was through with it.
  lemma RestoredLoop(s: Server, id: LoopId)
    requires Steady(s) && Restored(s, id)
    ensures var ls := s.loops[id];
      && ls.row.stage.Some? && HasWork(ls, TaskOf(ls.row.stage.value))
      && id in s.phase.boot.rows && ls.row == s.phase.boot.rows[id]
  {
    var b := s.phase.boot;
    assert id in b.loaded;
    var j :| 0 <= j < |b.loaded| && b.loaded[j] == id;
    assert BootAt(s.loops, b, j);
    hide HasInFlight, HasPendingEvent;
  }

  // That is so in every run, whatever operators write and when.
  lemma RecoveryReachesEveryLoop(run: seq<Server>, steps: seq<Step>, mode: Mode, k: nat, id: LoopId)
    requires IsRun(run, steps, mode) && k < |run| && Restored(run[k], id)
    ensures var ls := run[k].loops[id];
      && ls.row.stage.Some? && HasWork(ls, TaskOf(ls.row.stage.value))
      && id in run[k].phase.boot.rows && ls.row == run[k].phase.boot.rows[id]
  {
    RunIsSteady(run, steps, mode, k);
    RestoredLoop(run[k], id);
  }

  // With writes that respect single flight it has exactly one live item.
  lemma RecoveryIsComplete(run: seq<Server>, steps: seq<Step>, mode: Mode, k: nat, id: LoopId)
    requires IsRun(run, steps, mode) && KeepsFlight(mode) && k < |run| && Restored(run[k], id)
    ensures LiveItems(run[k].loops[id].items) == 1
    ensures id in run[k].phase.boot.rows && run[k].loops[id].row == run[k].phase.boot.rows[id]
  {
    RunKeepsInv(run, steps, k, mode);
    hide Steady, FlightInv, HasInFlight, HasPendingEvent;
    RestoredLoop(run[k], id);
    ChecksSeeEveryLiveItem(run[k].loops[id]);
  }

  // Which loops startup loads: all active ones if and only if there are no more
  // than the query's limit of 1000.
  lemma EveryActiveLoopIsLoadedIff(s: Server)
    requires Ordered(s) && s.phase.Draining?
    ensures var loaded := Do(s, LoadActive).phase.boot.loaded;
      (forall id | id in s.loops && (s.loops[id].row.status == Running || s.loops[id].row.status == Paused) ::
          id in loaded) <==> |ActiveLoops(s.order, s.loops)| <= 1000
  {
    var active := ActiveLoops(s.order, s.loops);
    ActiveLoopsExact(s.order, s.loops);
    if |active| > LOAD_LIMIT {
      var id := active[LOAD_LIMIT];
      assert id in active;
      assert id !in active[..LOAD_LIMIT];
    }
  }

  // And in any case the oldest: in the order they were created, none left out
  // before one that is loaded, and 1000 if some are left out.
  lemma OldestAreLoaded(s: Server, i: nat, j: nat)
    requires Ordered(s) && s.phase.Draining? && i < j < |s.order|
    ensures var loaded := Do(s, LoadActive).phase.boot.loaded; var a, b := s.order[i], s.order[j];
      && (b in loaded ==> Active(s.loops[b].row))
      && (b in loaded && Active(s.loops[a].row) ==>
            exists p, q | 0 <= p < q < |loaded| :: loaded[p] == a && loaded[q] == b)
      && (Active(s.loops[a].row) && a !in loaded ==> |loaded| == 1000)
  {
    var a, b := s.order[i], s.order[j];
    var active := ActiveLoops(s.order, s.loops);
    var loaded := LoadedLoops(s.order, s.loops);
    ActiveLoopsExact(s.order, s.loops);
    assert a in s.order && b in s.order && a in s.loops && b in s.loops;
    if b in loaded && Active(s.loops[a].row) {
      var p, q := ActiveInOrder(s.order, s.loops, i, j);
      var k :| 0 <= k < |loaded| && loaded[k] == b;
      assert active[k] == active[q];
      assert loaded[p] == a && loaded[q] == b;
    }
  }

  lemma {:induction false} ActiveInOrder(order: seq<LoopId>, loops: map<LoopId, LoopState>, i: nat, j: nat)
      returns (p: nat, q: nat)
    requires i < j < |order| && order[i] in loops && order[j] in loops
    requires Active(loops[order[i]].row) && Active(loops[order[j]].row)
    ensures var active := ActiveLoops(order, loops);
      p < q < |active| && active[p] == order[i] && active[q] == order[j]
  {
    var first := if order[0] in loops && Active(loops[order[0]].row) then 1 else 0;
    if i > 0 {
      p, q := ActiveInOrder(order[1..], loops, i - 1, j - 1);
      p, q := p + first, q + first;
    } else {
      q := ActivePosition(order[1..], loops, j - 1);
      p, q := 0, q + 1;
    }
  }

  lemma {:induction false} ActivePosition(order: seq<LoopId>, loops: map<LoopId, LoopState>, j: nat)
      returns (q: nat)
    requires j < |order| && order[j] in loops && Active(loops[order[j]].row)
    ensures q < |ActiveLoops(order, loops)| && ActiveLoops(order, loops)[q] == order[j]
  {
    if j == 0 {
      q := 0;
    } else {
      q := ActivePosition(order[1..], loops, j - 1);
      q := if order[0] in loops && Active(loops[order[0]].row) then q + 1 else q;
    }
  }

  // As Store.CreateLoop left it: nothing done, nothing to show.
  ghost predicate Untouched(ls: LoopState) {
    && ls.items == [] && ls.row.stage == None && ls.row.iteration == 0
    && ls.row.prUrl == None && ls.row.prNumber == None && ls.row.branch == None
    && ls.row.failure == None && !ls.row.started && !ls.row.completed
  }

  lemma RestoreIsNotPending(s: Server, step: Step, id: LoopId)
    requires Steady(s) && Enabled(s, step, Racy) && (step.CheckInFlight? || step.DecideRestore?)
    requires id in Do(s, step).loops && Do(s, step).loops[id].row.status == Pending
    ensures id in s.loops && Do(s, step).loops[id] == s.loops[id]
  {
    hide Steady, BootInv, HasInFlight, HasWork, ExecAll;
    AtHeadFacts(s);
    ExecOne(s.loops[Head(s)], BadConfigWrites(HeadRow(s))[0], ByRestore);
    ExecOne(s.loops[Head(s)], FailWrites(LoopTimeout)[0], ByRestore);
  }

  lemma ProjectedNotPending(ls: LoopState, i: nat, lookup: Lookup)
    requires IsTerminal(ls, i) && Project(ls, i, lookup).Some?
    ensures Project(ls, i, lookup).value.row.status == Pending ==> ls.row.status == Pending
  {
    ProjectIsEffect(ls, i, lookup);
    EffectShape(ls, i, lookup);
    hide EventEffect, WritesOf, Project;
  }

  lemma StepKeepsPending(s: Server, step: Step, id: LoopId)
    requires Steady(s) && Enabled(s, step, Racy) && id in Do(s, step).loops
    requires id in s.loops && s.loops[id].row.status == Pending ==> Untouched(s.loops[id])
    requires Do(s, step).loops[id].row.status == Pending
    ensures Untouched(Do(s, step).loops[id])
  {
    hide Start, Project, DoCheckInFlight, DoDecideRestore, BootInv, EventEffect, WritesOf, Ordered;
    match step {
      case StartLoop(l, lookup) => StartShape(s.loops[l], lookup);
      case ProjectEvent(l, i, lookup) => ProjectedNotPending(s.loops[l], i, lookup);
      case OperatorWrites(req) => assert OperatorTarget(s.requests[req].target);
      case CheckInFlight => RestoreIsNotPending(s, step, id);
      case DecideRestore(_, _) => RestoreIsNotPending(s, step, id);
      case _ =>
    }
  }

  // In every run a loop that has not been started has no work, no pull request
  // and no failure: no operator's write takes a loop back to pending.
  lemma {:induction false} PendingIsUntouched(run: seq<Server>, steps: seq<Step>, mode: Mode, k: nat, id: LoopId)
    requires IsRun(run, steps, mode) && k < |run| && id in run[k].loops && run[k].loops[id].row.status == Pending
    ensures Untouched(run[k].loops[id])
  {
    hide Do, Enabled, Steady, Untouched;
    if k > 0 {
      if id in run[k - 1].loops && run[k - 1].loops[id].row.status == Pending {
        PendingIsUntouched(run, steps, mode, k - 1, id);
      }
      RunIsSteady(run, steps, mode, k - 1);
      assert Moves(run[k - 1], steps[k - 1], run[k], mode);
      EnabledAnyway(run[k - 1], steps[k - 1], mode);
      StepKeepsPending(run[k - 1], steps[k - 1], id);
    }
  }

  // ---------- startup comes to an end ----------

  predicate RestoreStep(step: Step) {
    || step.CheckInFlight? || step.CheckPendingEvent? || step.DecideRestore? || step.WriteRestoredRow?
    || step.RestoreFails?
  }

  // An upper bound on the restore steps still to come: four for each loop, less
  // those taken for the loop it is at.
  function RestoreLeft(b: Boot): int {
    4 * (|b.loaded| - b.next) -
    match b.pc
    case LoadedRow => 0
    case NoTaskInFlight => 1
    case NoEventPending => 2
    case ItemInserted(_) => 3
  }

  lemma HeadIsThere(s: Server)
    requires Steady(s) && s.phase.Restoring?
    ensures var b := s.phase.boot;
      && b.next <= |b.loaded|
      && (b.next < |b.loaded| ==> AtHead(s) && (!b.pc.LoadedRow? ==> HeadRow(s).stage.Some?))
  {
    hide HasInFlight, HasPendingEvent, HasWork, Handled, Clean, Distinct;
    var b := s.phase.boot;
    if b.next < |b.loaded| {
      assert BootAt(s.loops, b, b.next);
    }
  }

  // Whatever restoreOne has found so far, exactly one of its statements is next,
  // and it may fail; after the last loop the server begins to serve.
  lemma RestoreGoesOn(s: Server, lookup: Lookup, timedOut: bool, mode: Mode)
    requires Steady(s) && s.phase.Restoring?
    ensures var b := s.phase.boot; var pc := b.pc; var more := b.next < |b.loaded|;
      && (Enabled(s, BeginServing, mode) <==> !more)
      && (Enabled(s, RestoreFails, mode) <==> more)
      && (Enabled(s, CheckInFlight, mode) <==> more && pc.LoadedRow?)
      && (Enabled(s, CheckPendingEvent, mode) <==> more && pc.NoTaskInFlight?)
      && (Enabled(s, DecideRestore(lookup, timedOut), mode) <==> more && pc.NoEventPending?)
      && (Enabled(s, WriteRestoredRow, mode) <==> more && pc.ItemInserted?)
  {
    hide Steady, Start, Project, Permitted, FreshRow;
    HeadIsThere(s);
  }

  lemma RestoreStepCounts(s: Server, step: Step)
    requires Steady(s) && Enabled(s, step, Racy) && RestoreStep(step)
    ensures Do(s, step).phase.Restoring? && 0 <= RestoreLeft(Do(s, step).phase.boot) < RestoreLeft(s.phase.boot)
  {
    hide Steady, HasInFlight, HasPendingEvent, ExecAll, ResolveStageAgent, UpdateRow;
  }

  lemma OthersCountNothing(s: Server, step: Step)
    requires s.phase.Restoring? && Enabled(s, step, Racy) && !RestoreStep(step) && Do(s, step).phase.Restoring?
    ensures RestoreLeft(Do(s, step).phase.boot) == RestoreLeft(s.phase.boot)
  {
    hide Start, Project, OperatorWrite;
  }

  function RestoreSteps(steps: seq<Step>): nat {
    if steps == [] then 0 else RestoreSteps(steps[..|steps| - 1]) + if RestoreStep(Last(steps)) then 1 else 0
  }

  lemma {:induction false} RestoreStepsSpend(run: seq<Server>, steps: seq<Step>, mode: Mode, j: nat, k: nat)
    requires IsRun(run, steps, mode) && j <= k < |run| && forall i | j <= i <= k :: run[i].phase.Restoring?
    ensures RestoreSteps(steps[j..k]) <= RestoreLeft(run[j].phase.boot) - RestoreLeft(run[k].phase.boot)
    decreases k - j
  {
    hide Enabled, Do, Steady, RestoreLeft, RestoreStep;
    if j < k {
      RestoreStepsSpend(run, steps, mode, j, k - 1);
      RunIsSteady(run, steps, mode, k - 1);
      assert Moves(run[k - 1], steps[k - 1], run[k], mode);
      EnabledAnyway(run[k - 1], steps[k - 1], mode);
      if RestoreStep(steps[k - 1]) {
        RestoreStepCounts(run[k - 1], steps[k - 1]);
      } else {
        OthersCountNothing(run[k - 1], steps[k - 1]);
      }
      assert steps[j..k][..|steps[j..k]| - 1] == steps[j..k - 1] && Last(steps[j..k]) == steps[k - 1];
    }
  }

  // Between loading the loops and serving, startup takes at most four steps for
  // each loop, whatever the environment does and whichever restores fail.
  lemma StartupEnds(run: seq<Server>, steps: seq<Step>, mode: Mode, j: nat, k: nat)
    requires IsRun(run, steps, mode) && j <= k < |run| && forall i | j <= i <= k :: run[i].phase.Restoring?
    ensures RestoreSteps(steps[j..k]) <= 4 * |run[j].phase.boot.loaded|
  {
    hide Enabled, Do, IsRun, BootAt;
    RestoreStepsSpend(run, steps, mode, j, k);
    RunIsSteady(run, steps, mode, k);
    RunIsSteady(run, steps, mode, j);
  }

  // What a restore step may do to the loop it is at: nothing, fail it, or give
  // it its item; it touches no loop that has live work.
  ghost predicate RestoreEffect(ls: LoopState, ls': LoopState) {
    || ls' == ls
    || (ls.row.status == Running && ls'.row.status == Failed && ls'.items == ls.items
        && (LiveItems(ls.items) == 0 || ls.row.stage.None?))
    || (ls.row.status == Running && LiveItems(ls.items) == 0
        && ls'.row == ls.row && |ls'.items| == |ls.items| + 1 && LiveItems(ls'.items) == 1)
  }

  ghost predicate OnlyHeadChanges(s: Server, s': Server) {
    && AtHead(s) && s'.loops.Keys == s.loops.Keys
    && (forall id | id in s.loops && id != Head(s) :: s'.loops[id] == s.loops[id])
    && RestoreEffect(s.loops[Head(s)], s'.loops[Head(s)])
  }

  lemma CheckTouchesOnlyHead(s: Server)
    requires AtHead(s) && AtPc(s.loops[Head(s)], HeadRow(s), LoadedRow, false)
    ensures OnlyHeadChanges(s, DoCheckInFlight(s))
  {
    ExecOne(s.loops[Head(s)], BadConfigWrites(HeadRow(s))[0], ByRestore);
  }

  lemma DecideTouchesOnlyHead(s: Server, lookup: Lookup, timedOut: bool, mode: Mode)
    requires AtHead(s) && Sound(s.loops[Head(s)], mode)
    requires AtPc(s.loops[Head(s)], HeadRow(s), NoEventPending, false)
    ensures OnlyHeadChanges(s, DoDecideRestore(s, lookup, timedOut))
  {
    hide LoopInv, FlightInv, HasInFlight, HasPendingEvent;
    var ls := s.loops[Head(s)];
    NothingLive(ls);
    match RestoreDecision(HeadRow(s), lookup, timedOut) {
      case Error =>
      case Skip =>
      case Write(_) => RestoreDecisionFails(ls, lookup, timedOut, mode);
      case Arm(t) => RestoreInsertSound(ls, t, mode);
    }
  }

  // A restore step changes no loop but the one it is at, and that one only to
  // fail it or to give it its item.
  lemma RestoreTouchesOnlyItsLoop(s: Server, step: Step, mode: Mode)
    requires Inv(s, mode) && Enabled(s, step, mode) && AtHead(s)
    requires step.CheckInFlight? || step.CheckPendingEvent? || step.DecideRestore? || step.WriteRestoredRow?
        || step.RestoreFails?
    ensures OnlyHeadChanges(s, Do(s, step))
  {
    hide Steady, LoopInv, FlightInv, HasInFlight, HasPendingEvent;
    AtHeadFacts(s);
    match step {
      case CheckInFlight => CheckTouchesOnlyHead(s);
      case DecideRestore(lookup, timedOut) => DecideTouchesOnlyHead(s, lookup, timedOut, mode);
      case WriteRestoredRow => WriteRestoredRowKeeps(s);
      case _ =>
    }
  }
}
