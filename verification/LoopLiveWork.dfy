// When a loop has live work: the history behind "a running loop has its item".
module LoopLiveWork {
  import opened Base
  import opened LoopTypes
  import opened LoopPolicy
  import opened LoopInvariant
  import opened LoopServer
  import opened LoopAnyRun
  import opened LoopTheorems
  import opened LoopCluster
  import opened LoopClusterFlight

  // An item was created for the loop.
  ghost predicate Armed(s: Server, s': Server, id: LoopId) {
    id in s.loops && id in s'.loops && |s.loops[id].items| < |s'.loops[id].items|
  }

  // The loop lost an item, or projected an event that the guard stopped, or one
  // that ended it: done, failed, or stopped by a bad configuration.
  ghost predicate LetGo(s: Server, step: Step, s': Server, id: LoopId) {
    || (step.LoseItem? && step.id == id)
    || (step.ProjectEvent? && step.id == id && id in s.loops && id in s'.loops
        && step.item < |s.loops[id].items|
        && (!Applies(s.loops[id].row, s.loops[id].items[step.item].taskType) || s'.loops[id].row.status != Running))
  }

  // In the first k steps, some step let go of the loop's work and no item was
  // created after it.
  ghost predicate Disarmed(run: seq<Server>, steps: seq<Step>, k: nat, id: LoopId)
    requires k < |run| == |steps| + 1
  {
    && 0 < k
    && !Armed(run[k - 1], run[k], id)
    && (LetGo(run[k - 1], steps[k - 1], run[k], id) || Disarmed(run, steps, k - 1, id))
  }

  // What one step does to the live work of a loop that has items afterwards.
  ghost predicate StepOnWork(s: Server, s': Server, id: LoopId, letGo: bool)
    requires id in s.loops && id in s'.loops
  {
    var before, after := LiveItems(s.loops[id].items), LiveItems(s'.loops[id].items);
    && |s.loops[id].items| <= |s'.loops[id].items|
    && (Armed(s, s', id) ==> after == 1)
    && (!Armed(s, s', id) && s'.loops[id].items != [] ==>
          (after == 1 <==> before == 1 && !letGo))
  }

  lemma ProjectionItems(ls: LoopState, i: nat, lookup: Lookup)
    requires IsTerminal(ls, i) && Project(ls, i, lookup).Some?
    ensures var after, kept := Project(ls, i, lookup).value, WithItemReceipted(ls, i);
      if Applies(ls.row, ls.items[i].taskType) && after.row.status == Running
      then exists t :: after.items == kept + [Item(t, ByProjection, InFlight)]
      else after.items == kept
  {
    ProjectIsEffect(ls, i, lookup);
    EffectShape(ls, i, lookup);
    hide Project, EventEffect, WritesOf, ResolveStageAgent, DecideNextStage;
  }

  // A projection uses up the live item; it creates the next exactly if the guard
  // lets the event pass and the loop runs on.
  lemma ProjectionOnWork(ls: LoopState, i: nat, lookup: Lookup)
    requires FlightInv(ls) && IsTerminal(ls, i) && Project(ls, i, lookup).Some?
    ensures var after := Project(ls, i, lookup).value;
      && LiveItems(ls.items) == 1
      && |ls.items| <= |after.items|
      && (|ls.items| < |after.items| <==> Applies(ls.row, ls.items[i].taskType) && after.row.status == Running)
      && LiveItems(after.items) == if |ls.items| < |after.items| then 1 else 0
  {
    hide Project, FlightInv, LiveItems, Applies;
    AtMostOneLive(ls);
    ProjectFlight(ls, i, lookup);
    AtMostOneLive(Project(ls, i, lookup).value);
    ProjectionItems(ls, i, lookup);
  }

  // An ending keeps the live item live until its event is projected; a loss does not.
  lemma EndOnWork(ls: LoopState, i: nat, st: ItemStatus)
    requires FlightInv(ls) && IsInFlight(ls, i) && (st.Terminal? || st.Lost?)
    ensures LiveItems(ls.items) == 1
    ensures LiveItems(SetItemStatus(ls, i, st).items) == if st.Lost? then 0 else 1
  {
    EndFlight(ls, i, st);
    AtMostOneLive(ls);
    AtMostOneLive(SetItemStatus(ls, i, st));
  }

  lemma EnvironmentOnWork(s: Server, step: Step, mode: Mode, id: LoopId)
    requires Inv(s, mode) && Enabled(s, step, mode) && EnvironmentStep(step) && id in s.loops
    ensures id in Do(s, step).loops && StepOnWork(s, Do(s, step), id, LetGo(s, step, Do(s, step), id))
  {
    hide BootInv, LoopInv, FlightInv, LiveItems;
    match step {
      case EndItem(l, i, e) => EndOnWork(s.loops[l], i, Terminal(e));
      case LoseItem(l, i) => EndOnWork(s.loops[l], i, Lost);
    }
  }

  lemma LoopStepOnWork(s: Server, step: Step, mode: Mode, id: LoopId)
    requires Inv(s, mode) && Enabled(s, step, mode) && LoopStep(step) && id in s.loops
    ensures id in Do(s, step).loops && StepOnWork(s, Do(s, step), id, LetGo(s, step, Do(s, step), id))
  {
    hide Steady, LoopInv, FlightInv, Project, Start, LiveItems;
    match step {
      case StartLoop(l, lookup) =>
        StartFlight(s.loops[l], lookup);
        AtMostOneLive(Start(s.loops[l], lookup).value);
        PendingIsEmpty(s.loops[l], lookup);
      case ProjectEvent(l, i, lookup) => ProjectionOnWork(s.loops[l], i, lookup);
      case OperatorReads(_, _, _) =>
      case OperatorWrites(_) =>
    }
  }

  lemma PendingIsEmpty(ls: LoopState, lookup: Lookup)
    requires FlightInv(ls) && Start(ls, lookup).Some?
    ensures ls.items == []
  {
  }

  lemma PhaseStepOnWork(s: Server, step: Step, mode: Mode, id: LoopId)
    requires Inv(s, mode) && Enabled(s, step, mode) && !LoopStep(step) && !EnvironmentStep(step) && id in s.loops
    ensures id in Do(s, step).loops && StepOnWork(s, Do(s, step), id, LetGo(s, step, Do(s, step), id))
  {
    hide BootInv, LoopInv, FlightInv, LiveItems;
    if step.CheckInFlight? || step.CheckPendingEvent? || step.DecideRestore? || step.WriteRestoredRow?
        || step.RestoreFails? {
      RestoreTouchesOnlyItsLoop(s, step, mode);
      hide Do, Enabled;
    }
  }

  lemma StepKeepsWork(s: Server, step: Step, mode: Mode, id: LoopId)
    requires Inv(s, mode) && Enabled(s, step, mode) && id in s.loops
    ensures id in Do(s, step).loops && StepOnWork(s, Do(s, step), id, LetGo(s, step, Do(s, step), id))
  {
    hide Inv, Do, Enabled;
    if EnvironmentStep(step) {
      EnvironmentOnWork(s, step, mode, id);
    } else if LoopStep(step) {
      LoopStepOnWork(s, step, mode, id);
    } else {
      PhaseStepOnWork(s, step, mode, id);
    }
  }

  lemma NewLoopIsEmpty(s: Server, step: Step, mode: Mode, id: LoopId)
    requires Inv(s, mode) && Enabled(s, step, mode) && id !in s.loops && id in Do(s, step).loops
    ensures Do(s, step).loops[id].items == []
  {
    hide BootInv, Sound;
  }

  lemma StageHasItems(run: seq<Server>, steps: seq<Step>, mode: Mode, k: nat, id: LoopId)
    requires IsRun(run, steps, mode) && k < |run| && id in run[k].loops
    ensures run[k].loops[id].row.stage.Some? ==> run[k].loops[id].items != []
  {
    RunKeepsAny(run, steps, mode, k);
  }

  // In every run with flight-safe operator writes: a loop that has ever had an
  // item has exactly one live item if, since its newest item was created, none
  // was lost and no event was projected that the guard stopped or that ended the
  // loop; and only then. In particular every loop that has a stage, running or not.
  lemma {:induction false} LiveWorkIff(run: seq<Server>, steps: seq<Step>, mode: Mode, k: nat, id: LoopId)
    requires IsRun(run, steps, mode) && KeepsFlight(mode) && k < |run| && id in run[k].loops
    ensures run[k].loops[id].row.stage.Some? ==> run[k].loops[id].items != []
    ensures run[k].loops[id].items != [] ==> (LiveItems(run[k].loops[id].items) == 1 <==> !Disarmed(run, steps, k, id))
  {
    hide Inv, Do, Enabled, LetGo;
    StageHasItems(run, steps, mode, k, id);
    RunKeepsInv(run, steps, k, mode);
    if k > 0 {
      var s, step := run[k - 1], steps[k - 1];
      RunKeepsInv(run, steps, k - 1, mode);
      assert Moves(s, step, run[k], mode);
      if id in s.loops {
        LiveWorkIff(run, steps, mode, k - 1, id);
        StepKeepsWork(s, step, mode, id);
      } else {
        NewLoopIsEmpty(s, step, mode, id);
      }
    }
  }

  // ---------- with any number of workers ----------

  // A late commit projects nothing, whatever it does to the row.
  ghost predicate LetGoIn(c: Cluster, step: WorkerStep, c': Cluster, id: LoopId) {
    match step
    case Serve(s) => LetGo(c.server, s, c'.server, id)
    case Commit(w) =>
      && w in c.workers && c.workers[w].Working? && !HasReceipt(c.server, c.workers[w])
      && LetGo(c.server, ProjectEvent(c.workers[w].id, c.workers[w].item, c.workers[w].lookup), c'.server, id)
    case _ => false
  }

  ghost predicate DisarmedIn(run: seq<Cluster>, steps: seq<WorkerStep>, k: nat, id: LoopId)
    requires k < |run| == |steps| + 1
  {
    && 0 < k
    && !Armed(run[k - 1].server, run[k].server, id)
    && (LetGoIn(run[k - 1], steps[k - 1], run[k], id) || DisarmedIn(run, steps, k - 1, id))
  }

  lemma LateCommitOnWork(c: Cluster, w: WorkerId, id: LoopId)
    requires ClusterInv(c) && CanStep(c, Commit(w), Racy) && !SecondItem(c, Commit(w))
    requires HasReceipt(c.server, c.workers[w])
    requires AllSound(c.server, FlightSafe) && id in c.server.loops
    ensures var s' := StepTo(c, Commit(w)).server;
      id in s'.loops && StepOnWork(c.server, s', id, false)
  {
    var tx := c.workers[w];
    CommitIsEffect(c, w);
    AtMostOneLive(c.server.loops[id]);
    AtMostOneLive(c.server.loops[tx.id]);
    SecondEffectLive(c.server.loops[tx.id], tx.item, tx.lookup);
    SecondEffectItems(c.server.loops[tx.id], tx.item, tx.lookup);
    hide AllSound, LiveItems, EventEffect, WritesOf, OpensWork, ClusterInv, CanStep, StepTo;
  }

  lemma CommitOnWork(c: Cluster, w: WorkerId, id: LoopId)
    requires ClusterInv(c) && Inv(c.server, FlightSafe) && CanStep(c, Commit(w), Racy) && !SecondItem(c, Commit(w))
    requires id in c.server.loops
    ensures var c' := StepTo(c, Commit(w));
      id in c'.server.loops && StepOnWork(c.server, c'.server, id, LetGoIn(c, Commit(w), c', id))
  {
    hide Steady, AllSound, StepOnWork, LetGo, ClusterInv;
    var tx := c.workers[w];
    if HasReceipt(c.server, tx) {
      LateCommitOnWork(c, w, id);
    } else {
      CommitIsProjection(c, w);
      StepKeepsWork(c.server, ProjectEvent(tx.id, tx.item, tx.lookup), FlightSafe, id);
    }
  }

  lemma ClusterStepOnWork(c: Cluster, step: WorkerStep, mode: Mode, id: LoopId)
    requires ClusterInv(c) && Inv(c.server, FlightSafe) && KeepsFlight(mode) && id in c.server.loops
    requires CanStep(c, step, mode) && CanStep(c, step, Racy) && !SecondItem(c, step)
    ensures var c' := StepTo(c, step);
      id in c'.server.loops && StepOnWork(c.server, c'.server, id, LetGoIn(c, step, c', id))
  {
    hide Steady, Sound, Do, Enabled, WritesOf, ClusterInv, SecondItem;
    match step {
      case Serve(s) =>
        FlightSafeEnough(c.server, s, mode);
        StepKeepsWork(c.server, s, FlightSafe, id);
      case Commit(w) => CommitOnWork(c, w, id);
      case _ => WorkerStepKeeps(c, step);
    }
  }

  lemma NewLoopIsEmptyInCluster(c: Cluster, step: WorkerStep, mode: Mode, id: LoopId)
    requires ClusterInv(c) && Inv(c.server, FlightSafe) && KeepsFlight(mode)
    requires CanStep(c, step, mode) && CanStep(c, step, Racy)
    requires id !in c.server.loops && id in StepTo(c, step).server.loops
    ensures StepTo(c, step).server.loops[id].items == []
  {
    hide Steady, Sound, Do, Enabled, WritesOf;
    match step {
      case Serve(s) =>
        FlightSafeEnough(c.server, s, mode);
        NewLoopIsEmpty(c.server, s, FlightSafe, id);
      case Commit(_) =>
      case _ => WorkerStepKeeps(c, step);
    }
  }

  lemma StageHasItemsInCluster(run: seq<Cluster>, steps: seq<WorkerStep>, mode: Mode, k: nat, id: LoopId)
    requires IsClusterRun(run, steps, mode) && k < |run| && id in run[k].server.loops
    ensures run[k].server.loops[id].row.stage.Some? ==> run[k].server.loops[id].items != []
  {
    ClusterRunKeepsAny(run, steps, mode, k);
  }

  // The same with any number of workers, rollbacks and late claims, until a late
  // claim opens work beside live work.
  lemma {:induction false} LiveWorkInClusterIff(run: seq<Cluster>, steps: seq<WorkerStep>, mode: Mode,
                                                k: nat, id: LoopId)
    requires IsClusterRun(run, steps, mode) && KeepsFlight(mode) && k < |run| && id in run[k].server.loops
    requires forall j | 0 <= j < k :: !SecondItem(run[j], steps[j])
    ensures var ls := run[k].server.loops[id];
      && (ls.row.stage.Some? ==> ls.items != [])
      && (ls.items != [] ==> (LiveItems(ls.items) == 1 <==> !DisarmedIn(run, steps, k, id)))
  {
    hide ClusterInv, Inv, CanStep, StepTo, SecondItem, LetGoIn;
    StageHasItemsInCluster(run, steps, mode, k, id);
    if k > 0 {
      var c, step := run[k - 1], steps[k - 1];
      FlightUntilSecondItem(run, steps, mode, k - 1);
      assert StepsTo(c, step, run[k], mode);
      ClusterStepKeeps(c, step, mode);
      if id in c.server.loops {
        LiveWorkInClusterIff(run, steps, mode, k - 1, id);
        ClusterStepOnWork(c, step, mode, id);
      } else {
        NewLoopIsEmptyInCluster(c, step, mode, id);
      }
    }
  }
}
