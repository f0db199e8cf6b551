// Recovery and single flight with any number of workers.
module LoopClusterFlight {
  import opened Base
  import opened LoopTypes
  import opened LoopPolicy
  import opened LoopInvariant
  import opened LoopRecovery
  import opened LoopServer
  import opened LoopTheorems
  import opened LoopCluster

  // ---------- recovery, whatever operators write and however late a claim ----------

  lemma ClusterStepSteady(c: Cluster, step: WorkerStep)
    requires ClusterInv(c) && Steady(c.server) && CanStep(c, step, Racy)
    ensures Steady(StepTo(c, step).server)
  {
    hide Steady, Do, Enabled, EventEffect, WritesOf, Clean;
    match step {
      case Serve(s) => StepIsSteady(c.server, s);
      case Commit(w) =>
        var tx := c.workers[w];
        CommitIsEffect(c, w);
        SteadyIsClean(c.server, tx.id);
        EffectIsClean(c.server.loops[tx.id], tx.item, tx.lookup);
        SetLoopSteady(c.server, tx.id, EventEffect(c.server.loops[tx.id], tx.item, tx.lookup));
      case _ => WorkerStepKeeps(c, step);
    }
  }

  lemma {:induction false} ClusterIsSteady(run: seq<Cluster>, steps: seq<WorkerStep>, mode: Mode, k: nat)
    requires IsClusterRun(run, steps, mode) && k < |run|
    ensures ClusterInv(run[k]) && Steady(run[k].server)
  {
    hide ClusterInv, BootInv, CanStep, StepTo, Clean;
    ClusterRunKeepsInv(run, steps, mode, k);
    if k > 0 {
      ClusterIsSteady(run, steps, mode, k - 1);
      assert StepsTo(run[k - 1], steps[k - 1], run[k], mode);
      ClusterStepKeeps(run[k - 1], steps[k - 1], mode);
      ClusterStepSteady(run[k - 1], steps[k - 1]);
    }
  }

  lemma RecoveryInCluster(run: seq<Cluster>, steps: seq<WorkerStep>, mode: Mode, k: nat, id: LoopId)
    requires IsClusterRun(run, steps, mode) && k < |run| && Restored(run[k].server, id)
    ensures var s := run[k].server;
      && s.loops[id].row.stage.Some? && HasWork(s.loops[id], TaskOf(s.loops[id].row.stage.value))
      && id in s.phase.boot.rows && s.loops[id].row == s.phase.boot.rows[id]
  {
    ClusterIsSteady(run, steps, mode, k);
    hide Steady, HasWork;
    RestoredLoop(run[k].server, id);
  }

  // ---------- single flight ----------

  // The one thing that breaks it: a commit of an event that has its receipt
  // opens new work in a loop that has live work.
  ghost predicate SecondItem(c: Cluster, step: WorkerStep) {
    && step.Commit? && step.w in c.workers && c.workers[step.w].Working? && HasReceipt(c.server, c.workers[step.w])
    && var tx := c.workers[step.w];
    && OpensWork(c.server.loops[tx.id], tx.item, tx.lookup) && LiveItems(c.server.loops[tx.id].items) == 1
  }

  lemma SecondEffectItems(ls: LoopState, i: nat, lookup: Lookup)
    requires HasEvent(ls, i) && WritesOf(ls, i, lookup).Some? && ls.items[i].status.Receipted?
    ensures var items := EventEffect(ls, i, lookup).items;
      if OpensWork(ls, i, lookup)
      then items == ls.items + [Item(DecideNextStage(ls.row, ls.items[i].status.event.kind.result).taskType,
                                     ByProjection, InFlight)]
      else items == ls.items
  {
    EffectShape(ls, i, lookup);
    assert WithItemReceipted(ls, i) == ls.items;
  }

  lemma SecondEffectLive(ls: LoopState, i: nat, lookup: Lookup)
    requires HasEvent(ls, i) && WritesOf(ls, i, lookup).Some? && ls.items[i].status.Receipted?
    ensures LiveItems(EventEffect(ls, i, lookup).items)
        == LiveItems(ls.items) + if OpensWork(ls, i, lookup) then 1 else 0
  {
    SecondEffectItems(ls, i, lookup);
    hide EventEffect, WritesOf;
    if OpensWork(ls, i, lookup) {
      CountsAfterAppend(ls.items, Last(EventEffect(ls, i, lookup).items));
    }
  }

  lemma SecondEffectFlight(ls: LoopState, i: nat, lookup: Lookup)
    requires FlightInv(ls) && HasEvent(ls, i) && WritesOf(ls, i, lookup).Some? && ls.items[i].status.Receipted?
    requires !(OpensWork(ls, i, lookup) && LiveItems(ls.items) == 1)
    ensures FlightInv(EventEffect(ls, i, lookup))
  {
    EffectShape(ls, i, lookup);
    AtMostOneLive(ls);
    assert WithItemReceipted(ls, i) == ls.items;
    hide EventEffect, WritesOf, LiveItems;
  }

  lemma FlightSafeEnough(s: Server, step: Step, mode: Mode)
    requires KeepsFlight(mode) && AllSound(s, FlightSafe) && Enabled(s, step, mode)
    ensures Enabled(s, step, FlightSafe)
  {
    if step.OperatorWrites? {
      AtMostOneLive(s.loops[s.requests[step.req].loop]);
      hide LiveItems, FixItems;
    }
  }

  lemma CommitKeepsFlight(c: Cluster, w: WorkerId)
    requires ClusterInv(c) && Inv(c.server, FlightSafe) && CanStep(c, Commit(w), Racy) && !SecondItem(c, Commit(w))
    ensures AllSound(StepTo(c, Commit(w)).server, FlightSafe)
  {
    var tx := c.workers[w];
    var ls := c.server.loops[tx.id];
    CommitIsEffect(c, w);
    hide FlightInv, EventEffect, WritesOf, ClusterInv, StepTo, Steady, OpensWork, LiveItems;
    if HasReceipt(c.server, tx) {
      SecondEffectFlight(ls, tx.item, tx.lookup);
    } else {
      EffectIsProjection(ls, tx.item, tx.lookup);
      ProjectFlight(ls, tx.item, tx.lookup);
    }
  }

  lemma EffectIsProjection(ls: LoopState, i: nat, lookup: Lookup)
    requires IsTerminal(ls, i) && WritesOf(ls, i, lookup).Some?
    ensures Project(ls, i, lookup) == Some(EventEffect(ls, i, lookup))
  {
  }

  lemma StepKeepsFlight(c: Cluster, step: WorkerStep, mode: Mode)
    requires ClusterInv(c) && Inv(c.server, FlightSafe) && KeepsFlight(mode)
    requires CanStep(c, step, mode) && CanStep(c, step, Racy) && !SecondItem(c, step)
    ensures Inv(StepTo(c, step).server, FlightSafe)
  {
    ClusterStepSteady(c, step);
    hide Steady, Sound, Do, Enabled, WritesOf;
    match step {
      case Serve(s) =>
        FlightSafeEnough(c.server, s, mode);
        StepKeepsInv(c.server, s, FlightSafe);
      case Commit(w) => CommitKeepsFlight(c, w);
      case _ => WorkerStepKeeps(c, step);
    }
  }

  // Up to the first such commit, the sequential server's invariant holds.
  lemma {:induction false} FlightUntilSecondItem(run: seq<Cluster>, steps: seq<WorkerStep>, mode: Mode, k: nat)
    requires IsClusterRun(run, steps, mode) && KeepsFlight(mode) && k < |run|
    requires forall j | 0 <= j < k :: !SecondItem(run[j], steps[j])
    ensures ClusterInv(run[k]) && Inv(run[k].server, FlightSafe)
  {
    hide ClusterInv, BootInv, CanStep, StepTo, SecondItem, Sound;
    ClusterRunKeepsInv(run, steps, mode, k);
    if k > 0 {
      FlightUntilSecondItem(run, steps, mode, k - 1);
      assert StepsTo(run[k - 1], steps[k - 1], run[k], mode);
      ClusterStepKeeps(run[k - 1], steps[k - 1], mode);
      StepKeepsFlight(run[k - 1], steps[k - 1], mode);
    }
  }

  lemma SecondItemMakesTwo(c: Cluster, step: WorkerStep)
    requires ClusterInv(c) && CanStep(c, step, Racy) && SecondItem(c, step)
    ensures var id := c.workers[step.w].id; var s' := StepTo(c, step).server;
      id in s'.loops && LiveItems(s'.loops[id].items) == 2
  {
    var tx := c.workers[step.w];
    CommitIsEffect(c, step.w);
    SecondEffectLive(c.server.loops[tx.id], tx.item, tx.lookup);
  }

  ghost predicate SingleFlightIn(s: Server) {
    forall id | id in s.loops :: LiveItems(s.loops[id].items) <= 1
  }

  // At most one live item per loop until a late claim opens work beside live work.
  lemma SingleFlightInCluster(run: seq<Cluster>, steps: seq<WorkerStep>, mode: Mode, k: nat, id: LoopId)
    requires IsClusterRun(run, steps, mode) && KeepsFlight(mode) && k < |run| && id in run[k].server.loops
    requires forall j | 0 <= j < k :: !SecondItem(run[j], steps[j])
    ensures LiveItems(run[k].server.loops[id].items) <= 1
    ensures forall i | 0 <= i < |run[k].server.loops[id].items| && run[k].server.loops[id].items[i].Live() ::
        i == |run[k].server.loops[id].items| - 1
  {
    FlightUntilSecondItem(run, steps, mode, k);
    AtMostOneLive(run[k].server.loops[id]);
  }

  // With any workers, rollbacks, crashes and late claims: single flight holds
  // throughout a run with flight-safe writes exactly if no late claim in it opens
  // work beside live work.
  lemma SingleFlightIff(run: seq<Cluster>, steps: seq<WorkerStep>, mode: Mode)
    requires IsClusterRun(run, steps, mode) && KeepsFlight(mode)
    ensures (forall k | 0 <= k < |run| :: SingleFlightIn(run[k].server)) <==>
      forall k | 0 <= k < |steps| :: !SecondItem(run[k], steps[k])
  {
    hide SecondItem, CanStep, StepTo, ClusterInv, KeepsFlight;
    if k :| 0 <= k < |steps| && SecondItem(run[k], steps[k]) {
      ClusterRunKeepsInv(run, steps, mode, k);
      assert StepsTo(run[k], steps[k], run[k + 1], mode);
      ClusterStepKeeps(run[k], steps[k], mode);
      SecondItemMakesTwo(run[k], steps[k]);
      assert !SingleFlightIn(run[k + 1].server);
    } else {
      forall k | 0 <= k < |run|
        ensures SingleFlightIn(run[k].server)
      {
        forall id | id in run[k].server.loops
          ensures LiveItems(run[k].server.loops[id].items) <= 1
        {
          SingleFlightInCluster(run, steps, mode, k, id);
        }
      }
    }
  }

  // Nor can a late commit be such a one if none is past the guard at all.
  lemma GuardedClaimsKeepFlight(run: seq<Cluster>, steps: seq<WorkerStep>)
    requires NoStaleCommit(run, steps)
    ensures forall k | 0 <= k < |steps| :: !SecondItem(run[k], steps[k])
  {
    forall k | 0 <= k < |steps|
      ensures !SecondItem(run[k], steps[k])
    {
      assert !StaleCommit(run[k], steps[k]);
    }
  }

  // Until then a restored loop has exactly one live item.
  lemma RecoveryIsCompleteInCluster(run: seq<Cluster>, steps: seq<WorkerStep>, mode: Mode, k: nat, id: LoopId)
    requires IsClusterRun(run, steps, mode) && KeepsFlight(mode) && k < |run| && Restored(run[k].server, id)
    requires forall j | 0 <= j < k :: !SecondItem(run[j], steps[j])
    ensures LiveItems(run[k].server.loops[id].items) == 1
  {
    FlightUntilSecondItem(run, steps, mode, k);
    RecoveryInCluster(run, steps, mode, k, id);
    hide ClusterInv, Steady, FlightInv, HasInFlight, HasPendingEvent;
    ChecksSeeEveryLiveItem(run[k].server.loops[id]);
  }
}
