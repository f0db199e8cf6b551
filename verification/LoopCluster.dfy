// Any number of projector workers with open transactions, over the server.
module LoopCluster {
  import opened Base
  import opened LoopTypes
  import opened LoopPolicy
  import opened LoopInvariant
  import opened LoopReplay
  import opened LoopServer

  // ProcessNext of server/internal/loop/lifecycle_projector.go is cut at every
  // statement: claim, lock the row, each write, the receipt, commit; a rollback
  // or a crash may come at any point. Uncommitted writes are private. The claim
  // itself is two steps: its snapshot decides that the event has no receipt, and
  // the lock may be had later, when another worker has receipted the event.

  type WorkerId = nat

  // todo and done split the writes the event stands for; acknowledged says
  // whether the receipt has been inserted.
  datatype Tx =
    | Seeking(id: LoopId, item: nat)
    | Claimed(id: LoopId, item: nat)
    | Working(id: LoopId, item: nat, row: LoopRow, lookup: Lookup, done: seq<Write>, todo: seq<Write>,
        acknowledged: bool)

  datatype Cluster = Cluster(server: Server, workers: map<WorkerId, Tx>)

  datatype WorkerStep =
    | Serve(step: Step)
    | TakeSnapshot(w: WorkerId, id: LoopId, item: nat)
    | LockEvent(w: WorkerId)
    | LockRow(w: WorkerId, lookup: Lookup)
    | PerformWrite(w: WorkerId)
    | WriteReceipt(w: WorkerId)
    | Commit(w: WorkerId)
    | Rollback(w: WorkerId)

  // SELECT ... FOR UPDATE holds the loop row until the transaction ends.
  ghost predicate RowLocked(c: Cluster, id: LoopId) {
    exists w | w in c.workers :: c.workers[w].Working? && c.workers[w].id == id
  }

  ghost predicate EventLocked(c: Cluster, id: LoopId, item: nat) {
    exists w | w in c.workers :: !c.workers[w].Seeking? && c.workers[w].id == id && c.workers[w].item == item
  }

  ghost predicate CanServe(c: Cluster, step: Step, mode: Mode) {
    && Enabled(c.server, step, mode)
    && !step.ProjectEvent?
    && (step.StartLoop? ==> !RowLocked(c, step.id))
    && (step.OperatorWrites? ==> !RowLocked(c, c.server.requests[step.req].loop))
    && (step.LoadActive? ==> c.workers == map[])
  }

  ghost predicate CanStep(c: Cluster, step: WorkerStep, mode: Mode) {
    match step
    case Serve(s) => CanServe(c, s, mode)
    case TakeSnapshot(w, id, i) =>
      && (c.server.phase.Serving? || c.server.phase.Draining?)
      && w !in c.workers && id in c.server.loops && IsTerminal(c.server.loops[id], i)
    case LockEvent(w) =>
      w in c.workers && c.workers[w].Seeking? && !EventLocked(c, c.workers[w].id, c.workers[w].item)
    case LockRow(w, lookup) =>
      && w in c.workers && c.workers[w].Claimed? && !RowLocked(c, c.workers[w].id)
      && c.workers[w].id in c.server.loops
      && HasEvent(c.server.loops[c.workers[w].id], c.workers[w].item)
      && WritesOf(c.server.loops[c.workers[w].id], c.workers[w].item, lookup).Some?
    case PerformWrite(w) => w in c.workers && c.workers[w].Working? && c.workers[w].todo != []
    case WriteReceipt(w) => w in c.workers && c.workers[w].Working? && c.workers[w].todo == []
    case Commit(w) =>
      && w in c.workers && c.workers[w].Working? && c.workers[w].acknowledged
      && c.workers[w].id in c.server.loops
      && HasEvent(c.server.loops[c.workers[w].id], c.workers[w].item)
    case Rollback(w) => w in c.workers
  }

  ghost function StepTo(c: Cluster, step: WorkerStep): Cluster
    requires CanStep(c, step, Racy)
  {
    match step
    case Serve(s) => Cluster(Do(c.server, s), if s.Crash? then map[] else c.workers)
    case TakeSnapshot(w, id, i) => c.(workers := c.workers[w := Seeking(id, i)])
    case LockEvent(w) => c.(workers := c.workers[w := Claimed(c.workers[w].id, c.workers[w].item)])
    case LockRow(w, lookup) =>
      var tx := c.workers[w];
      var ls := c.server.loops[tx.id];
      var ws := WritesOf(ls, tx.item, lookup).value;
      c.(workers := c.workers[w := Working(tx.id, tx.item, ls.row, lookup, [], ws, false)])
    case PerformWrite(w) =>
      var tx := c.workers[w];
      c.(workers := c.workers[w := tx.(done := tx.done + [tx.todo[0]], todo := tx.todo[1..])])
    case WriteReceipt(w) => c.(workers := c.workers[w := c.workers[w].(acknowledged := true)])
    case Commit(w) =>
      var tx := c.workers[w];
      var ls := c.server.loops[tx.id];
      var committed := WithReceipt(ExecAll(ls, tx.done, ByProjection), tx.item, ls.items[tx.item].status.event);
      Cluster(SetLoop(c.server, tx.id, committed), c.workers - {w})
    case Rollback(w) => c.(workers := c.workers - {w})
  }

  // The receipt insert of an event that has one does nothing.
  ghost predicate HasReceipt(s: Server, tx: Tx) {
    tx.id in s.loops && HasEvent(s.loops[tx.id], tx.item) && s.loops[tx.id].items[tx.item].status.Receipted?
  }

  // A worker whose claim came too late locks the row of a loop that is back at
  // the event's stage: the guard of apply lets the event through again.
  ghost predicate StaleEffect(c: Cluster, step: WorkerStep) {
    && step.LockRow? && step.w in c.workers && HasReceipt(c.server, c.workers[step.w])
    && PassesGuard(c.server, c.workers[step.w])
  }

  ghost predicate PassesGuard(s: Server, tx: Tx)
    requires tx.id in s.loops && tx.item < |s.loops[tx.id].items|
  {
    Applies(s.loops[tx.id].row, s.loops[tx.id].items[tx.item].taskType)
  }

  // The commit of such a worker.
  ghost predicate StaleCommit(c: Cluster, step: WorkerStep) {
    && step.Commit? && step.w in c.workers && c.workers[step.w].Working? && HasReceipt(c.server, c.workers[step.w])
    && PassesGuard(c.server, c.workers[step.w])
  }

  ghost predicate NoStaleCommit(run: seq<Cluster>, steps: seq<WorkerStep>) {
    |run| == |steps| + 1 && forall k | 0 <= k < |steps| :: !StaleCommit(run[k], steps[k])
  }

  ghost predicate NoStaleEffect(run: seq<Cluster>, steps: seq<WorkerStep>) {
    |run| == |steps| + 1 && forall k | 0 <= k < |steps| :: !StaleEffect(run[k], steps[k])
  }

  ghost predicate StepsTo(c: Cluster, step: WorkerStep, c': Cluster, mode: Mode) {
    CanStep(c, step, mode) && c' == StepTo(c, step)
  }

  ghost predicate IsClusterRun(run: seq<Cluster>, steps: seq<WorkerStep>, mode: Mode) {
    && |run| == |steps| + 1
    && Init(run[0].server) && run[0].workers == map[]
    && forall k | 0 <= k < |steps| :: StepsTo(run[k], steps[k], run[k + 1], mode)
  }

  // ---------- invariant ----------

  ghost predicate TxInv(s: Server, tx: Tx) {
    && (s.phase.Serving? || s.phase.Draining?)
    && tx.id in s.loops && HasEvent(s.loops[tx.id], tx.item)
    && (tx.Working? ==>
          && s.loops[tx.id].row == tx.row
          && WritesOf(s.loops[tx.id], tx.item, tx.lookup) == Some(tx.done + tx.todo)
          && (tx.acknowledged ==> tx.todo == []))
  }

  ghost predicate ClusterInv(c: Cluster) {
    && (forall w | w in c.workers :: TxInv(c.server, c.workers[w]))
    && (forall v, w | v in c.workers && w in c.workers && v != w :: Compatible(c.workers[v], c.workers[w]))
  }

  // Row locks of one event each, and of one loop each.
  ghost predicate Compatible(a: Tx, b: Tx) {
    && (!a.Seeking? && !b.Seeking? ==> a.id != b.id || a.item != b.item)
    && (a.Working? && b.Working? ==> a.id != b.id)
  }

  // ---------- who may go on ----------

  // A worker claims an event without a receipt while the server drains or serves.
  // It gets the lock on the event unless another worker holds that very event,
  // and the row unless another has written to the loop; from then on nothing but
  // its own statements stands between it and its commit. It may be rolled back
  // at any point.
  lemma WorkerMayGoOn(c: Cluster, w: WorkerId, lookup: Lookup, mode: Mode)
    requires ClusterInv(c) && w in c.workers
    ensures var tx := c.workers[w];
      var eventFree := forall v | v in c.workers && !c.workers[v].Seeking? ::
          c.workers[v].id != tx.id || c.workers[v].item != tx.item;
      var rowFree := forall v | v in c.workers && c.workers[v].Working? :: c.workers[v].id != tx.id;
      && (CanStep(c, LockEvent(w), mode) <==> tx.Seeking? && eventFree)
      && (CanStep(c, LockRow(w, lookup), mode) <==>
            tx.Claimed? && rowFree && WritesOf(c.server.loops[tx.id], tx.item, lookup).Some?)
      && (CanStep(c, PerformWrite(w), mode) <==> tx.Working? && tx.todo != [])
      && (CanStep(c, WriteReceipt(w), mode) <==> tx.Working? && tx.todo == [])
      && (CanStep(c, Commit(w), mode) <==> tx.Working? && tx.acknowledged)
      && CanStep(c, Rollback(w), mode)
  {
    hide EventWrites;
    assert TxInv(c.server, c.workers[w]);
  }

  lemma SnapshotIff(c: Cluster, w: WorkerId, id: LoopId, i: nat, mode: Mode)
    ensures CanStep(c, TakeSnapshot(w, id, i), mode) <==>
      && (c.server.phase == Serving || c.server.phase == Draining) && w !in c.workers
      && id in c.server.loops && i < |c.server.loops[id].items| && c.server.loops[id].items[i].status.Terminal?
  {
  }

  // The rest of the server waits for workers only where it needs a row that one
  // of them holds, and before it loads the loops.
  lemma ServerMayGoOn(c: Cluster, step: Step, mode: Mode)
    requires Enabled(c.server, step, mode) && !step.ProjectEvent?
    ensures CanStep(c, Serve(step), mode) <==>
      if step.LoadActive? then c.workers == map[]
      else if step.StartLoop? || step.OperatorWrites? then
        var id := if step.StartLoop? then step.id else c.server.requests[step.req].loop;
        forall v | v in c.workers && c.workers[v].Working? :: c.workers[v].id != id
      else true
  {
    hide Start, Permitted;
  }

  // A transaction that is rolled back leaves nothing, one that commits its loop
  // only, and a crash ends them all.
  lemma TransactionsEnd(c: Cluster, w: WorkerId)
    requires ClusterInv(c) && w in c.workers
    ensures CanStep(c, Rollback(w), Racy) && StepTo(c, Rollback(w)) == Cluster(c.server, c.workers - {w})
    ensures CanStep(c, Serve(Crash), Racy) && StepTo(c, Serve(Crash)).workers == map[]
    ensures StepTo(c, Serve(Crash)).server.loops == c.server.loops
    ensures CanStep(c, Commit(w), Racy) ==> var c' := StepTo(c, Commit(w));
      && c'.workers == c.workers - {w} && c'.server.loops.Keys == c.server.loops.Keys
      && forall id | id in c.server.loops && id != c.workers[w].id :: c'.server.loops[id] == c.server.loops[id]
  {
    hide EventWrites, ExecAll, WithReceipt;
    assert TxInv(c.server, c.workers[w]);
  }

  // What a server step leaves alone while transactions are open: the row of any
  // loop it does not lock, and every terminal item.
  lemma ServeKeepsTx(c: Cluster, step: Step, mode: Mode, tx: Tx)
    requires CanServe(c, step, mode) && TxInv(c.server, tx) && !step.Crash? && !step.LoadActive?
    requires tx.Working? ==> RowLocked(c, tx.id)
    ensures TxInv(Do(c.server, step), tx)
  {
    if step.StartLoop? && step.id == tx.id {
      var ls := c.server.loops[step.id];
      ExecAllAppends(ls, StartWrites(ls.row), ByStart);
    }
  }

  lemma {:induction false} ExecAllAppends(ls: LoopState, ws: seq<Write>, origin: Origin)
    ensures ls.items <= ExecAll(ls, ws, origin).items
    decreases |ws|
  {
    if ws != [] {
      ExecAllAppends(Exec(ls, ws[0], origin), ws[1..], origin);
    }
  }

  lemma ServeKeeps(c: Cluster, step: Step, mode: Mode)
    requires ClusterInv(c) && CanServe(c, step, mode)
    ensures ClusterInv(StepTo(c, Serve(step)))
  {
    if !step.Crash? && !step.LoadActive? {
      forall w | w in c.workers
        ensures TxInv(Do(c.server, step), c.workers[w])
      {
        ServeKeepsTx(c, step, mode, c.workers[w]);
      }
    }
  }

  lemma CommitIsEffect(c: Cluster, w: WorkerId)
    requires ClusterInv(c) && CanStep(c, Commit(w), Racy)
    ensures var tx := c.workers[w];
      && WritesOf(c.server.loops[tx.id], tx.item, tx.lookup).Some?
      && StepTo(c, Commit(w)).server
          == SetLoop(c.server, tx.id, EventEffect(c.server.loops[tx.id], tx.item, tx.lookup))
      && !c.server.phase.Restoring?
  {
    var tx := c.workers[w];
    assert TxInv(c.server, tx);
    assert tx.done + [] == tx.done;
  }

  // The commit of an event without a receipt publishes exactly its atomic projection.
  lemma CommitIsProjection(c: Cluster, w: WorkerId)
    requires ClusterInv(c) && CanStep(c, Commit(w), Racy) && !HasReceipt(c.server, c.workers[w])
    ensures var tx := c.workers[w];
      && Enabled(c.server, ProjectEvent(tx.id, tx.item, tx.lookup), Guarded)
      && StepTo(c, Commit(w)).server == Do(c.server, ProjectEvent(tx.id, tx.item, tx.lookup))
  {
    var tx := c.workers[w];
    assert TxInv(c.server, tx);
    assert tx.done + [] == tx.done;
  }

  // The commit of an event that was receipted after the claim's snapshot changes
  // nothing exactly if the guard stopped the event when the row was locked.
  lemma StaleCommitIff(c: Cluster, w: WorkerId)
    requires ClusterInv(c) && CanStep(c, Commit(w), Racy) && HasReceipt(c.server, c.workers[w])
    ensures var tx := c.workers[w];
      StepTo(c, Commit(w)).server == c.server <==> !Applies(tx.row, c.server.loops[tx.id].items[tx.item].taskType)
  {
    var tx := c.workers[w];
    assert TxInv(c.server, tx);
    assert tx.done + [] == tx.done;
    var ls := c.server.loops[tx.id];
    var e := ls.items[tx.item].status.event;
    ReplayIsNoopIff(ls, ls.items[tx.item].taskType, e, tx.lookup);
    ExecAllAppends(ls, tx.done, ByProjection);
    SameReceipt(ls, ExecAll(ls, tx.done, ByProjection), tx.item, e);
    assert c.server.loops[tx.id := ls] == c.server.loops;
  }

  lemma SameReceipt(ls: LoopState, next: LoopState, i: nat, e: Event)
    requires i < |ls.items| && ls.items <= next.items && ls.items[i].status == ItemStatus.Receipted(e)
    ensures WithReceipt(next, i, e) == next
  {
    assert next.items[i] == ls.items[i];
  }

  lemma CommitKeeps(c: Cluster, w: WorkerId)
    requires ClusterInv(c) && CanStep(c, Commit(w), Racy)
    ensures ClusterInv(StepTo(c, Commit(w)))
  {
    var tx := c.workers[w];
    var ls := c.server.loops[tx.id];
    var c' := StepTo(c, Commit(w));
    ExecAllAppends(ls, tx.done, ByProjection);
    forall v | v in c'.workers
      ensures TxInv(c'.server, c'.workers[v])
    {
      assert Compatible(c.workers[v], tx);
      assert TxInv(c.server, c.workers[v]);
    }
  }

  // A change to one transaction, which stays on its event.
  lemma TxChangeKeeps(c: Cluster, w: WorkerId, tx: Tx)
    requires ClusterInv(c) && w in c.workers && TxInv(c.server, tx)
    requires tx.id == c.workers[w].id && tx.item == c.workers[w].item
    requires tx.Working? && !c.workers[w].Seeking? && (c.workers[w].Working? || !RowLocked(c, tx.id))
    ensures ClusterInv(c.(workers := c.workers[w := tx]))
  {
    hide TxInv;
    forall v | v in c.workers && v != w
      ensures Compatible(c.workers[v], tx) && Compatible(tx, c.workers[v])
    {
      assert Compatible(c.workers[v], c.workers[w]) && Compatible(c.workers[w], c.workers[v]);
    }
  }

  lemma PerformWriteKeeps(c: Cluster, w: WorkerId)
    requires ClusterInv(c) && CanStep(c, PerformWrite(w), Racy)
    ensures ClusterInv(StepTo(c, PerformWrite(w)))
  {
    hide EventWrites, Project;
    var tx := c.workers[w];
    assert TxInv(c.server, tx);
    assert (tx.done + [tx.todo[0]]) + tx.todo[1..] == tx.done + tx.todo;
    TxChangeKeeps(c, w, tx.(done := tx.done + [tx.todo[0]], todo := tx.todo[1..]));
  }

  lemma LockRowKeeps(c: Cluster, w: WorkerId, lookup: Lookup)
    requires ClusterInv(c) && CanStep(c, LockRow(w, lookup), Racy)
    ensures ClusterInv(StepTo(c, LockRow(w, lookup)))
  {
    hide EventWrites, Project;
    var tx := c.workers[w];
    assert TxInv(c.server, tx);
    var ls := c.server.loops[tx.id];
    var ws := WritesOf(ls, tx.item, lookup).value;
    assert [] + ws == ws;
    TxChangeKeeps(c, w, Working(tx.id, tx.item, ls.row, lookup, [], ws, false));
  }

  lemma WorkerStepKeeps(c: Cluster, step: WorkerStep)
    requires ClusterInv(c) && CanStep(c, step, Racy) && !step.Serve? && !step.Commit?
    ensures ClusterInv(StepTo(c, step)) && StepTo(c, step).server == c.server
  {
    hide EventWrites, Do, Enabled;
    match step {
      case PerformWrite(w) => PerformWriteKeeps(c, w);
      case LockRow(w, lookup) => LockRowKeeps(c, w, lookup);
      case WriteReceipt(w) => TxChangeKeeps(c, w, c.workers[w].(acknowledged := true));
      case _ =>
    }
  }

  lemma ClusterStepKeeps(c: Cluster, step: WorkerStep, mode: Mode)
    requires ClusterInv(c) && CanStep(c, step, mode)
    ensures CanStep(c, step, Racy) && ClusterInv(StepTo(c, step))
  {
    match step {
      case Serve(s) => ServeKeeps(c, s, mode);
      case Commit(w) => CommitKeeps(c, w);
      case _ => WorkerStepKeeps(c, step);
    }
  }

  lemma {:induction false} ClusterRunKeepsInv(run: seq<Cluster>, steps: seq<WorkerStep>, mode: Mode, k: nat)
    requires IsClusterRun(run, steps, mode) && k < |run|
    ensures ClusterInv(run[k])
  {
    if k > 0 {
      ClusterRunKeepsInv(run, steps, mode, k - 1);
      assert StepsTo(run[k - 1], steps[k - 1], run[k], mode);
      ClusterStepKeeps(run[k - 1], steps[k - 1], mode);
    }
  }

  // ---------- theorems ----------

  ghost predicate ReceiptedIn(s: Server, id: LoopId, i: nat) {
    id in s.loops && i < |s.loops[id].items| && s.loops[id].items[i].status.Receipted?
  }

  // The transaction's loop change and its event's receipt appear together, and
  // nothing else changes.
  ghost predicate Publishes(s: Server, tx: Tx, s': Server) {
    && tx.Working? && tx.id in s.loops && IsTerminal(s.loops[tx.id], tx.item)
    && var projected := Project(s.loops[tx.id], tx.item, tx.lookup);
    && projected.Some?
    && s' == SetLoop(s, tx.id, projected.value)
    && ReceiptedIn(s', tx.id, tx.item)
    && s'.loops[tx.id].items[tx.item].status.event == s.loops[tx.id].items[tx.item].status.event
  }

  // Before its commit a transaction changes nothing anyone can see. The commit
  // makes the loop's change and the event's receipt visible at once, or, if the
  // event had been receipted since the claim's snapshot, changes nothing exactly
  // if the guard stopped it.
  lemma VisibleWithReceiptOnly(run: seq<Cluster>, steps: seq<WorkerStep>, mode: Mode, k: nat)
    requires IsClusterRun(run, steps, mode) && k < |steps| && !steps[k].Serve?
    ensures !steps[k].Commit? ==> run[k + 1].server == run[k].server
    ensures steps[k].Commit? ==> steps[k].w in run[k].workers && run[k].workers[steps[k].w].Working?
    ensures steps[k].Commit? ==>
      var s, tx, s' := run[k].server, run[k].workers[steps[k].w], run[k + 1].server;
      if HasReceipt(s, tx) then
        s' == s <==> !Applies(tx.row, s.loops[tx.id].items[tx.item].taskType)
      else
        Publishes(s, tx, s')
  {
    ClusterRunKeepsInv(run, steps, mode, k);
    assert StepsTo(run[k], steps[k], run[k + 1], mode);
    if steps[k].Commit? {
      CommitShows(run[k], steps[k].w);
    } else {
      WorkerStepKeeps(run[k], steps[k]);
    }
  }

  lemma CommitShows(c: Cluster, w: WorkerId)
    requires ClusterInv(c) && CanStep(c, Commit(w), Racy)
    ensures var s, tx, s' := c.server, c.workers[w], StepTo(c, Commit(w)).server;
      if HasReceipt(s, tx) then
        s' == s <==> !Applies(tx.row, s.loops[tx.id].items[tx.item].taskType)
      else
        Publishes(s, tx, s')
  {
    var tx := c.workers[w];
    assert TxInv(c.server, tx);
    if HasReceipt(c.server, tx) {
      StaleCommitIff(c, w);
    } else {
      CommitIsProjection(c, w);
      ExecAllAppends(c.server.loops[tx.id], tx.done, ByProjection);
    }
  }

  // ---------- runs without a stale effect ----------

  // Whoever works on an event that has its receipt was stopped by the guard.
  ghost predicate CleanInv(c: Cluster) {
    forall w | w in c.workers && c.workers[w].Working? && HasReceipt(c.server, c.workers[w]) ::
      !PassesGuard(c.server, c.workers[w])
  }

  lemma ServeKeepsClean(c: Cluster, step: Step, mode: Mode, w: WorkerId)
    requires ClusterInv(c) && CanServe(c, step, mode) && !step.Crash? && !step.LoadActive?
    requires w in c.workers && c.workers[w].Working?
    ensures TxInv(Do(c.server, step), c.workers[w])
    ensures HasReceipt(Do(c.server, step), c.workers[w]) ==> HasReceipt(c.server, c.workers[w])
    ensures PassesGuard(Do(c.server, step), c.workers[w]) <==> PassesGuard(c.server, c.workers[w])
  {
    hide LoopInv, FlightInv;
    var tx := c.workers[w];
    assert TxInv(c.server, tx);
    assert RowLocked(c, tx.id);
    ServeKeepsTx(c, step, mode, tx);
  }

  lemma CleanStepKeeps(c: Cluster, step: WorkerStep, mode: Mode)
    requires ClusterInv(c) && CleanInv(c) && CanStep(c, step, mode) && !StaleEffect(c, step)
    ensures CanStep(c, step, Racy) && CleanInv(StepTo(c, step))
  {
    hide EventWrites;
    match step {
      case Serve(s) =>
        if !s.Crash? && !s.LoadActive? {
          forall w | w in c.workers && c.workers[w].Working?
            ensures HasReceipt(Do(c.server, s), c.workers[w]) ==> !PassesGuard(Do(c.server, s), c.workers[w])
          {
            ServeKeepsClean(c, s, mode, w);
          }
        }
      case Commit(w) =>
        forall v | v in c.workers && v != w && c.workers[v].Working?
          ensures c.workers[v].id != c.workers[w].id
        {
          assert Compatible(c.workers[v], c.workers[w]);
        }
      case _ =>
    }
  }

  lemma {:induction false} CleanRunKeeps(run: seq<Cluster>, steps: seq<WorkerStep>, mode: Mode, k: nat)
    requires IsClusterRun(run, steps, mode) && NoStaleEffect(run, steps) && k < |run|
    ensures ClusterInv(run[k]) && CleanInv(run[k])
  {
    hide ClusterInv, CanStep, StepTo, StaleEffect;
    ClusterRunKeepsInv(run, steps, mode, k);
    if k == 0 {
      NobodyIsClean(run[0]);
    } else {
      CleanRunKeeps(run, steps, mode, k - 1);
      assert StepsTo(run[k - 1], steps[k - 1], run[k], mode);
      CleanStepKeeps(run[k - 1], steps[k - 1], mode);
    }
  }

  lemma NobodyIsClean(c: Cluster)
    requires c.workers == map[]
    ensures CleanInv(c)
  {
  }

  // What the row locks decide: with no late claim past the guard there, no late
  // commit is past it.
  lemma NoStaleEffectSuffices(run: seq<Cluster>, steps: seq<WorkerStep>, mode: Mode)
    requires IsClusterRun(run, steps, mode)
    requires forall k | 0 <= k < |steps| && steps[k].LockRow? && steps[k].w in run[k].workers
        && HasReceipt(run[k].server, run[k].workers[steps[k].w]) ::
      var tx := run[k].workers[steps[k].w];
      var ls := run[k].server.loops[tx.id];
      ls.row.status != Running || ls.row.stage != Some(StageOf(ls.items[tx.item].taskType))
    ensures NoStaleCommit(run, steps)
  {
    assert NoStaleEffect(run, steps);
    hide IsClusterRun, ClusterInv, StaleEffect;
    forall k | 0 <= k < |steps|
      ensures !StaleCommit(run[k], steps[k])
    {
      CleanRunKeeps(run, steps, mode, k);
    }
  }

  // ---------- refinement ----------

  // What a cluster step is to the sequential server: nothing, or one step.
  lemma StepRefines(c: Cluster, step: WorkerStep, c': Cluster, mode: Mode) returns (a: Option<Step>)
    requires ClusterInv(c) && !StaleCommit(c, step) && StepsTo(c, step, c', mode)
    ensures a.None? ==> c'.server == c.server
    ensures a.Some? ==> Moves(c.server, a.value, c'.server, mode)
  {
    hide EventWrites;
    match step {
      case Serve(s) => a := Some(s);
      case Commit(w) =>
        var tx := c.workers[w];
        assert TxInv(c.server, tx);
        if HasReceipt(c.server, tx) {
          StaleCommitIff(c, w);
          a := None;
        } else {
          CommitIsProjection(c, w);
          a := Some(ProjectEvent(tx.id, tx.item, tx.lookup));
        }
      case _ =>
        WorkerStepKeeps(c, step);
        a := None;
    }
  }

  // A late commit past the guard is neither nothing nor any step of the
  // sequential server: it moves one loop on and ends no item, receipts no event.
  lemma StaleCommitIsNoStep(c: Cluster, w: WorkerId, step: Step)
    requires ClusterInv(c) && CanStep(c, Commit(w), Racy) && StaleCommit(c, Commit(w))
    requires Enabled(c.server, step, Racy)
    ensures StepTo(c, Commit(w)).server != c.server
    ensures StepTo(c, Commit(w)).server != Do(c.server, step)
  {
    var tx, s := c.workers[w], c.server;
    var ls := s.loops[tx.id];
    assert TxInv(s, tx);
    StaleCommitIff(c, w);
    CommitIsEffect(c, w);
    EffectShape(ls, tx.item, tx.lookup);
    assert WithItemReceipted(ls, tx.item) == ls.items;
    hide CanStep, StepTo, ClusterInv, EventEffect, WritesOf, BootInv;
    var after := EventEffect(ls, tx.item, tx.lookup);
    assert ls.items <= after.items && after != ls && ls.row.status == Running;
    if SetLoop(s, tx.id, after) == Do(s, step) {
      assert Do(s, step).loops == s.loops[tx.id := after];
      assert s.loops[tx.id] == ls;
      NoStepMovesOn(s, step, tx.id, after);
    }
  }

  // Nothing a server step does to a running loop outside startup leaves all its
  // items as they are, except an operator's write, which uses up its request.
  lemma NoStepMovesOn(s: Server, step: Step, id: LoopId, after: LoopState)
    requires Enabled(s, step, Racy) && !s.phase.Restoring? && id in s.loops && s.loops[id].row.status == Running
    requires s.loops[id].items <= after.items && after != s.loops[id]
    ensures Do(s, step) != SetLoop(s, id, after)
  {
    hide Start;
    assert SetLoop(s, id, after).loops[id] == after;
    match step {
      case StartLoop(l, lookup) =>
        StartsPending(s.loops[l], lookup);
        assert Do(s, step).loops[l].row.status == Running;
        assert SetLoop(s, id, after).loops[l] == s.loops[l];
      case ProjectEvent(l, i, lookup) =>
        ReceiptsItem(s.loops[l], i, lookup);
        hide Project;
        assert Do(s, step).loops[l].items[i].status.Receipted?;
        assert SetLoop(s, id, after).loops[l].items[i] == s.loops[l].items[i];
      case EndItem(l, i, e) =>
        assert Do(s, step).loops[l].items[i].status == Terminal(e);
      case LoseItem(l, i) =>
        assert Do(s, step).loops[l].items[i].status == Lost;
      case OperatorWrites(req) =>
        assert req !in Do(s, step).requests && req in s.requests;
      case CreateLoop(l, row) =>
        assert l in Do(s, step).loops && l !in SetLoop(s, id, after).loops;
      case _ =>
    }
  }

  lemma StartsPending(ls: LoopState, lookup: Lookup)
    requires Start(ls, lookup).Some?
    ensures ls.row.status == Pending && Start(ls, lookup).value.row.status == Running
  {
    StartShape(ls, lookup);
  }

  lemma ReceiptsItem(ls: LoopState, i: nat, lookup: Lookup)
    requires IsTerminal(ls, i) && Project(ls, i, lookup).Some?
    ensures i < |Project(ls, i, lookup).value.items| && Project(ls, i, lookup).value.items[i].status.Receipted?
  {
    ExecAllAppends(ls, WritesOf(ls, i, lookup).value, ByProjection);
  }

  ghost predicate Simulated(s: Server, s': Server, mode: Mode) {
    s' == s || exists step :: Moves(s, step, s', mode)
  }

  ghost predicate Follows(run: seq<Cluster>, k: int, mode: Mode)
    requires 0 <= k < |run| - 1
  {
    Simulated(run[k].server, run[k + 1].server, mode)
  }

  // The sequential server can follow a run of the cluster, step by step, exactly
  // if no late commit in it is past the guard.
  lemma RefinesIff(run: seq<Cluster>, steps: seq<WorkerStep>, mode: Mode)
    requires IsClusterRun(run, steps, mode)
    ensures NoStaleCommit(run, steps) <==> forall k | 0 <= k < |steps| :: Follows(run, k, mode)
  {
    hide CanStep, StepTo, ClusterInv, StaleCommit, Simulated;
    forall k | 0 <= k < |steps|
      ensures !StaleCommit(run[k], steps[k]) <==> Follows(run, k, mode)
    {
      ClusterRunKeepsInv(run, steps, mode, k);
      StepSimulatedIff(run[k], steps[k], run[k + 1], mode);
    }
  }

  lemma StepSimulatedIff(c: Cluster, step: WorkerStep, c': Cluster, mode: Mode)
    requires ClusterInv(c) && StepsTo(c, step, c', mode)
    ensures !StaleCommit(c, step) <==> Simulated(c.server, c'.server, mode)
  {
    hide Enabled, Do, EventWrites;
    if !StaleCommit(c, step) {
      var a := StepRefines(c, step, c', mode);
    } else {
      assert TxInv(c.server, c.workers[step.w]);
      StaleCommitIff(c, step.w);
      forall a | Enabled(c.server, a, mode)
        ensures !Moves(c.server, a, c'.server, mode)
      {
        EnabledAnyway(c.server, a, mode);
        StaleCommitIsNoStep(c, step.w, a);
      }
    }
  }

  lemma ClusterPrefix(run: seq<Cluster>, steps: seq<WorkerStep>, mode: Mode)
    requires IsClusterRun(run, steps, mode) && steps != []
    ensures IsClusterRun(run[..|steps|], steps[..|steps| - 1], mode)
    ensures NoStaleCommit(run, steps) ==> NoStaleCommit(run[..|steps|], steps[..|steps| - 1])
  {
    forall k | 0 <= k < |steps| - 1
      ensures StepsTo(run[..|steps|][k], steps[..|steps| - 1][k], run[..|steps|][k + 1], mode)
    {
      assert StepsTo(run[k], steps[k], run[k + 1], mode);
    }
  }

  lemma ExtendRun(run: seq<Server>, steps: seq<Step>, step: Step, next: Server, mode: Mode)
    requires IsRun(run, steps, mode) && Moves(Last(run), step, next, mode)
    ensures IsRun(run + [next], steps + [step], mode)
  {
    hide Moves;
    var run', steps' := run + [next], steps + [step];
    forall k | 0 <= k < |steps'|
      ensures Moves(run'[k], steps'[k], run'[k + 1], mode)
    {
      if k < |steps| {
        assert Moves(run[k], steps[k], run[k + 1], mode);
      }
    }
  }

  lemma FirstState(run: seq<Cluster>, mode: Mode)
    requires IsClusterRun(run, [], mode)
    ensures IsRun([run[0].server], [], mode)
  {
  }

  // Crash refinement: dropping everything but committed states from a run of the
  // cluster in which no late commit is past the guard leaves a run of the
  // sequential server, in which each projection is one atomic step; the other
  // late commits stutter. at[k] is where the k-th cluster state is in that run.
  lemma {:induction false} ClusterRefinesServer(run: seq<Cluster>, steps: seq<WorkerStep>, mode: Mode)
      returns (atomic: seq<Server>, atomicSteps: seq<Step>, at: seq<nat>)
    requires IsClusterRun(run, steps, mode) && NoStaleCommit(run, steps)
    ensures IsRun(atomic, atomicSteps, mode)
    ensures |at| == |run| && at[0] == 0 && Last(at) == |atomic| - 1
    ensures forall k | 0 <= k < |run| :: at[k] < |atomic| && atomic[at[k]] == run[k].server
    ensures forall k | 0 <= k < |steps| :: at[k] <= at[k + 1] <= at[k] + 1
    decreases |steps|
  {
    hide Moves, CanStep, StepTo, ClusterInv, StaleCommit, IsRun;
    if steps == [] {
      FirstState(run, mode);
      atomic, atomicSteps, at := [run[0].server], [], [0];
    } else {
      var n := |steps| - 1;
      ClusterPrefix(run, steps, mode);
      atomic, atomicSteps, at := ClusterRefinesServer(run[..n + 1], steps[..n], mode);
      ClusterRunKeepsInv(run, steps, mode, n);
      assert StepsTo(run[n], steps[n], run[n + 1], mode);
      var a := StepRefines(run[n], steps[n], run[n + 1], mode);
      assert Last(atomic) == run[n].server;
      if a.Some? {
        ExtendRun(atomic, atomicSteps, a.value, run[n + 1].server, mode);
        atomic, atomicSteps := atomic + [run[n + 1].server], atomicSteps + [a.value];
      }
      at := at + [|atomic| - 1];
    }
  }

  // ---------- no event takes effect twice ----------

  lemma ReceiptStays(s: Server, step: Step, mode: Mode, id: LoopId, i: nat)
    requires Enabled(s, step, mode) && ReceiptedIn(s, id, i)
    ensures ReceiptedIn(Do(s, step), id, i)
  {
    match step {
      case StartLoop(l, lookup) => ExecAllAppends(s.loops[l], StartWrites(s.loops[l].row), ByStart);
      case ProjectEvent(l, j, lookup) =>
        ExecAllAppends(s.loops[l], WritesOf(s.loops[l], j, lookup).value, ByProjection);
      case CheckInFlight => ExecAllAppends(s.loops[Head(s)], BadConfigWrites(HeadRow(s)), ByRestore);
      case DecideRestore(_, _) =>
        ExecAllAppends(s.loops[Head(s)], BadConfigWrites(HeadRow(s)), ByRestore);
        ExecAllAppends(s.loops[Head(s)], FailWrites(LoopTimeout), ByRestore);
      case _ =>
    }
  }

  lemma CommitKeepsReceipts(c: Cluster, w: WorkerId, id: LoopId, i: nat)
    requires ClusterInv(c) && CanStep(c, Commit(w), Racy) && ReceiptedIn(c.server, id, i)
    ensures ReceiptedIn(StepTo(c, Commit(w)).server, id, i)
  {
    var tx := c.workers[w];
    assert TxInv(c.server, tx);
    ExecAllAppends(c.server.loops[tx.id], tx.done, ByProjection);
  }

  // A receipt, once committed, is there for good, late claims or not.
  lemma {:induction false} ReceiptStaysForever(run: seq<Cluster>, steps: seq<WorkerStep>, mode: Mode,
                                               a: nat, b: nat, id: LoopId, i: nat)
    requires IsClusterRun(run, steps, mode) && a <= b < |run| && ReceiptedIn(run[a].server, id, i)
    ensures ReceiptedIn(run[b].server, id, i)
    decreases b - a
  {
    hide Do, Enabled, EventWrites;
    if a < b {
      var c, step := run[b - 1], steps[b - 1];
      ReceiptStaysForever(run, steps, mode, a, b - 1, id, i);
      ClusterRunKeepsInv(run, steps, mode, b - 1);
      assert StepsTo(c, step, run[b], mode);
      match step {
        case Serve(s) => ReceiptStays(c.server, s, mode, id, i);
        case Commit(w) => CommitKeepsReceipts(c, w, id, i);
        case _ => WorkerStepKeeps(c, step);
      }
    }
  }

  // Two commits of one event in one run, by whichever workers and across
  // whichever crashes: the second takes effect exactly if, when its worker locked
  // the row, the loop ran and was at the event's stage again.
  lemma SecondCommitIff(run: seq<Cluster>, steps: seq<WorkerStep>, mode: Mode, a: nat, b: nat)
    requires IsClusterRun(run, steps, mode) && a < b < |steps| && steps[a].Commit? && steps[b].Commit?
    requires steps[a].w in run[a].workers && steps[b].w in run[b].workers
    requires run[a].workers[steps[a].w].id == run[b].workers[steps[b].w].id
    requires run[a].workers[steps[a].w].item == run[b].workers[steps[b].w].item
    ensures var s, tx := run[b].server, run[b].workers[steps[b].w];
      && tx.Working? && HasReceipt(s, tx)
      && (run[b + 1].server == s <==> !Applies(tx.row, s.loops[tx.id].items[tx.item].taskType))
  {
    hide ClusterInv, CanStep, StepTo, Publishes;
    var tx := run[a].workers[steps[a].w];
    FirstCommitReceipts(run, steps, mode, a);
    ReceiptStaysForever(run, steps, mode, a + 1, b, tx.id, tx.item);
    VisibleWithReceiptOnly(run, steps, mode, b);
  }

  lemma FirstCommitReceipts(run: seq<Cluster>, steps: seq<WorkerStep>, mode: Mode, a: nat)
    requires IsClusterRun(run, steps, mode) && a < |steps| && steps[a].Commit? && steps[a].w in run[a].workers
    ensures var tx := run[a].workers[steps[a].w]; ReceiptedIn(run[a + 1].server, tx.id, tx.item)
  {
    var tx := run[a].workers[steps[a].w];
    ClusterRunKeepsInv(run, steps, mode, a);
    assert StepsTo(run[a], steps[a], run[a + 1], mode);
    CommitShows(run[a], steps[a].w);
    if HasReceipt(run[a].server, tx) {
      CommitKeepsReceipts(run[a], steps[a].w, tx.id, tx.item);
    }
  }

  // No event takes effect twice: if no late commit is past the guard, of all
  // commits of one event only the first changes anything.
  lemma NoEventTakesEffectTwice(run: seq<Cluster>, steps: seq<WorkerStep>, mode: Mode, a: nat, b: nat)
    requires IsClusterRun(run, steps, mode) && NoStaleCommit(run, steps)
    requires a < b < |steps| && steps[a].Commit? && steps[b].Commit?
    requires steps[a].w in run[a].workers && steps[b].w in run[b].workers
    requires run[a].workers[steps[a].w].id == run[b].workers[steps[b].w].id
    requires run[a].workers[steps[a].w].item == run[b].workers[steps[b].w].item
    ensures run[b + 1].server == run[b].server
  {
    SecondCommitIff(run, steps, mode, a, b);
    ClusterRunKeepsInv(run, steps, mode, b);
    assert TxInv(run[b].server, run[b].workers[steps[b].w]);
  }
}
