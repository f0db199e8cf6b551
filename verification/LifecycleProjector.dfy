// server/internal/loop/lifecycle_projector.go.
module LifecycleProjectors {
  import opened Base
  import opened LoopTypes
  import opened LoopPolicy
  import opened LoopInvariant
  import opened LoopRecovery
  import opened LoopServer
  import opened LoopCluster
  import opened LoopStores
  import opened LoopCoordinators

  // Here the statements run without interruption, as do those of the startup
  // sequence of server/cmd/server/loop_coordinator.go; LoopCluster has the
  // interleavings.

  type EventRef = (LoopId, nat)

  ghost function Unreceipted(loops: map<LoopId, LoopState>): set<EventRef> {
    set id, i | id in loops && 0 <= i < |loops[id].items| && loops[id].items[i].status.Terminal? :: (id, i)
  }

  lemma UnreceiptedIff(loops: map<LoopId, LoopState>, id: LoopId, i: nat)
    ensures (id, i) in Unreceipted(loops) <==>
      id in loops && i < |loops[id].items| && loops[id].items[i].status.Terminal?
  {
  }

  ghost predicate ProjectsWith(
    loops: map<LoopId, LoopState>, e: EventRef, lookup: Lookup, loops': map<LoopId, LoopState>)
  {
    && e in Unreceipted(loops)
    && Project(loops[e.0], e.1, lookup).Some?
    && loops' == loops[e.0 := Project(loops[e.0], e.1, lookup).value]
  }

  // A sequence of atomic projections leads from the first store to the last.
  ghost predicate ProjectionChain(
    chain: seq<map<LoopId, LoopState>>, events: seq<EventRef>, lookups: nat -> Lookup)
  {
    && |chain| == |events| + 1
    && forall k | 0 <= k < |events| :: ProjectsWith(chain[k], events[k], lookups(k), chain[k + 1])
  }

  lemma ProjectionReceipts(loops: map<LoopId, LoopState>, e: EventRef, lookup: Lookup, loops': map<LoopId, LoopState>)
    requires ProjectsWith(loops, e, lookup, loops')
    ensures Unreceipted(loops') == Unreceipted(loops) - {e}
  {
    var ls, ls' := loops[e.0], loops'[e.0];
    var ws := WritesOf(ls, e.1, lookup).value;
    ExecAllAppends(ls, ws, ByProjection);
    AppendedInFlight(ls, ws, ByProjection);
    assert forall i | 0 <= i < |ls'.items| :: ls'.items[i].status.Terminal? <==>
      i < |ls.items| && i != e.1 && ls.items[i].status.Terminal?;
    forall x | x in Unreceipted(loops) - {e}
      ensures x in Unreceipted(loops')
    {
      assert loops'[x.0].items[x.1].status.Terminal?;
    }
  }

  lemma {:induction false} AppendedInFlight(ls: LoopState, ws: seq<Write>, origin: Origin)
    ensures |ls.items| <= |ExecAll(ls, ws, origin).items|
    ensures forall i | |ls.items| <= i < |ExecAll(ls, ws, origin).items| ::
        ExecAll(ls, ws, origin).items[i].status.InFlight?
    ensures forall i | 0 <= i < |ls.items| :: ExecAll(ls, ws, origin).items[i] == ls.items[i]
    decreases |ws|
  {
    if ws != [] {
      AppendedInFlight(Exec(ls, ws[0], origin), ws[1..], origin);
    }
  }

  // The statement itself fails.
  predicate WriteFails(w: Write, fault: Fault) {
    match w
    case InsertItem(_) => fault.InsertFails?
    case UpdateLoop(_) => fault.RowWriteFails?
    case RecordPr(_, _, _) => fault.PrWriteFails?
  }

  // The event cannot be applied: its row cannot be read, or it stands for no
  // writes, or one of those it stands for fails.
  predicate ApplyFails(ls: LoopState, i: nat, lookup: Lookup, fault: Fault)
    requires HasEvent(ls, i)
  {
    || fault.ReadFails? || WritesOf(ls, i, lookup).None?
    || exists w | w in WritesOf(ls, i, lookup).value :: WriteFails(w, fault)
  }

  predicate CannotApply(loops: map<LoopId, LoopState>, e: EventRef, lookup: Lookup, fault: Fault) {
    e.0 in loops && HasEvent(loops[e.0], e.1) && ApplyFails(loops[e.0], e.1, lookup, fault)
  }

  lemma DecisionFailsIff(l: LoopRow, d: Decision, lookup: Lookup, fault: Fault)
    ensures var ws := DecisionWrites(l, d, lookup);
      DecisionFails(l, d, lookup, fault) <==> ws.None? || exists w | w in ws.value :: WriteFails(w, fault)
  {
    if DecisionWrites(l, d, lookup).Some? {
      var ws := DecisionWrites(l, d, lookup).value;
      assert forall k | 0 <= k < |ws| :: ws[k] in ws;
      assert |ws| > 0 ==> ws[0] in ws;
      assert |ws| > 1 ==> ws[1] in ws;
    }
    hide ResolveStageAgent;
  }

  // An event that is turned down, or that the guard stops, or that is decided on.
  lemma ApplyCases(ls: LoopState, i: nat, lookup: Lookup, fault: Fault)
    requires HasEvent(ls, i)
    ensures var e := ls.items[i].status.event;
      if e.version != 1 || fault.ReadFails? then ApplyFails(ls, i, lookup, fault)
      else if !Applies(ls.row, ls.items[i].taskType) then
        !ApplyFails(ls, i, lookup, fault) && ExecAll(ls, WritesOf(ls, i, lookup).value, ByProjection) == ls
      else if !e.kind.Rejected? && !e.runUsable then ApplyFails(ls, i, lookup, fault)
      else var d := DecisionOn(ls.row, e.kind);
        && WritesOf(ls, i, lookup) == DecisionWrites(ls.row, d, lookup)
        && (ApplyFails(ls, i, lookup, fault) <==> DecisionFails(ls.row, d, lookup, fault))
  {
    DecisionFailsIff(ls.row, DecisionOn(ls.row, ls.items[i].status.event.kind), lookup, fault);
    hide DecisionFails, DecisionWrites, DecideNextStage, WriteFails;
  }

  function DecisionOn(row: LoopRow, kind: EventKind): Decision {
    match kind
    case Rejected => Decision.Fail(InvalidConfig)
    case Completed(result) => DecideNextStage(row, result)
    case RunFailed(reason) => Decision.Fail(reason)
  }

  lemma NothingLeft(a: set<EventRef>, b: set<EventRef>)
    ensures a - b == {} ==> a <= b
  {
    if a - b == {} {
      forall x | x in a
        ensures x in b
      {
        assert x !in a - b;
      }
    }
  }

  class LifecycleProjector {
    const db: LoopStore
    // Events whose last projection failed and whose retry time has not come.
    var backingOff: set<EventRef>

    // When each event was created, ties broken by its id.
    const rank: EventRef -> nat

    constructor (db: LoopStore, rank: EventRef -> nat)
      ensures this.db == db && this.rank == rank && backingOff == {}
    {
      this.db, this.rank, backingOff := db, rank, {};
    }

    // The oldest event with no receipt whose delivery is due, if there is one.
    method ClaimEvent() returns (e: Option<EventRef>)
      requires forall id :: id in db.loops <==> id in db.order
      ensures e.Some? ==> e.value in Unreceipted(db.loops) - backingOff
      ensures e.Some? ==> forall x | x in Unreceipted(db.loops) - backingOff :: rank(e.value) <= rank(x)
      ensures e.None? ==> Unreceipted(db.loops) <= backingOff
      ensures e.None? ==> forall id, i: nat | id in db.loops && i < |db.loops[id].items| ::
          db.loops[id].items[i].status.Terminal? ==> (id, i) in backingOff
    {
      e := None;
      ghost var due := Unreceipted(db.loops) - backingOff;
      for k := 0 to |db.order|
        invariant Best(e, set x | x in due && x.0 in db.order[..k])
      {
        e := OldestOf(db.order[k], e, due, set x | x in due && x.0 in db.order[..k]);
        assert (set x | x in due && x.0 in db.order[..k + 1])
            == (set x | x in due && x.0 in db.order[..k]) + (set x | x in due && x.0 == db.order[k]);
      }
      assert (set x | x in due && x.0 in db.order[..|db.order|]) == due;
      NothingLeft(Unreceipted(db.loops), backingOff);
    }

    // The oldest of the best so far and the due events of one loop.
    method OldestOf(id: LoopId, best: Option<EventRef>, ghost due: set<EventRef>, ghost seen: set<EventRef>)
        returns (e: Option<EventRef>)
      requires id in db.loops && due == Unreceipted(db.loops) - backingOff && Best(best, seen)
      ensures Best(e, seen + set x | x in due && x.0 == id)
    {
      e := best;
      var items := db.loops[id].items;
      for i := 0 to |items|
        invariant Best(e, seen + set x | x in due && x.0 == id && x.1 < i)
      {
        var x := (id, i);
        ghost var upTo := seen + set y | y in due && y.0 == id && y.1 < i;
        assert x in due <==> items[i].status.Terminal? && x !in backingOff;
        assert (seen + set y | y in due && y.0 == id && y.1 < i + 1) == if x in due then upTo + {x} else upTo;
        if items[i].status.Terminal? && x !in backingOff && (e.None? || rank(x) < rank(e.value)) {
          e := Some(x);
        }
      }
      assert (set x | x in due && x.0 == id && x.1 < |items|) == set x | x in due && x.0 == id;
    }

    // e is of least rank in due.
    ghost predicate Best(e: Option<EventRef>, due: set<EventRef>) {
      match e
      case None => due == {}
      case Some(x) => x in due && forall y | y in due :: rank(x) <= rank(y)
    }

    // apply, inside the transaction tx.
    method Apply(tx: LoopStore, e: EventRef, lookup: Lookup, fault: Fault) returns (failed: bool)
      requires e.0 in tx.loops && HasEvent(tx.loops[e.0], e.1)
      modifies tx`loops
      ensures failed <==> ApplyFails(old(tx.loops)[e.0], e.1, lookup, fault)
      ensures !failed ==> tx.loops == old(tx.loops)[e.0 :=
        ExecAll(old(tx.loops)[e.0], WritesOf(old(tx.loops)[e.0], e.1, lookup).value, ByProjection)]
    {
      var ls := tx.loops[e.0];
      ApplyCases(ls, e.1, lookup, fault);
      hide DecisionFails, DecisionWrites, DecideNextStage, WritesOf, ApplyFails, ExecAll;
      var l := ls.row;
      var event := ls.items[e.1].status.event;
      if event.version != 1 || fault.ReadFails? {
        return true;
      }
      if l.status != Running || l.stage.None? || ls.items[e.1].taskType != TaskOf(l.stage.value) {
        assert tx.loops == old(tx.loops)[e.0 := ls];
        return false;
      }
      var inTx := new Coordinator(tx);
      if event.kind.Rejected? {
        failed := inTx.ApplyDecision(e.0, l, Decision.Fail(InvalidConfig), lookup, fault);
        return;
      }
      if !event.runUsable {
        return true;
      }
      match event.kind {
        case Completed(result) =>
          failed := inTx.ApplyDecision(e.0, l, DecideNextStage(l, result), lookup, fault);
        case RunFailed(reason) =>
          failed := inTx.ApplyDecision(e.0, l, Decision.Fail(reason), lookup, fault);
      }
    }

    // Begin, claim, apply, receipt, commit. It fails exactly if one of them does;
    // that leaves the store as it was. A success is one atomic projection of the
    // claimed event, the oldest.
    method ProcessNext(lookup: Lookup, fault: Fault, recordFails: bool)
        returns (processed: bool, failed: bool, e: Option<EventRef>)
      requires forall id :: id in db.loops <==> id in db.order
      modifies this`backingOff, db`loops
      ensures e.Some? ==> e.value in Unreceipted(old(db.loops)) - old(backingOff)
      ensures e.Some? ==> forall x | x in Unreceipted(old(db.loops)) - old(backingOff) :: rank(e.value) <= rank(x)
      ensures processed <==> e.Some?
      ensures e.None? <==> fault.BeginFails? || fault.ClaimFails? || Unreceipted(old(db.loops)) <= old(backingOff)
      ensures failed <==>
        || fault.BeginFails? || fault.ClaimFails?
        || (e.Some? && (|| fault.ReceiptFails? || fault.CommitFails?
                        || CannotApply(old(db.loops), e.value, lookup, fault)))
      ensures failed ==> db.loops == old(db.loops)
      ensures backingOff == if e.Some? && !recordFails && CannotApply(old(db.loops), e.value, lookup, fault)
          then old(backingOff) + {e.value} else old(backingOff)
      ensures !processed ==> db.loops == old(db.loops)
      ensures processed && !failed ==> ProjectsWith(old(db.loops), e.value, lookup, db.loops)
    {
      processed, failed, e := false, false, None;
      if fault.BeginFails? || fault.ClaimFails? {
        return false, true, None;
      }
      var tx := new LoopStore(db.loops, db.order);
      e := ClaimEvent();
      if e.None? {
        return;
      }
      processed := true;
      var (id, i) := e.value;
      ghost var ls := tx.loops[id];
      var event := tx.loops[id].items[i].status.event;
      failed := Apply(tx, e.value, lookup, fault);
      if failed {
        if !recordFails {
          backingOff := backingOff + {e.value};
        }
        return;
      }
      if fault.ReceiptFails? || fault.CommitFails? {
        failed := true;
        return;
      }
      ExecAllAppends(ls, WritesOf(ls, i, lookup).value, ByProjection);
      tx.loops := tx.loops[id := WithReceipt(tx.loops[id], i, event)];
      db.loops := tx.loops;
    }

    ghost predicate Oldest(e: EventRef, due: set<EventRef>) {
      e in due && forall x | x in due :: rank(e) <= rank(x)
    }

    // The next attempt fails, before it has claimed an event or on the oldest due.
    ghost predicate Stuck(loops: map<LoopId, LoopState>, waiting: set<EventRef>, lookup: Lookup, fault: Fault) {
      || fault.BeginFails? || fault.ClaimFails?
      || exists e :: Oldest(e, Unreceipted(loops) - waiting)
           && (fault.ReceiptFails? || fault.CommitFails? || CannotApply(loops, e, lookup, fault))
    }

    // Projects the oldest due event again and again, until none is left or one fails.
    method Drain(lookups: nat -> Lookup, faults: nat -> (Fault, bool))
        returns (stopped: bool, ghost chain: seq<map<LoopId, LoopState>>, ghost events: seq<EventRef>)
      requires forall id :: id in db.loops <==> id in db.order
      modifies this`backingOff, db`loops
      ensures ProjectionChain(chain, events, lookups) && chain[0] == old(db.loops) && Last(chain) == db.loops
      ensures db.loops.Keys == old(db.loops).Keys
      ensures forall k | 0 <= k < |events| :: Oldest(events[k], Unreceipted(chain[k]) - old(backingOff))
      ensures !stopped ==> Unreceipted(db.loops) <= backingOff == old(backingOff)
      ensures stopped ==> Stuck(db.loops, old(backingOff), lookups(|events|), faults(|events|).0)
      ensures Distinct(events)
    {
      var n := 0;
      stopped, chain, events := false, [db.loops], [];
      hide CannotApply, ProjectsWith, Unreceipted;
      while true
        invariant ProjectionChain(chain, events, lookups) && chain[0] == old(db.loops) && Last(chain) == db.loops
        invariant n == |events| && backingOff == old(backingOff)
        invariant forall k | 0 <= k < |events| :: Oldest(events[k], Unreceipted(chain[k]) - old(backingOff))
        invariant db.loops.Keys == old(db.loops).Keys
        invariant forall id :: id in db.loops <==> id in db.order
        invariant Distinct(events) && forall k | 0 <= k < |events| :: events[k] !in Unreceipted(db.loops)
        decreases Unreceipted(db.loops)
      {
        ghost var before := db.loops;
        var processed, failed, e := ProcessNext(lookups(n), faults(n).0, faults(n).1);
        if failed {
          return true, chain, events;
        }
        if !processed {
          return false, chain, events;
        }
        ProjectionReceipts(before, e.value, lookups(n), db.loops);
        ExtendChain(chain, events, lookups, e.value, db.loops);
        chain, events := chain + [db.loops], events + [e.value];
        n := n + 1;
      }
    }
  }

  lemma ExtendChain(chain: seq<map<LoopId, LoopState>>, events: seq<EventRef>, lookups: nat -> Lookup,
                    e: EventRef, next: map<LoopId, LoopState>)
    requires ProjectionChain(chain, events, lookups) && ProjectsWith(Last(chain), e, lookups(|events|), next)
    ensures ProjectionChain(chain + [next], events + [e], lookups)
  {
    var chain', events' := chain + [next], events + [e];
    forall k | 0 <= k < |events'|
      ensures ProjectsWith(chain'[k], events'[k], lookups(k), chain'[k + 1])
    {
      if k < |events| {
        assert ProjectsWith(chain[k], events[k], lookups(k), chain[k + 1]);
      }
    }
  }

  lemma {:induction false} ChainKeeps(chain: seq<map<LoopId, LoopState>>, events: seq<EventRef>,
                                      lookups: nat -> Lookup, k: nat, mode: Mode)
    requires ProjectionChain(chain, events, lookups) && k < |chain|
    requires forall id | id in chain[0] :: Sound(chain[0][id], mode)
    ensures forall id | id in chain[k] :: Sound(chain[k][id], mode)
  {
    hide Sound;
    if k > 0 {
      ChainKeeps(chain, events, lookups, k - 1, mode);
      var e := events[k - 1];
      assert ProjectsWith(chain[k - 1], e, lookups(k - 1), chain[k]);
      ProjectSound(chain[k - 1][e.0], e.1, lookups(k - 1), mode);
    }
  }

  // Startup: drain, then restore. From any sound store, afterwards every active
  // loop the query returned either has reported an error before it was given an
  // item, or is no longer running, or has exactly one live item and its drained
  // row; and all loops are sound.
  method RunLoopCoordinator(db: LoopStore, rank: EventRef -> nat, lookups: nat -> Lookup, faults: nat -> (Fault, bool),
                            loadFails: bool, oracle: LoopId -> (Lookup, bool, Fault), ghost mode: Mode)
      returns (projector: LifecycleProjector, failed: set<LoopId>, ghost drained: map<LoopId, LoopState>,
               ghost chain: seq<map<LoopId, LoopState>>, ghost events: seq<EventRef>)
    requires forall id :: id in db.loops <==> id in db.order
    requires Distinct(db.order)
    requires forall id | id in db.loops :: Sound(db.loops[id], mode)
    modifies db`loops
    ensures ProjectionChain(chain, events, lookups) && chain[0] == old(db.loops) && Last(chain) == drained
    ensures Unreceipted(drained) == {}
      || projector.Stuck(drained, {}, lookups(|events|), faults(|events|).0)
    ensures drained.Keys == db.loops.Keys == old(db.loops).Keys
    ensures forall id | id in db.loops :: Sound(db.loops[id], mode)
    ensures forall id | id in db.loops && !loadFails && id in LoadedLoops(db.order, drained) ::
      Recovered(drained[id], db.loops[id], id in failed)
    ensures forall id | id in db.loops && (loadFails || id !in LoadedLoops(db.order, drained)) ::
        db.loops[id] == drained[id]
  {
    projector := new LifecycleProjector(db, rank);
    var coordinator := new Coordinator(db);
    var stopped;
    stopped, chain, events := projector.Drain(lookups, faults);
    drained := db.loops;
    ChainKeeps(chain, events, lookups, |chain| - 1, mode);
    failed := coordinator.RestoreOnStartup(loadFails, oracle);
    forall id | id in db.loops && !loadFails && id in LoadedLoops(db.order, drained)
      ensures Sound(db.loops[id], mode)
      ensures Recovered(drained[id], db.loops[id], id in failed)
    {
      RestoredWithKeeps(drained[id], oracle(id).0, oracle(id).1, oracle(id).2, mode);
    }
  }

  // Reporting an error excuses a loop only if it was given no item.
  ghost predicate Recovered(before: LoopState, after: LoopState, reported: bool) {
    after.row.status == Running && !(reported && after.items == before.items) ==>
      after.row.stage.Some? && LiveItems(after.items) == 1 && after.row == before.row
  }

  lemma ArmedWithKeeps(ls: LoopState, lookup: Lookup, timedOut: bool, fault: Fault, mode: Mode)
    requires Sound(ls, mode) && RestoreOutcomeOf(ls, lookup, timedOut).Arm?
    ensures var after := Created(ls, ls.row, RestoreOutcomeOf(ls, lookup, timedOut).taskType, 0, ByRestore, fault);
      && Sound(after, mode) && after.row == ls.row && after.row.stage.Some?
      && (if fault.InsertFails? then after == ls else LiveItems(after.items) == 1 && |ls.items| < |after.items|)
  {
    var t := RestoreOutcomeOf(ls, lookup, timedOut).taskType;
    NothingLive(ls);
    hide LoopInv, FlightInv, LiveItems;
    ArmKeeps(ls, t, mode);
    ExecTwo(ls, InsertItem(t), StageWrite(ls.row, t, 0), ByRestore);
  }

  lemma RestoredWithKeeps(ls: LoopState, lookup: Lookup, timedOut: bool, fault: Fault, mode: Mode)
    requires Sound(ls, mode)
    ensures var after := RestoredWith(ls, lookup, timedOut, fault);
      Sound(after, mode) && Recovered(ls, after, RestoreReportsError(ls, lookup, timedOut, fault))
  {
    hide Sound, LiveItems, HasInFlight, HasPendingEvent, Created, ExecAll, ResolveStageAgent;
    var out := RestoreOutcomeOf(ls, lookup, timedOut);
    if !out.Error? {
      RestoreRearms(ls, lookup, timedOut, mode);
    }
    if out.Arm? {
      ArmedWithKeeps(ls, lookup, timedOut, fault, mode);
    }
  }
}
