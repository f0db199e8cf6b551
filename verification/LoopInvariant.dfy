// What every operation on one loop keeps: at most one live work item, exact
// accounts of iterations and work, and an earned pull request.
module LoopInvariant {
  import opened Base
  import opened LoopTypes
  import opened LoopPolicy

  // Work items not created by startup recovery.
  function PaidItems(items: seq<Item>): nat {
    if items == [] then 0
    else PaidItems(items[..|items| - 1]) + (if Last(items).origin == ByRestore then 0 else 1)
  }

  // Their types, in order of creation.
  function PaidTypes(items: seq<Item>): (ts: seq<TaskType>)
    ensures |ts| == PaidItems(items)
  {
    if items == [] then []
    else PaidTypes(items[..|items| - 1]) + (if Last(items).origin == ByRestore then [] else [Last(items).taskType])
  }

  // plan, develop, review, then fix and review in turn.
  function NthType(k: nat): TaskType {
    if k == 0 then LoopPlan else if k == 1 then LoopDevelop else if k % 2 == 0 then LoopReview else LoopFix
  }

  ghost predicate FollowsPlan(items: seq<Item>) {
    forall k | 0 <= k < |PaidTypes(items)| :: PaidTypes(items)[k] == NthType(k)
  }

  // How many of the first paid items are fixes.
  function Fixes(paid: nat): nat {
    if paid < 4 then 0 else (paid - 2) / 2
  }

  // The newest item is where the plan is after that many paid items.
  ghost predicate OnSchedule(items: seq<Item>) {
    items != [] ==>
      && 0 < PaidItems(items)
      && Last(items).taskType == NthType(PaidItems(items) - 1)
      && FixItems(items) == Fixes(PaidItems(items))
  }

  // Fix items created by projecting an event.
  function FixItems(items: seq<Item>): nat {
    if items == [] then 0
    else FixItems(items[..|items| - 1]) +
         (if Last(items).origin == ByProjection && Last(items).taskType == LoopFix then 1 else 0)
  }

  function LiveItems(items: seq<Item>): nat {
    if items == [] then 0
    else LiveItems(items[..|items| - 1]) + (if Last(items).Live() then 1 else 0)
  }

  // How many more items projection may create from stage s at iteration n.
  function Remaining(s: Stage, n: int, cap: nat): int {
    match s
    case Plan => 2 * (cap - n) + 2
    case Develop => 2 * (cap - n) + 1
    case Review => 2 * (cap - n)
    case Fix => 2 * (cap - n) + 1
  }

  function Budget(row: LoopRow): int {
    2 * row.Cap() + 3
  }

  ghost predicate SingleFlight(ls: LoopState) {
    && (forall i | 0 <= i < |ls.items| - 1 :: !ls.items[i].Live())
    && (ls.row.stage.Some? ==> ls.items != [] && Last(ls.items).taskType == TaskOf(ls.row.stage.value))
    && (ls.row.stage.None? ==> forall i | 0 <= i < |ls.items| :: !ls.items[i].Live())
  }

  ghost predicate Accounts(ls: LoopState) {
    var cap := ls.row.Cap();
    match ls.row.stage
    case None =>
      && ls.row.iteration == 0
      && PaidItems(ls.items) <= Budget(ls.row)
      && FixItems(ls.items) <= cap
    case Some(s) =>
      && 0 <= ls.row.iteration <= cap
      && ls.row.iteration == FixItems(ls.items)
      && PaidItems(ls.items) + Remaining(s, ls.row.iteration, cap) == Budget(ls.row)
      && (s == Plan || s == Develop ==> ls.row.iteration == 0)
      && (s == Fix ==> 0 < ls.row.iteration)
  }

  // A column holds the string, or NULL for the empty one.
  predicate Records(column: Option<string>, s: string) {
    if s == "" then column == None else column == Some(s)
  }

  // A column holds the number, 0 if there is none, truncated to 32 bits.
  predicate RecordsNumber(column: Option<int>, number: Option<int>) {
    && column.Some? && FitsInt32(column.value)
    && ((if number.Some? then number.value else 0) - column.value) % 0x1_0000_0000 == 0
  }

  // Item i is a review whose projected run completed with an approval, and the
  // row's pull request is the one that very result named.
  ghost predicate EarnedBy(ls: LoopState, i: int) {
    && 0 <= i < |ls.items|
    && ls.items[i].taskType == LoopReview
    && ls.items[i].status.Receipted?
    && ls.items[i].status.event.kind.Completed?
    && var r := ls.items[i].status.event.kind.result;
    && r.Some? && r.value.approved == Some(true)
    && Records(ls.row.prUrl, r.value.prUrl)
    && RecordsNumber(ls.row.prNumber, r.value.prNumber)
    && Records(ls.row.branch, r.value.branch)
  }

  ghost predicate Earned(ls: LoopState) {
    exists i :: EarnedBy(ls, i)
  }

  ghost predicate Provenance(ls: LoopState) {
    && (ls.row.status == Done ==> ls.row.prNumber.Some?)
    && (ls.row.prNumber.Some? ==> ls.row.stage == None && Earned(ls))
    && (ls.row.prNumber.None? ==> ls.row.prUrl == None && ls.row.branch == None)
  }

  ghost predicate LoopInv(ls: LoopState) {
    && (ls.row.status == Pending ==> ls.items == [] && ls.row.stage == None)
    && (ls.row.status == Running ==> ls.row.failure == None && !ls.row.completed)
    && SingleFlight(ls)
    && Accounts(ls)
    && FollowsPlan(ls.items)
    && OnSchedule(ls.items)
    && Provenance(ls)
  }

  // What single flight alone rests on: only the newest item may be live, and if
  // the row has a stage it is the live item's.
  ghost predicate FlightInv(ls: LoopState) {
    && (ls.row.status == Pending ==> ls.items == [] && ls.row.stage == None)
    && (ls.row.status == Running ==> ls.row.failure == None && !ls.row.completed)
    && (forall i | 0 <= i < |ls.items| - 1 :: !ls.items[i].Live())
    && (ls.row.stage.Some? && ls.items != [] && Last(ls.items).Live() ==>
          Last(ls.items).taskType == TaskOf(ls.row.stage.value))
  }

  lemma SoundImpliesFlight(ls: LoopState)
    requires LoopInv(ls)
    ensures FlightInv(ls)
  {
  }

  // ---------- counting ----------

  lemma {:induction false} CountsAfterStatus(items: seq<Item>, i: nat, st: ItemStatus)
    requires i < |items|
    ensures PaidItems(items[i := items[i].(status := st)]) == PaidItems(items)
    ensures FixItems(items[i := items[i].(status := st)]) == FixItems(items)
    ensures PaidTypes(items[i := items[i].(status := st)]) == PaidTypes(items)
  {
    var items' := items[i := items[i].(status := st)];
    if i < |items| - 1 {
      assert items'[..|items| - 1] == items[..|items| - 1][i := items[..|items| - 1][i].(status := st)];
      CountsAfterStatus(items[..|items| - 1], i, st);
    } else {
      assert items'[..|items| - 1] == items[..|items| - 1];
    }
  }

  lemma CountsAfterAppend(items: seq<Item>, x: Item)
    ensures PaidItems(items + [x]) == PaidItems(items) + (if x.origin == ByRestore then 0 else 1)
    ensures FixItems(items + [x])
        == FixItems(items) + (if x.origin == ByProjection && x.taskType == LoopFix then 1 else 0)
    ensures LiveItems(items + [x]) == LiveItems(items) + (if x.Live() then 1 else 0)
    ensures PaidTypes(items + [x]) == PaidTypes(items) + (if x.origin == ByRestore then [] else [x.taskType])
  {
    assert (items + [x])[..|items|] == items;
  }

  lemma {:induction false} NoneLive(items: seq<Item>)
    requires forall i | 0 <= i < |items| :: !items[i].Live()
    ensures LiveItems(items) == 0
  {
    if items != [] {
      NoneLive(items[..|items| - 1]);
    }
  }

  // The number of live items is at most one, and a live item is the newest one
  // and, if the row has a stage, belongs to it.
  lemma AtMostOneLive(ls: LoopState)
    requires FlightInv(ls)
    ensures LiveItems(ls.items) <= 1
    ensures LiveItems(ls.items) == 1 <==> ls.items != [] && Last(ls.items).Live()
    ensures forall i | 0 <= i < |ls.items| && ls.items[i].Live() ::
      i == |ls.items| - 1 && (ls.row.stage.Some? ==> ls.row.stage == Some(StageOf(ls.items[i].taskType)))
  {
    if ls.items != [] {
      NoneLive(ls.items[..|ls.items| - 1]);
    }
  }

  // ---------- unfolding the write lists ----------

  function StageRow(row: LoopRow, t: TaskType, bump: nat): LoopRow {
    row.(status := Running, stage := Some(StageOf(t)), iteration := row.iteration + bump,
         failure := None, completed := false)
  }

  lemma ExecOne(ls: LoopState, w: Write, origin: Origin)
    ensures ExecAll(ls, [w], origin) == Exec(ls, w, origin)
  {
    assert [w][1..] == [];
  }

  lemma ExecTwo(ls: LoopState, v: Write, w: Write, origin: Origin)
    ensures ExecAll(ls, [v, w], origin) == Exec(Exec(ls, v, origin), w, origin)
  {
    assert [v, w][1..] == [w];
    ExecOne(Exec(ls, v, origin), w, origin);
  }

  lemma ExecCreateTask(ls: LoopState, t: TaskType, bump: nat, origin: Origin)
    ensures ExecAll(ls, CreateTaskWrites(ls.row, t, bump), origin)
         == LoopState(StageRow(ls.row, t, bump), ls.items + [Item(t, origin, InFlight)])
  {
    ExecTwo(ls, InsertItem(t), StageWrite(ls.row, t, bump), origin);
  }

  lemma {:induction false} ExecAppend(ls: LoopState, vs: seq<Write>, ws: seq<Write>, origin: Origin)
    ensures ExecAll(ls, vs + ws, origin) == ExecAll(ExecAll(ls, vs, origin), ws, origin)
    decreases |vs|
  {
    if vs == [] {
      assert vs + ws == ws;
    } else {
      assert (vs + ws)[1..] == vs[1..] + ws;
      ExecAppend(Exec(ls, vs[0], origin), vs[1..], ws, origin);
    }
  }

  // ---------- each operation keeps the invariant ----------

  lemma FreshKeeps(row: LoopRow)
    requires FreshRow(row)
    ensures LoopInv(LoopState(row, []))
  {
  }

  lemma StartShape(ls: LoopState, lookup: Lookup)
    requires Start(ls, lookup).Some?
    ensures Start(ls, lookup).value == LoopState(
      StageRow(ls.row, LoopPlan, 0).(iteration := 0, started := true), ls.items + [Item(LoopPlan, ByStart, InFlight)])
  {
    var stamp := UpdateLoop(UpdateInput(Running, Some(Plan), None, None, true, false));
    var next := LoopState(StageRow(ls.row, LoopPlan, 0), ls.items + [Item(LoopPlan, ByStart, InFlight)]);
    ExecAppend(ls, CreateTaskWrites(ls.row, LoopPlan, 0), [stamp], ByStart);
    ExecCreateTask(ls, LoopPlan, 0, ByStart);
    ExecOne(next, stamp, ByStart);
  }

  lemma StartKeeps(ls: LoopState, lookup: Lookup)
    requires LoopInv(ls) && Start(ls, lookup).Some?
    ensures LoopInv(Start(ls, lookup).value)
    ensures Start(ls, lookup).value.row.status == Running
    ensures Start(ls, lookup).value.row.stage == Some(Plan)
    ensures Start(ls, lookup).value.items == [Item(LoopPlan, ByStart, InFlight)]
  {
    StartShape(ls, lookup);
    assert ls.row.status == Pending;
    hide Start;
    CountsAfterAppend([], Item(LoopPlan, ByStart, InFlight));
    assert [] + [Item(LoopPlan, ByStart, InFlight)] == [Item(LoopPlan, ByStart, InFlight)];
  }

  // An item without an event may end with one, or be lost.
  lemma EndKeeps(ls: LoopState, i: nat, st: ItemStatus)
    requires LoopInv(ls) && IsInFlight(ls, i) && (st.Terminal? || st.Lost?)
    ensures LoopInv(SetItemStatus(ls, i, st))
  {
    CountsAfterStatus(ls.items, i, st);
    KeepsEarned(ls, SetItemStatus(ls, i, st));
  }

  lemma KeepsEarned(ls: LoopState, ls': LoopState)
    requires ls'.row.prUrl == ls.row.prUrl && ls'.row.prNumber == ls.row.prNumber && ls'.row.branch == ls.row.branch
    requires |ls.items| <= |ls'.items|
    requires forall i | 0 <= i < |ls.items| && ls.items[i].status.Receipted? :: ls'.items[i] == ls.items[i]
    ensures Earned(ls) ==> Earned(ls')
  {
    if i :| EarnedBy(ls, i) {
      assert EarnedBy(ls', i);
    }
  }

  // An operator's write names no stage, or that of every live item.
  predicate FlightWrite(ls: LoopState, stage: Option<Stage>) {
    stage.None? || forall i | 0 <= i < |ls.items| && ls.items[i].Live() :: ls.items[i].taskType == TaskOf(stage.value)
  }

  // An operator's write names the newest item's stage with the number of fix
  // rounds so far and there is no pull request yet, or it names no stage and
  // there is no live item.
  predicate SoundWrite(ls: LoopState, stage: Option<Stage>, iteration: int) {
    match stage
    case None => iteration == 0 && LiveItems(ls.items) == 0
    case Some(s) =>
      && ls.items != [] && Last(ls.items).taskType == TaskOf(s)
      && iteration == FixItems(ls.items) && ls.row.prNumber.None?
  }

  // Whatever was read and however long ago: the write keeps single flight's
  // invariant exactly if it names no other stage than a live item's.
  lemma FlightWriteIff(ls: LoopState, target: Status, stage: Option<Stage>, iteration: int)
    requires FlightInv(ls) && OperatorTarget(target)
    ensures FlightInv(OperatorWrite(ls, target, stage, iteration)) <==> FlightWrite(ls, stage)
  {
    if FlightWrite(ls, stage) {
      AtMostOneLive(ls);
    } else if stage.Some? {
      var i :| 0 <= i < |ls.items| && ls.items[i].Live() && ls.items[i].taskType != TaskOf(stage.value);
      AtMostOneLive(ls);
    }
  }

  lemma SoundWriteKeeps(ls: LoopState, target: Status, stage: Option<Stage>, iteration: int)
    requires LoopInv(ls) && OperatorTarget(target) && SoundWrite(ls, stage, iteration)
    ensures LoopInv(OperatorWrite(ls, target, stage, iteration))
  {
    hide Earned, EarnedBy, PaidItems, FixItems, PaidTypes;
    SoundImpliesFlight(ls);
    AtMostOneLive(ls);
    KeepsEarned(ls, OperatorWrite(ls, target, stage, iteration));
  }

  lemma KeptWriteIsSound(ls: LoopState, target: Status, stage: Option<Stage>, iteration: int)
    requires LoopInv(ls) && OperatorTarget(target) && LoopInv(OperatorWrite(ls, target, stage, iteration))
    ensures SoundWrite(ls, stage, iteration)
  {
    hide Earned, EarnedBy, PaidItems, FixItems, PaidTypes;
    SoundImpliesFlight(ls);
    AtMostOneLive(ls);
  }

  // And it keeps the whole loop invariant exactly if it is sound.
  lemma SoundWriteIff(ls: LoopState, target: Status, stage: Option<Stage>, iteration: int)
    requires LoopInv(ls) && OperatorTarget(target)
    ensures LoopInv(OperatorWrite(ls, target, stage, iteration)) <==> SoundWrite(ls, stage, iteration)
  {
    hide LoopInv, SoundWrite;
    if SoundWrite(ls, stage, iteration) {
      SoundWriteKeeps(ls, target, stage, iteration);
    }
    if LoopInv(OperatorWrite(ls, target, stage, iteration)) {
      KeptWriteIsSound(ls, target, stage, iteration);
    }
  }

  // With live work, only a write of the current stage and iteration is sound.
  lemma LiveWriteIff(ls: LoopState, target: Status, stage: Option<Stage>, iteration: int)
    requires LoopInv(ls) && OperatorTarget(target) && LiveItems(ls.items) == 1
    ensures LoopInv(OperatorWrite(ls, target, stage, iteration)) <==>
      stage == ls.row.stage && iteration == ls.row.iteration
  {
    SoundWriteIff(ls, target, stage, iteration);
    SoundImpliesFlight(ls);
    AtMostOneLive(ls);
  }

  // Without, it must be of the current stage and iteration, or clear both, or,
  // if the row has no stage, bring back that of the newest item.
  lemma IdleWriteIff(ls: LoopState, target: Status, stage: Option<Stage>, iteration: int)
    requires LoopInv(ls) && OperatorTarget(target) && LiveItems(ls.items) == 0
    ensures LoopInv(OperatorWrite(ls, target, stage, iteration)) <==>
      || (stage == ls.row.stage && iteration == ls.row.iteration)
      || (stage.None? && iteration == 0)
      || (ls.row.stage.None? && ls.items != [] && stage == Some(StageOf(Last(ls.items).taskType))
          && iteration == FixItems(ls.items) && ls.row.prNumber.None?)
  {
    SoundWriteIff(ls, target, stage, iteration);
  }

  // ---------- the budget of work ----------

  // No more paid items than the budget, now and by the time the row's stage and
  // iteration have run their course. Nothing is said about what is live.
  ghost predicate InBudget(ls: LoopState) {
    && PaidItems(ls.items) <= Budget(ls.row)
    && (ls.row.stage.Some? ==>
          PaidItems(ls.items) + Remaining(ls.row.stage.value, ls.row.iteration, ls.row.Cap()) <= Budget(ls.row))
  }

  // An operator's write names no stage, or one from which, at the iteration it
  // names, the loop ends within the budget.
  predicate BudgetWrite(ls: LoopState, stage: Option<Stage>, iteration: int) {
    stage.None? || PaidItems(ls.items) + Remaining(stage.value, iteration, ls.row.Cap()) <= Budget(ls.row)
  }

  lemma BudgetWriteIff(ls: LoopState, target: Status, stage: Option<Stage>, iteration: int)
    requires InBudget(ls) && OperatorTarget(target)
    ensures InBudget(OperatorWrite(ls, target, stage, iteration)) <==> BudgetWrite(ls, stage, iteration)
  {
  }

  // A sound loop has spent exactly what its stage and iteration say.
  lemma SoundIsInBudget(ls: LoopState)
    requires LoopInv(ls)
    ensures InBudget(ls)
    ensures ls.row.stage.Some? ==> forall n :: BudgetWrite(ls, ls.row.stage, n) <==> n >= ls.row.iteration
  {
  }

  // Pausing, resuming or cancelling with the stage and iteration still current.
  lemma OperatorKeeps(ls: LoopState, target: Status)
    requires LoopInv(ls) && OperatorTarget(target)
    ensures LoopInv(OperatorWrite(ls, target, ls.row.stage, ls.row.iteration))
    ensures SoundWrite(ls, ls.row.stage, ls.row.iteration)
  {
    KeepsEarned(ls, OperatorWrite(ls, target, ls.row.stage, ls.row.iteration));
    SoundWriteIff(ls, target, ls.row.stage, ls.row.iteration);
  }

  // Receipting the last live item without touching the row.
  lemma ReceiptKeeps(ls: LoopState, i: nat, e: Event)
    requires LoopInv(ls) && IsTerminal(ls, i)
    ensures LoopInv(SetItemStatus(ls, i, Receipted(e)))
  {
    CountsAfterStatus(ls.items, i, Receipted(e));
    KeepsEarned(ls, SetItemStatus(ls, i, Receipted(e)));
  }

  lemma ProjectKeeps(ls: LoopState, i: nat, lookup: Lookup)
    requires LoopInv(ls) && IsTerminal(ls, i) && Project(ls, i, lookup).Some?
    ensures LoopInv(Project(ls, i, lookup).value)
  {
    var e := ls.items[i].status.event;
    var t := ls.items[i].taskType;
    if !Applies(ls.row, t) {
      ReceiptKeeps(ls, i, e);
    } else if e.kind.Rejected? {
      FailingKeeps(ls, i, e, InvalidConfig);
    } else if e.kind.RunFailed? {
      FailingKeeps(ls, i, e, e.kind.reason);
    } else {
      CompletedKeeps(ls, i, lookup);
    }
  }

  lemma FailingKeeps(ls: LoopState, i: nat, e: Event, reason: FailureReason)
    requires LoopInv(ls) && IsTerminal(ls, i) && ls.items[i].status.event == e
    ensures LoopInv(WithReceipt(ExecAll(ls, FailWrites(reason), ByProjection), i, e))
  {
    ExecOne(ls, FailWrites(reason)[0], ByProjection);
    CountsAfterStatus(ls.items, i, Receipted(e));
    KeepsEarned(ls, WithReceipt(ExecAll(ls, FailWrites(reason), ByProjection), i, e));
  }

  lemma CompletedKeeps(ls: LoopState, i: nat, lookup: Lookup)
    requires LoopInv(ls) && IsTerminal(ls, i) && Project(ls, i, lookup).Some?
    requires Applies(ls.row, ls.items[i].taskType) && ls.items[i].status.event.kind.Completed?
    ensures LoopInv(Project(ls, i, lookup).value)
  {
    hide Earned, EarnedBy, PaidItems, FixItems, PaidTypes, LiveItems, Fixes;
    var e := ls.items[i].status.event;
    var d := DecideNextStage(ls.row, e.kind.result);
    match d {
      case Noop => ReceiptKeeps(ls, i, e);
      case Fail(reason) => FailingKeeps(ls, i, e, reason);
      case Complete(_, _, _) => ApprovalKeeps(ls, i, lookup);
      case CreateTask(t, bump) =>
        if ResolveStageAgent(ls.row, t, lookup).BadConfig? {
          ExecOne(ls, BadConfigWrites(ls.row)[0], ByProjection);
          CountsAfterStatus(ls.items, i, Receipted(e));
          KeepsEarned(ls, Project(ls, i, lookup).value);
        } else {
          AdvanceKeeps(ls, i, lookup, t, bump);
        }
    }
  }

  lemma ApprovalKeeps(ls: LoopState, i: nat, lookup: Lookup)
    requires LoopInv(ls) && IsTerminal(ls, i) && Project(ls, i, lookup).Some?
    requires Applies(ls.row, ls.items[i].taskType) && ls.items[i].status.event.kind.Completed?
    requires DecideNextStage(ls.row, ls.items[i].status.event.kind.result).Complete?
    ensures LoopInv(Project(ls, i, lookup).value)
  {
    var e := ls.items[i].status.event;
    var d := DecideNextStage(ls.row, e.kind.result);
    ExecTwo(ls, CompleteWrites(d)[0], CompleteWrites(d)[1], ByProjection);
    CountsAfterStatus(ls.items, i, Receipted(e));
    CompletedRecords(ls.row, e.kind.result.value);
    assert EarnedBy(Project(ls, i, lookup).value, i);
  }

  lemma AdvanceShape(ls: LoopState, i: nat, lookup: Lookup, t: TaskType, bump: nat)
    requires IsTerminal(ls, i) && Project(ls, i, lookup).Some?
    requires Applies(ls.row, ls.items[i].taskType) && ls.items[i].status.event.kind.Completed?
    requires DecideNextStage(ls.row, ls.items[i].status.event.kind.result) == CreateTask(t, bump)
    requires ResolveStageAgent(ls.row, t, lookup).Resolved?
    ensures Project(ls, i, lookup).value
         == LoopState(StageRow(ls.row, t, bump),
                      SetItemStatus(ls, i, Receipted(ls.items[i].status.event)).items
                          + [Item(t, ByProjection, InFlight)])
  {
    var e := ls.items[i].status.event;
    var x := Item(t, ByProjection, InFlight);
    ExecCreateTask(ls, t, bump, ByProjection);
    var kept := SetItemStatus(ls, i, Receipted(e)).items;
    assert (ls.items + [x])[i := ls.items[i].(status := Receipted(e))] == kept + [x];
  }

  lemma ProjectIsEffect(ls: LoopState, i: nat, lookup: Lookup)
    requires IsTerminal(ls, i) && Project(ls, i, lookup).Some?
    ensures WritesOf(ls, i, lookup).Some? && Project(ls, i, lookup).value == EventEffect(ls, i, lookup)
  {
  }

  lemma FailShape(ls: LoopState, i: nat, lookup: Lookup, reason: FailureReason)
    requires HasEvent(ls, i) && WritesOf(ls, i, lookup) == Some(FailWrites(reason))
    ensures EventEffect(ls, i, lookup) == LoopState(FailedRow(ls.row, reason), WithItemReceipted(ls, i))
  {
    ExecOne(ls, FailWrites(reason)[0], ByProjection);
  }

  // What an event's effect is, case by case; the event may have its receipt.
  lemma EffectShape(ls: LoopState, i: nat, lookup: Lookup)
    requires HasEvent(ls, i) && WritesOf(ls, i, lookup).Some?
    ensures EffectCases(ls, i, lookup, EventEffect(ls, i, lookup))
  {
    var e := ls.items[i].status.event;
    ExecOne(ls, BadConfigWrites(ls.row)[0], ByProjection);
    if Applies(ls.row, ls.items[i].taskType) {
      match e.kind {
        case Rejected => FailShape(ls, i, lookup, InvalidConfig);
        case RunFailed(reason) => FailShape(ls, i, lookup, reason);
        case Completed(result) =>
          var d := DecideNextStage(ls.row, result);
          match d {
            case Noop =>
            case Fail(reason) => FailShape(ls, i, lookup, reason);
            case Complete(_, _, _) => ExecTwo(ls, CompleteWrites(d)[0], CompleteWrites(d)[1], ByProjection);
            case CreateTask(t, bump) =>
              ExecCreateTask(ls, t, bump, ByProjection);
              assert (ls.items + [Item(t, ByProjection, InFlight)])[i := ls.items[i].(status := Receipted(e))]
                  == WithItemReceipted(ls, i) + [Item(t, ByProjection, InFlight)];
          }
      }
    }
  }

  function WithItemReceipted(ls: LoopState, i: nat): seq<Item>
    requires HasEvent(ls, i)
  {
    SetItemStatus(ls, i, Receipted(ls.items[i].status.event)).items
  }

  function FailedRow(row: LoopRow, reason: FailureReason): LoopRow {
    row.(status := Failed, stage := None, iteration := 0, failure := Some(reason), completed := true)
  }

  function MisconfiguredRow(row: LoopRow): LoopRow {
    row.(status := Failed, failure := Some(InvalidConfig), completed := true)
  }

  function CompletedRow(row: LoopRow, r: TaskResult): LoopRow {
    SetPr(row, r.prUrl, r.PrNumberOrZero(), r.branch)
    .(status := Done, stage := None, iteration := 0, failure := None, completed := true)
  }

  lemma CompletedRecords(row: LoopRow, r: TaskResult)
    ensures var done := CompletedRow(row, r);
      Records(done.prUrl, r.prUrl) && RecordsNumber(done.prNumber, r.prNumber) && Records(done.branch, r.branch)
    ensures r.prNumber.Some? && FitsInt32(r.prNumber.value) ==> CompletedRow(row, r).prNumber == r.prNumber
  {
    ToInt32Truncates(r.PrNumberOrZero());
  }

  // The event's decision opens new work, and the agent for it can be used.
  predicate OpensWork(ls: LoopState, i: nat, lookup: Lookup)
    requires HasEvent(ls, i)
  {
    var e := ls.items[i].status.event;
    && Applies(ls.row, ls.items[i].taskType) && e.kind.Completed?
    && var d := DecideNextStage(ls.row, e.kind.result);
       d.CreateTask? && ResolveStageAgent(ls.row, d.taskType, lookup).Resolved?
  }

  // The guard stops the event, or the loop moves on, or it fails, or it fails for
  // the next stage's agent, or an approved review completes it.
  ghost predicate EffectCases(ls: LoopState, i: nat, lookup: Lookup, after: LoopState)
    requires HasEvent(ls, i)
  {
    var e, kept := ls.items[i].status.event, WithItemReceipted(ls, i);
    if !Applies(ls.row, ls.items[i].taskType) then
      after == LoopState(ls.row, kept)
    else if OpensWork(ls, i, lookup) then
      var d := DecideNextStage(ls.row, e.kind.result);
      after == LoopState(StageRow(ls.row, d.taskType, d.bump), kept + [Item(d.taskType, ByProjection, InFlight)])
    else
      || (exists reason :: after == LoopState(FailedRow(ls.row, reason), kept))
      || after == LoopState(MisconfiguredRow(ls.row), kept)
      || (e.kind.Completed? && ls.items[i].taskType == LoopReview && Approved(e.kind.result)
          && after == LoopState(CompletedRow(ls.row, e.kind.result.value), kept))
  }

  lemma AdvanceKeeps(ls: LoopState, i: nat, lookup: Lookup, t: TaskType, bump: nat)
    requires LoopInv(ls) && IsTerminal(ls, i) && Project(ls, i, lookup).Some?
    requires Applies(ls.row, ls.items[i].taskType) && ls.items[i].status.event.kind.Completed?
    requires DecideNextStage(ls.row, ls.items[i].status.event.kind.result) == CreateTask(t, bump)
    requires ResolveStageAgent(ls.row, t, lookup).Resolved?
    ensures LoopInv(Project(ls, i, lookup).value)
  {
    var e := ls.items[i].status.event;
    AdvanceShape(ls, i, lookup, t, bump);
    assert ls.row.stage.Some? && StageIsNext(ls.row, t, bump);
    hide Project, EventWrites, ResolveStageAgent, DecideNextStage;
    var kept := SetItemStatus(ls, i, Receipted(e));
    ReceiptKeeps(ls, i, e);
    SoundImpliesFlight(ls);
    AtMostOneLive(ls);
    AppendNextKeeps(kept, t, bump);
  }

  // Stage t's comes after the row's, and only a fix opens a new round.
  predicate StageIsNext(row: LoopRow, t: TaskType, bump: nat)
    requires row.stage.Some?
  {
    match row.stage.value
    case Plan => t == LoopDevelop && bump == 0
    case Develop => t == LoopReview && bump == 0
    case Fix => t == LoopReview && bump == 0
    case Review => t == LoopFix && bump == 1 && row.iteration < row.maxIterations
  }

  lemma AppendNextKeeps(ls: LoopState, t: TaskType, bump: nat)
    requires LoopInv(ls) && ls.row.status == Running && ls.row.stage.Some? && StageIsNext(ls.row, t, bump)
    requires forall i | 0 <= i < |ls.items| :: !ls.items[i].Live()
    ensures LoopInv(LoopState(StageRow(ls.row, t, bump), ls.items + [Item(t, ByProjection, InFlight)]))
  {
    hide Earned, EarnedBy, PaidItems, FixItems, PaidTypes, LiveItems;
    CountsAfterAppend(ls.items, Item(t, ByProjection, InFlight));
  }

  lemma RestoreInsertKeeps(ls: LoopState, t: TaskType)
    requires LoopInv(ls) && ls.row.stage == Some(StageOf(t))
    requires LiveItems(ls.items) == 0
    ensures LoopInv(Exec(ls, InsertItem(t), ByRestore))
    ensures LiveItems(Exec(ls, InsertItem(t), ByRestore).items) == 1
  {
    hide Earned, EarnedBy, PaidItems, FixItems, PaidTypes, LiveItems, Fixes;
    AtMostOneLive(ls);
    CountsAfterAppend(ls.items, Item(t, ByRestore, InFlight));
    KeepsEarned(ls, Exec(ls, InsertItem(t), ByRestore));
  }

  // In a running loop the row write that follows re-arming changes nothing, so
  // a crash before it is harmless.
  lemma RestoreRowWriteIsIdentity(ls: LoopState, t: TaskType)
    requires Clean(ls.row) && ls.row.status == Running && ls.row.stage == Some(StageOf(t))
    ensures Exec(ls, StageWrite(ls.row, t, 0), ByRestore) == ls
  {
  }

  lemma BadConfigKeeps(ls: LoopState)
    requires LoopInv(ls) && ls.row.status == Running
    ensures LoopInv(ExecAll(ls, BadConfigWrites(ls.row), ByRestore))
    ensures ExecAll(ls, BadConfigWrites(ls.row), ByRestore)
         == ls.(row := ls.row.(status := Failed, failure := Some(InvalidConfig), completed := true))
  {
    ExecOne(ls, BadConfigWrites(ls.row)[0], ByRestore);
    KeepsEarned(ls, ExecAll(ls, BadConfigWrites(ls.row), ByRestore));
  }

  lemma TimeoutKeeps(ls: LoopState)
    requires LoopInv(ls) && LiveItems(ls.items) == 0 && ls.row.stage.Some?
    ensures LoopInv(ExecAll(ls, FailWrites(LoopTimeout), ByRestore))
    ensures ExecAll(ls, FailWrites(LoopTimeout), ByRestore).items == ls.items
    ensures ExecAll(ls, FailWrites(LoopTimeout), ByRestore).row.status == Failed
  {
    AtMostOneLive(ls);
    ExecOne(ls, FailWrites(LoopTimeout)[0], ByRestore);
    KeepsEarned(ls, ExecAll(ls, FailWrites(LoopTimeout), ByRestore));
  }

  // ---------- each operation keeps single flight's invariant ----------

  lemma StartFlight(ls: LoopState, lookup: Lookup)
    requires FlightInv(ls) && Start(ls, lookup).Some?
    ensures FlightInv(Start(ls, lookup).value)
    ensures Start(ls, lookup).value.row.stage == Some(Plan)
    ensures Start(ls, lookup).value.items == [Item(LoopPlan, ByStart, InFlight)]
  {
    StartShape(ls, lookup);
    assert ls.items + [Item(LoopPlan, ByStart, InFlight)] == [Item(LoopPlan, ByStart, InFlight)];
  }

  lemma EndFlight(ls: LoopState, i: nat, st: ItemStatus)
    requires FlightInv(ls) && IsInFlight(ls, i) && !st.InFlight?
    ensures FlightInv(SetItemStatus(ls, i, st))
  {
  }

  lemma FailedFlight(ls: LoopState, ws: seq<Write>, i: nat, e: Event)
    requires FlightInv(ls) && IsTerminal(ls, i)
    requires ws == BadConfigWrites(ls.row) || exists reason :: ws == FailWrites(reason)
    ensures FlightInv(WithReceipt(ExecAll(ls, ws, ByProjection), i, e))
  {
    ExecOne(ls, ws[0], ByProjection);
  }

  lemma DecisionFlight(ls: LoopState, i: nat, d: Decision, lookup: Lookup, e: Event)
    requires FlightInv(ls) && IsTerminal(ls, i) && ls.row.status == Running && ls.row.stage.Some?
    requires DecisionWrites(ls.row, d, lookup).Some?
    ensures FlightInv(WithReceipt(ExecAll(ls, DecisionWrites(ls.row, d, lookup).value, ByProjection), i, e))
  {
    match d {
      case Noop =>
      case Fail(reason) => FailedFlight(ls, FailWrites(reason), i, e);
      case Complete(_, _, _) => ExecTwo(ls, CompleteWrites(d)[0], CompleteWrites(d)[1], ByProjection);
      case CreateTask(t, bump) =>
        if ResolveStageAgent(ls.row, t, lookup).BadConfig? {
          FailedFlight(ls, BadConfigWrites(ls.row), i, e);
        } else {
          ExecCreateTask(ls, t, bump, ByProjection);
        }
    }
  }

  lemma ProjectFlight(ls: LoopState, i: nat, lookup: Lookup)
    requires FlightInv(ls) && IsTerminal(ls, i) && Project(ls, i, lookup).Some?
    ensures FlightInv(Project(ls, i, lookup).value)
  {
    var e := ls.items[i].status.event;
    if Applies(ls.row, ls.items[i].taskType) {
      hide FlightInv, WithReceipt, ExecAll;
      match e.kind {
        case Rejected => DecisionFlight(ls, i, Fail(InvalidConfig), lookup, e);
        case RunFailed(reason) => DecisionFlight(ls, i, Fail(reason), lookup, e);
        case Completed(result) => DecisionFlight(ls, i, DecideNextStage(ls.row, result), lookup, e);
      }
    }
  }

  lemma RestoreInsertFlight(ls: LoopState, t: TaskType)
    requires FlightInv(ls) && ls.row.stage == Some(StageOf(t)) && ls.row.status != Pending
    requires LiveItems(ls.items) == 0
    ensures FlightInv(Exec(ls, InsertItem(t), ByRestore))
    ensures LiveItems(Exec(ls, InsertItem(t), ByRestore).items) == 1
  {
    AtMostOneLive(ls);
    CountsAfterAppend(ls.items, Item(t, ByRestore, InFlight));
  }

  lemma BadConfigFlight(ls: LoopState)
    requires FlightInv(ls) && ls.row.status == Running
    ensures FlightInv(ExecAll(ls, BadConfigWrites(ls.row), ByRestore))
    ensures ExecAll(ls, BadConfigWrites(ls.row), ByRestore)
         == ls.(row := ls.row.(status := Failed, failure := Some(InvalidConfig), completed := true))
  {
    ExecOne(ls, BadConfigWrites(ls.row)[0], ByRestore);
  }

  lemma TimeoutFlight(ls: LoopState)
    requires FlightInv(ls) && ls.row.status == Running
    ensures FlightInv(ExecAll(ls, FailWrites(LoopTimeout), ByRestore))
    ensures ExecAll(ls, FailWrites(LoopTimeout), ByRestore).items == ls.items
    ensures ExecAll(ls, FailWrites(LoopTimeout), ByRestore).row.status == Failed
    ensures ExecAll(ls, FailWrites(LoopTimeout), ByRestore).row.failure == Some(LoopTimeout)
  {
    ExecOne(ls, FailWrites(LoopTimeout)[0], ByRestore);
  }

  // ---------- at either strength ----------

  // What is required of an operator's write: nothing, that it stays within the
  // budget of work, that it keeps single flight, or that it keeps the whole
  // invariant.
  datatype Mode = Racy | Budgeted | FlightSafe | Guarded

  predicate Permitted(ls: LoopState, stage: Option<Stage>, iteration: int, mode: Mode) {
    match mode
    case Racy => true
    case Budgeted => BudgetWrite(ls, stage, iteration)
    case FlightSafe => FlightWrite(ls, stage)
    case Guarded => SoundWrite(ls, stage, iteration)
  }

  predicate KeepsFlight(mode: Mode) {
    mode.FlightSafe? || mode.Guarded?
  }

  ghost predicate Sound(ls: LoopState, mode: Mode) {
    FlightInv(ls) && (mode.Guarded? ==> LoopInv(ls))
  }

  // A write is permitted exactly if it keeps what the mode promises.
  lemma PermittedIff(ls: LoopState, target: Status, stage: Option<Stage>, iteration: int, mode: Mode)
    requires Sound(ls, mode) && OperatorTarget(target) && KeepsFlight(mode)
    ensures Sound(OperatorWrite(ls, target, stage, iteration), mode) <==> Permitted(ls, stage, iteration, mode)
  {
    FlightWriteIff(ls, target, stage, iteration);
    if mode.Guarded? {
      SoundWriteIff(ls, target, stage, iteration);
      if LoopInv(OperatorWrite(ls, target, stage, iteration)) {
        SoundImpliesFlight(OperatorWrite(ls, target, stage, iteration));
      }
    }
  }

  lemma FreshSound(row: LoopRow, mode: Mode)
    requires FreshRow(row)
    ensures Sound(LoopState(row, []), mode)
  {
  }

  lemma StartSound(ls: LoopState, lookup: Lookup, mode: Mode)
    requires Sound(ls, mode) && Start(ls, lookup).Some?
    ensures Sound(Start(ls, lookup).value, mode)
  {
    hide FlightInv, LoopInv, Start;
    StartFlight(ls, lookup);
    if mode.Guarded? {
      StartKeeps(ls, lookup);
    }
  }

  lemma EndSound(ls: LoopState, i: nat, st: ItemStatus, mode: Mode)
    requires Sound(ls, mode) && IsInFlight(ls, i) && (st.Terminal? || st.Lost?)
    ensures Sound(SetItemStatus(ls, i, st), mode)
  {
    hide FlightInv, LoopInv;
    EndFlight(ls, i, st);
    if mode.Guarded? {
      EndKeeps(ls, i, st);
    }
  }

  lemma ProjectSound(ls: LoopState, i: nat, lookup: Lookup, mode: Mode)
    requires Sound(ls, mode) && IsTerminal(ls, i) && Project(ls, i, lookup).Some?
    ensures Sound(Project(ls, i, lookup).value, mode)
  {
    hide FlightInv, LoopInv, Project;
    ProjectFlight(ls, i, lookup);
    if mode.Guarded? {
      ProjectKeeps(ls, i, lookup);
    }
  }

  lemma RestoreInsertSound(ls: LoopState, t: TaskType, mode: Mode)
    requires Sound(ls, mode) && ls.row.stage == Some(StageOf(t)) && ls.row.status == Running
    requires LiveItems(ls.items) == 0
    ensures Sound(Exec(ls, InsertItem(t), ByRestore), mode)
    ensures LiveItems(Exec(ls, InsertItem(t), ByRestore).items) == 1
  {
    hide FlightInv, LoopInv, LiveItems;
    RestoreInsertFlight(ls, t);
    if mode.Guarded? {
      RestoreInsertKeeps(ls, t);
    }
  }

  // Both ways a restore fails a loop.
  lemma RestoreFailsSound(ls: LoopState, ws: seq<Write>, mode: Mode)
    requires Sound(ls, mode) && ls.row.status == Running
    requires ws == BadConfigWrites(ls.row)
        || (ws == FailWrites(LoopTimeout) && ls.row.stage.Some? && LiveItems(ls.items) == 0)
    ensures Sound(ExecAll(ls, ws, ByRestore), mode)
    ensures ExecAll(ls, ws, ByRestore).items == ls.items && ExecAll(ls, ws, ByRestore).row.status == Failed
  {
    hide FlightInv, LoopInv, LiveItems;
    BadConfigFlight(ls);
    TimeoutFlight(ls);
    if mode.Guarded? {
      BadConfigKeeps(ls);
      if ws == FailWrites(LoopTimeout) {
        if ls.row.stage.Some? && LiveItems(ls.items) == 0 {
          TimeoutKeeps(ls);
        }
      }
    }
  }
}
