// The server as a step system.
module LoopServer {
  import opened Base
  import opened LoopTypes
  import opened LoopPolicy
  import opened LoopInvariant
  import opened LoopRecovery

  // The steps are HTTP operations, atomic projections, the agents' environment,
  // crashes, and the startup sequence of server/cmd/server/loop_coordinator.go
  // (drain, restore, then serve).

  type LoopId = nat

  // The LIMIT of the LoadActiveLoops query.
  const LOAD_LIMIT: nat := 1000

  datatype RestorePc = LoadedRow | NoTaskInFlight | NoEventPending | ItemInserted(taskType: TaskType)

  // RestoreOnStartup at work: the rows it loaded, the loop it is at, where in
  // restoreOne it is, and the loops not accounted for: those whose restore
  // reported an error before it inserted an item, and those that lost their item
  // after restoreOne had seen or inserted it. complete says whether the query's
  // LIMIT left no active loop out.
  datatype Boot = Boot(
    loaded: seq<LoopId>, rows: map<LoopId, LoopRow>, complete: bool,
    next: nat, pc: RestorePc, excused: set<LoopId>)
  {
    function Advance(): Boot {
      this.(next := next + 1, pc := LoadedRow)
    }

    // restoreOne is through with the loop's items.
    predicate Passed(id: LoopId) {
      id in loaded[..if next <= |loaded| then next else |loaded|]
      || (next < |loaded| && loaded[next] == id && pc.ItemInserted?)
    }

    function Excuse(id: LoopId): Boot {
      this.(excused := excused + {id})
    }
  }

  datatype Phase = Down | Draining | Restoring(boot: Boot) | Serving

  // An operator request that has read the row and not yet written it.
  datatype OperatorRequest = OperatorRequest(loop: LoopId, target: Status, stage: Option<Stage>, iteration: int)

  datatype Server = Server(
    loops: map<LoopId, LoopState>, order: seq<LoopId>, phase: Phase, requests: map<nat, OperatorRequest>)

  datatype Step =
    | CreateLoop(id: LoopId, row: LoopRow)
    | StartLoop(id: LoopId, lookup: Lookup)
    | ProjectEvent(id: LoopId, item: nat, lookup: Lookup)
    | OperatorReads(req: nat, id: LoopId, target: Status)
    | OperatorWrites(req: nat)
    | EndItem(id: LoopId, item: nat, event: Event)
    | LoseItem(id: LoopId, item: nat)
    | Crash
    | BeginDrain
    | LoadActive
    | LoadActiveFails
    | CheckInFlight
    | CheckPendingEvent
    | DecideRestore(lookup: Lookup, timedOut: bool)
    | WriteRestoredRow
    | RestoreFails
    | BeginServing

  predicate Active(row: LoopRow) {
    row.status == Running || row.status == Paused
  }

  function ActiveLoops(order: seq<LoopId>, loops: map<LoopId, LoopState>): seq<LoopId> {
    if order == [] then []
    else (if order[0] in loops && Active(loops[order[0]].row) then [order[0]] else [])
         + ActiveLoops(order[1..], loops)
  }

  function LoadedLoops(order: seq<LoopId>, loops: map<LoopId, LoopState>): seq<LoopId> {
    var active := ActiveLoops(order, loops);
    if |active| <= LOAD_LIMIT then active else active[..LOAD_LIMIT]
  }

  predicate AtHead(s: Server) {
    && s.phase.Restoring?
    && s.phase.boot.next < |s.phase.boot.loaded|
    && s.phase.boot.loaded[s.phase.boot.next] in s.phase.boot.rows
    && s.phase.boot.loaded[s.phase.boot.next] in s.loops
  }

  function Head(s: Server): LoopId
    requires AtHead(s)
  {
    s.phase.boot.loaded[s.phase.boot.next]
  }

  function HeadRow(s: Server): LoopRow
    requires AtHead(s)
  {
    s.phase.boot.rows[Head(s)]
  }

  predicate Enabled(s: Server, step: Step, mode: Mode) {
    match step
    case CreateLoop(id, row) => s.phase.Serving? && id !in s.loops && FreshRow(row)
    case StartLoop(id, lookup) => s.phase.Serving? && id in s.loops && Start(s.loops[id], lookup).Some?
    case ProjectEvent(id, i, lookup) =>
      && (s.phase.Serving? || s.phase.Draining?)
      && id in s.loops && IsTerminal(s.loops[id], i) && Project(s.loops[id], i, lookup).Some?
    case OperatorReads(req, id, target) => s.phase.Serving? && id in s.loops && OperatorTarget(target)
    case OperatorWrites(req) =>
      && s.phase.Serving? && req in s.requests && s.requests[req].loop in s.loops
      && Permitted(s.loops[s.requests[req].loop], s.requests[req].stage, s.requests[req].iteration, mode)
    case EndItem(id, i, _) => id in s.loops && IsInFlight(s.loops[id], i)
    case LoseItem(id, i) => id in s.loops && IsInFlight(s.loops[id], i)
    case Crash => true
    case BeginDrain => s.phase.Down?
    case LoadActive => s.phase.Draining?
    case LoadActiveFails => s.phase.Draining?
    case CheckInFlight => AtHead(s) && s.phase.boot.pc.LoadedRow?
    case CheckPendingEvent => AtHead(s) && s.phase.boot.pc.NoTaskInFlight? && HeadRow(s).stage.Some?
    case DecideRestore(_, _) => AtHead(s) && s.phase.boot.pc.NoEventPending? && HeadRow(s).stage.Some?
    case WriteRestoredRow => AtHead(s) && s.phase.boot.pc.ItemInserted?
    case RestoreFails => AtHead(s)
    case BeginServing => s.phase.Restoring? && s.phase.boot.next == |s.phase.boot.loaded|
  }

  function SetLoop(s: Server, id: LoopId, ls: LoopState): Server {
    s.(loops := s.loops[id := ls])
  }

  function SetBoot(s: Server, b: Boot): Server {
    s.(phase := Restoring(b))
  }

  function Do(s: Server, step: Step): Server
    requires Enabled(s, step, Racy)
  {
    match step
    case CreateLoop(id, row) => SetLoop(s, id, LoopState(row, [])).(order := s.order + [id])
    case StartLoop(id, lookup) => SetLoop(s, id, Start(s.loops[id], lookup).value)
    case ProjectEvent(id, i, lookup) => SetLoop(s, id, Project(s.loops[id], i, lookup).value)
    case OperatorReads(req, id, target) =>
      var row := s.loops[id].row;
      s.(requests := s.requests[req := OperatorRequest(id, target, row.stage, row.iteration)])
    case OperatorWrites(req) =>
      var r := s.requests[req];
      SetLoop(s, r.loop, OperatorWrite(s.loops[r.loop], r.target, r.stage, r.iteration))
      .(requests := s.requests - {req})
    case EndItem(id, i, e) => SetLoop(s, id, SetItemStatus(s.loops[id], i, Terminal(e)))
    case LoseItem(id, i) =>
      var s' := SetLoop(s, id, SetItemStatus(s.loops[id], i, Lost));
      if s.phase.Restoring? && s.phase.boot.Passed(id) then SetBoot(s', s.phase.boot.Excuse(id)) else s'
    case Crash => s.(phase := Down, requests := map[])
    case BeginDrain => s.(phase := Draining)
    case LoadActive =>
      var loaded := LoadedLoops(s.order, s.loops);
      var rows := map id | id in loaded && id in s.loops :: s.loops[id].row;
      SetBoot(s, Boot(loaded, rows, |loaded| == |ActiveLoops(s.order, s.loops)|, 0, LoadedRow, {}))
    case LoadActiveFails => s.(phase := Serving)
    case CheckInFlight => DoCheckInFlight(s)
    case CheckPendingEvent =>
      var b := s.phase.boot;
      SetBoot(s, if HasPendingEvent(s.loops[Head(s)], TaskOf(HeadRow(s).stage.value)) then b.Advance()
                 else b.(pc := NoEventPending))
    case DecideRestore(lookup, timedOut) => DoDecideRestore(s, lookup, timedOut)
    case WriteRestoredRow =>
      var ls := Exec(s.loops[Head(s)], StageWrite(HeadRow(s), s.phase.boot.pc.taskType, 0), ByRestore);
      SetBoot(SetLoop(s, Head(s), ls), s.phase.boot.Advance())
    case RestoreFails =>
      var b := s.phase.boot;
      SetBoot(s, if b.pc.ItemInserted? then b.Advance() else b.Advance().Excuse(Head(s)))
    case BeginServing => s.(phase := Serving)
  }

  function DoCheckInFlight(s: Server): Server
    requires AtHead(s)
  {
    var b := s.phase.boot;
    var row := HeadRow(s);
    if row.status != Running then SetBoot(s, b.Advance())
    else if row.stage.None? then
      SetBoot(SetLoop(s, Head(s), ExecAll(s.loops[Head(s)], BadConfigWrites(row), ByRestore)), b.Advance())
    else if HasInFlight(s.loops[Head(s)], TaskOf(row.stage.value)) then SetBoot(s, b.Advance())
    else SetBoot(s, b.(pc := NoTaskInFlight))
  }

  function DoDecideRestore(s: Server, lookup: Lookup, timedOut: bool): Server
    requires AtHead(s) && HeadRow(s).stage.Some?
  {
    var b := s.phase.boot;
    match RestoreDecision(HeadRow(s), lookup, timedOut)
    case Error => SetBoot(s, b.Advance().Excuse(Head(s)))
    case Write(ws) => SetBoot(SetLoop(s, Head(s), ExecAll(s.loops[Head(s)], ws, ByRestore)), b.Advance())
    case Arm(t) =>
      SetBoot(SetLoop(s, Head(s), Exec(s.loops[Head(s)], InsertItem(t), ByRestore)), b.(pc := ItemInserted(t)))
    case Skip => s
  }

  // ---------- runs ----------

  ghost predicate Init(s: Server) {
    s.loops == map[] && s.order == [] && s.phase == Down && s.requests == map[]
  }

  ghost predicate IsRun(run: seq<Server>, steps: seq<Step>, mode: Mode) {
    && |run| == |steps| + 1
    && Init(run[0])
    && forall k | 0 <= k < |steps| :: Moves(run[k], steps[k], run[k + 1], mode)
  }

  ghost predicate Moves(s: Server, step: Step, s': Server, mode: Mode) {
    Enabled(s, step, mode) && s' == Do(s, step)
  }

  // ---------- what every run keeps ----------

  // Ids and creation order agree.
  ghost predicate Ordered(s: Server) {
    Distinct(s.order) && forall id :: id in s.loops <==> id in s.order
  }

  // A loop restoreOne has dealt with: its row is as loaded or it was failed,
  // and if it still runs it has a stage and live work of that stage.
  ghost predicate Handled(ls: LoopState, row: LoopRow, excused: bool) {
    && (ls.row == row || ls.row.status == Failed)
    && (ls.row.status == Running && !excused ==> ls.row.stage.Some? && HasWork(ls, TaskOf(ls.row.stage.value)))
  }

  // The restore loop is through with its list, which has the loop on it, and
  // the loop runs and is not excused.
  predicate Restored(s: Server, id: LoopId) {
    && s.phase.Restoring? && s.phase.boot.next == |s.phase.boot.loaded|
    && (id in s.phase.boot.loaded || s.phase.boot.complete) && id !in s.phase.boot.excused
    && id in s.loops && s.loops[id].row.status == Running
  }

  // What restoreOne has learned about the loop it is at. An item can only end
  // between the checks if it was in flight, hence the in-flight check first.
  ghost predicate AtPc(ls: LoopState, row: LoopRow, pc: RestorePc, excused: bool) {
    && ls.row == row
    && (!pc.LoadedRow? ==> row.status == Running && row.stage.Some?)
    && (pc.NoTaskInFlight? ==> !HasInFlight(ls, TaskOf(row.stage.value)))
    && (pc.NoEventPending? ==> !HasWork(ls, TaskOf(row.stage.value)))
    && (pc.ItemInserted? ==> row.stage == Some(StageOf(pc.taskType)) && (excused || HasWork(ls, pc.taskType)))
  }

  ghost predicate BootAt(loops: map<LoopId, LoopState>, b: Boot, k: int)
    requires 0 <= k < |b.loaded|
  {
    var id := b.loaded[k];
    && id in loops && id in b.rows
    && (k < b.next ==> Handled(loops[id], b.rows[id], id in b.excused))
    && (k == b.next ==> AtPc(loops[id], b.rows[id], b.pc, id in b.excused))
    && (k > b.next ==> loops[id].row == b.rows[id])
  }

  ghost predicate BootInv(loops: map<LoopId, LoopState>, b: Boot) {
    && b.next <= |b.loaded|
    && (b.next == |b.loaded| ==> b.pc.LoadedRow?)
    && Distinct(b.loaded)
    && (forall k | 0 <= k < |b.loaded| :: BootAt(loops, b, k))
    && (b.complete ==> forall id | id in loops && Active(loops[id].row) :: id in b.loaded)
  }

  ghost predicate Steady(s: Server) {
    && Ordered(s)
    && (forall id | id in s.loops :: Clean(s.loops[id].row))
    && (forall req | req in s.requests :: OperatorTarget(s.requests[req].target))
    && (s.phase.Restoring? ==> BootInv(s.loops, s.phase.boot))
  }

  lemma {:induction false} ActiveLoopsExact(order: seq<LoopId>, loops: map<LoopId, LoopState>)
    requires Distinct(order)
    ensures forall id :: id in ActiveLoops(order, loops) <==>
      id in order && id in loops && (loops[id].row.status == Running || loops[id].row.status == Paused)
    ensures Distinct(ActiveLoops(order, loops))
  {
    if order != [] {
      var rest := ActiveLoops(order[1..], loops);
      ActiveLoopsExact(order[1..], loops);
      assert order == [order[0]] + order[1..];
      assert order[0] !in order[1..];
      DistinctAfterHead(order[0], rest);
    }
  }

  lemma DistinctAfterHead(x: LoopId, rest: seq<LoopId>)
    requires x !in rest
    requires Distinct(rest)
    ensures Distinct([x] + rest)
  {
    var a := [x] + rest;
    forall j, k | 0 <= j < k < |a|
      ensures a[j] != a[k]
    {
      assert a[k] == rest[k - 1] && rest[k - 1] in rest;
    }
  }

  // A step that changes one loop only, outside startup.
  lemma SetLoopSteady(s: Server, id: LoopId, ls: LoopState)
    requires Steady(s) && id in s.loops && Clean(ls.row) && !s.phase.Restoring?
    ensures Steady(SetLoop(s, id, ls))
  {
  }

  // What an item's end means to restoreOne's checks.
  lemma EndOnChecks(ls: LoopState, i: nat, st: ItemStatus, t: TaskType)
    requires IsInFlight(ls, i) && (st.Terminal? || st.Lost?)
    ensures var ls' := SetItemStatus(ls, i, st);
      && ls'.row == ls.row
      && (!HasInFlight(ls, t) ==> !HasInFlight(ls', t))
      && (!HasWork(ls, t) ==> !HasWork(ls', t))
      && (st.Terminal? && HasWork(ls, t) ==> HasWork(ls', t))
  {
    var ls' := SetItemStatus(ls, i, st);
    if st.Terminal? && HasWork(ls, t) {
      var j :| 0 <= j < |ls.items| && ls.items[j].taskType == t && ls.items[j].Live();
      assert ls'.items[j].taskType == t && ls'.items[j].Live();
    }
  }

  // An environment step during startup.
  lemma EnvironmentKeepsBoot(s: Server, id: LoopId, i: nat, st: ItemStatus, b: Boot)
    requires s.phase.Restoring? && BootInv(s.loops, s.phase.boot) && id in s.loops && IsInFlight(s.loops[id], i)
    requires st.Terminal? || st.Lost?
    requires b == if st.Lost? && s.phase.boot.Passed(id) then s.phase.boot.Excuse(id) else s.phase.boot
    ensures BootInv(s.loops[id := SetItemStatus(s.loops[id], i, st)], b)
  {
    var ls := s.loops[id];
    var ls' := SetItemStatus(ls, i, st);
    forall t
      ensures !HasInFlight(ls, t) ==> !HasInFlight(ls', t)
      ensures !HasWork(ls, t) ==> !HasWork(ls', t)
      ensures st.Terminal? && HasWork(ls, t) ==> HasWork(ls', t)
    {
      EndOnChecks(ls, i, st, t);
    }
    hide HasInFlight, HasWork;
    forall k {:trigger b.loaded[k]} | 0 <= k < |b.loaded|
      ensures BootAt(s.loops[id := ls'], b, k)
    {
      assert BootAt(s.loops, s.phase.boot, k);
    }
  }

  // A restore step that changes the loop at the head, or none, and moves the boot on.
  lemma HeadStepKeepsBoot(loops: map<LoopId, LoopState>, b: Boot, ls: LoopState, b': Boot)
    requires BootInv(loops, b) && b.next < |b.loaded|
    requires b'.loaded == b.loaded && b'.rows == b.rows && b'.complete == b.complete
    requires var id := b.loaded[b.next];
      && id in b.rows
      && (b'.excused == b.excused || b'.excused == b.excused + {id})
      && (|| (b'.next == b.next && AtPc(ls, b.rows[id], b'.pc, id in b'.excused))
          || (b'.next == b.next + 1 && b'.pc.LoadedRow? && Handled(ls, b.rows[id], id in b'.excused)))
    ensures BootInv(loops[b.loaded[b.next] := ls], b')
  {
    hide HasInFlight, HasWork;
    forall k {:trigger b.loaded[k]} | 0 <= k < |b.loaded|
      ensures BootAt(loops[b.loaded[b.next] := ls], b', k)
    {
      assert BootAt(loops, b, k);
    }
  }

  lemma HeadStepSteady(s: Server, ls: LoopState, b: Boot)
    requires Steady(s) && AtHead(s) && Clean(ls.row)
    requires b.loaded == s.phase.boot.loaded && b.rows == s.phase.boot.rows && b.complete == s.phase.boot.complete
    requires b.excused == s.phase.boot.excused || b.excused == s.phase.boot.excused + {Head(s)}
    requires || (b.next == s.phase.boot.next && AtPc(ls, HeadRow(s), b.pc, Head(s) in b.excused))
             || (b.next == s.phase.boot.next + 1 && b.pc.LoadedRow? && Handled(ls, HeadRow(s), Head(s) in b.excused))
    ensures Steady(SetBoot(SetLoop(s, Head(s), ls), b))
  {
    hide BootInv, HasInFlight, HasWork;
    HeadStepKeepsBoot(s.loops, s.phase.boot, ls, b);
  }

  lemma AtHeadFacts(s: Server)
    requires Steady(s) && AtHead(s)
    ensures Clean(s.loops[Head(s)].row) && BootAt(s.loops, s.phase.boot, s.phase.boot.next)
    ensures SetLoop(s, Head(s), s.loops[Head(s)]) == s
  {
    hide AtPc, Handled;
    assert BootAt(s.loops, s.phase.boot, s.phase.boot.next);
    assert s.loops[Head(s) := s.loops[Head(s)]] == s.loops;
  }

  // A row write that fails the loop.
  lemma FailedLoop(ls: LoopState, w: Write)
    requires w.UpdateLoop? && w.input.status == Failed
    ensures var after := ExecAll(ls, [w], ByRestore);
      after.row.status == Failed && after.items == ls.items && Clean(after.row)
  {
    ExecOne(ls, w, ByRestore);
  }

  lemma CheckInFlightSteady(s: Server)
    requires Steady(s) && Enabled(s, CheckInFlight, Racy)
    ensures Steady(Do(s, CheckInFlight))
  {
    hide Steady, BootInv, HasInFlight, HasPendingEvent;
    var b, ls, row := s.phase.boot, s.loops[Head(s)], HeadRow(s);
    AtHeadFacts(s);
    if row.status == Running && row.stage.None? {
      FailedLoop(ls, BadConfigWrites(row)[0]);
      HeadStepSteady(s, ExecAll(ls, BadConfigWrites(row), ByRestore), b.Advance());
    } else if row.status == Running {
      var busy := HasInFlight(ls, TaskOf(row.stage.value));
      HeadStepSteady(s, ls, if busy then b.Advance() else b.(pc := NoTaskInFlight));
    } else {
      HeadStepSteady(s, ls, b.Advance());
    }
  }

  lemma CheckPendingEventSteady(s: Server)
    requires Steady(s) && Enabled(s, CheckPendingEvent, Racy)
    ensures Steady(Do(s, CheckPendingEvent))
  {
    hide Steady, BootInv, HasInFlight, HasPendingEvent;
    var b, ls, row := s.phase.boot, s.loops[Head(s)], HeadRow(s);
    AtHeadFacts(s);
    var pending := HasPendingEvent(ls, TaskOf(row.stage.value));
    HeadStepSteady(s, ls, if pending then b.Advance() else b.(pc := NoEventPending));
  }

  lemma InsertedHasWork(ls: LoopState, t: TaskType)
    ensures HasWork(Exec(ls, InsertItem(t), ByRestore), t)
  {
    var after := Exec(ls, InsertItem(t), ByRestore);
    assert after.items[|ls.items|] == Item(t, ByRestore, InFlight);
  }

  lemma DecideRestoreSteady(s: Server, lookup: Lookup, timedOut: bool)
    requires Steady(s) && Enabled(s, DecideRestore(lookup, timedOut), Racy)
    ensures Steady(Do(s, DecideRestore(lookup, timedOut)))
  {
    hide Steady, BootInv, HasWork, ResolveStageAgent;
    var b, ls, row := s.phase.boot, s.loops[Head(s)], HeadRow(s);
    AtHeadFacts(s);
    match RestoreDecision(row, lookup, timedOut) {
      case Error =>
        HeadStepSteady(s, ls, b.Advance().Excuse(Head(s)));
      case Write(ws) =>
        assert ws == [ws[0]];
        FailedLoop(ls, ws[0]);
        HeadStepSteady(s, ExecAll(ls, ws, ByRestore), b.Advance());
      case Arm(t) =>
        InsertedHasWork(ls, t);
        HeadStepSteady(s, Exec(ls, InsertItem(t), ByRestore), b.(pc := ItemInserted(t)));
      case Skip =>
    }
  }

  lemma WriteRestoredRowKeeps(s: Server)
    requires Steady(s) && Enabled(s, WriteRestoredRow, Racy)
    ensures Steady(Do(s, WriteRestoredRow)) && Do(s, WriteRestoredRow).loops == s.loops
  {
    hide Steady, BootInv, HasWork;
    var b, ls := s.phase.boot, s.loops[Head(s)];
    AtHeadFacts(s);
    RestoreRowWriteIsIdentity(ls, b.pc.taskType);
    HeadStepSteady(s, ls, b.Advance());
  }

  lemma RestoreFailsSteady(s: Server)
    requires Steady(s) && Enabled(s, RestoreFails, Racy)
    ensures Steady(Do(s, RestoreFails)) && Do(s, RestoreFails).loops == s.loops
  {
    hide Steady, BootInv, HasWork, HasInFlight;
    var b, ls := s.phase.boot, s.loops[Head(s)];
    AtHeadFacts(s);
    HeadStepSteady(s, ls, if b.pc.ItemInserted? then b.Advance() else b.Advance().Excuse(Head(s)));
  }

  predicate EnvironmentStep(step: Step) {
    step.EndItem? || step.LoseItem?
  }

  lemma EnvironmentStepSteady(s: Server, step: Step)
    requires Steady(s) && Enabled(s, step, Racy) && EnvironmentStep(step)
    ensures Steady(Do(s, step))
  {
    hide BootInv;
    if s.phase.Restoring? {
      var b := s.phase.boot;
      match step {
        case EndItem(id, i, e) => EnvironmentKeepsBoot(s, id, i, Terminal(e), b);
        case LoseItem(id, i) => EnvironmentKeepsBoot(s, id, i, Lost, if b.Passed(id) then b.Excuse(id) else b);
      }
    }
  }

  predicate LoopStep(step: Step) {
    step.StartLoop? || step.ProjectEvent? || step.OperatorReads? || step.OperatorWrites?
  }

  lemma EffectIsClean(ls: LoopState, i: nat, lookup: Lookup)
    requires Clean(ls.row) && HasEvent(ls, i) && WritesOf(ls, i, lookup).Some?
    ensures Clean(EventEffect(ls, i, lookup).row)
  {
    EffectShape(ls, i, lookup);
    hide EventEffect, WritesOf;
  }

  lemma LoopStepSteady(s: Server, step: Step)
    requires Steady(s) && Enabled(s, step, Racy) && LoopStep(step)
    ensures Steady(Do(s, step))
  {
    hide Start, Project, Steady, EventEffect;
    match step {
      case StartLoop(id, lookup) =>
        StartShape(s.loops[id], lookup);
        SetLoopSteady(s, id, Start(s.loops[id], lookup).value);
      case ProjectEvent(id, i, lookup) =>
        assert Clean(s.loops[id].row) by { SteadyIsClean(s, id); }
        ProjectIsEffect(s.loops[id], i, lookup);
        EffectIsClean(s.loops[id], i, lookup);
        SetLoopSteady(s, id, Project(s.loops[id], i, lookup).value);
      case OperatorReads(_, _, _) => RequestsSteady(s, Do(s, step).requests);
      case OperatorWrites(req) =>
        var r := s.requests[req];
        SetLoopSteady(s, r.loop, OperatorWrite(s.loops[r.loop], r.target, r.stage, r.iteration));
        RequestsSteady(SetLoop(s, r.loop, OperatorWrite(s.loops[r.loop], r.target, r.stage, r.iteration)),
                       s.requests - {req});
    }
  }

  lemma SteadyIsClean(s: Server, id: LoopId)
    requires Steady(s) && id in s.loops
    ensures Clean(s.loops[id].row)
  {
  }

  lemma RequestsSteady(s: Server, requests: map<nat, OperatorRequest>)
    requires Steady(s)
    requires forall req | req in requests && !(req in s.requests && s.requests[req] == requests[req]) ::
        OperatorTarget(requests[req].target)
    ensures Steady(s.(requests := requests))
  {
  }

  lemma LoadActiveSteady(s: Server)
    requires Steady(s) && Enabled(s, LoadActive, Racy)
    ensures Steady(Do(s, LoadActive))
  {
    ActiveLoopsExact(s.order, s.loops);
    LoadedBootInv(s.loops, Do(s, LoadActive).phase.boot);
    hide BootInv;
  }

  lemma LoadedBootInv(loops: map<LoopId, LoopState>, b: Boot)
    requires Distinct(b.loaded)
    requires forall k | 0 <= k < |b.loaded| :: b.loaded[k] in loops
    requires b.complete ==> forall id | id in loops && Active(loops[id].row) :: id in b.loaded
    requires b == Boot(b.loaded, map id | id in b.loaded && id in loops :: loops[id].row, b.complete, 0, LoadedRow, {})
    ensures BootInv(loops, b)
  {
  }

  lemma PhaseStepSteady(s: Server, step: Step)
    requires Steady(s) && Enabled(s, step, Racy) && !EnvironmentStep(step) && !LoopStep(step)
    ensures Steady(Do(s, step))
  {
    match step {
      case LoadActive => LoadActiveSteady(s);
      case CheckInFlight => CheckInFlightSteady(s);
      case CheckPendingEvent => CheckPendingEventSteady(s);
      case DecideRestore(lookup, timedOut) => DecideRestoreSteady(s, lookup, timedOut);
      case WriteRestoredRow => WriteRestoredRowKeeps(s);
      case RestoreFails => RestoreFailsSteady(s);
      case _ =>
    }
  }

  // Every step, in every phase, whatever operators write.
  lemma StepIsSteady(s: Server, step: Step)
    requires Steady(s) && Enabled(s, step, Racy)
    ensures Steady(Do(s, step))
  {
    hide Steady, Do, Enabled;
    if EnvironmentStep(step) {
      EnvironmentStepSteady(s, step);
    } else if LoopStep(step) {
      LoopStepSteady(s, step);
    } else {
      PhaseStepSteady(s, step);
    }
  }

  lemma {:induction false} RunIsSteady(run: seq<Server>, steps: seq<Step>, mode: Mode, k: nat)
    requires IsRun(run, steps, mode) && k < |run|
    ensures Steady(run[k])
  {
    hide BootInv, Do, Enabled, Clean;
    if k > 0 {
      RunIsSteady(run, steps, mode, k - 1);
      assert Moves(run[k - 1], steps[k - 1], run[k], mode);
      EnabledAnyway(run[k - 1], steps[k - 1], mode);
      StepIsSteady(run[k - 1], steps[k - 1]);
    }
  }

  lemma EnabledAnyway(s: Server, step: Step, mode: Mode)
    requires Enabled(s, step, mode)
    ensures Enabled(s, step, Racy)
  {
  }

  // ---------- what runs with permitted operator writes keep ----------

  ghost predicate AllSound(s: Server, mode: Mode) {
    forall id | id in s.loops :: Sound(s.loops[id], mode)
  }

  ghost predicate Inv(s: Server, mode: Mode) {
    KeepsFlight(mode) && Steady(s) && AllSound(s, mode)
  }

  lemma RestoreDecisionFails(ls: LoopState, lookup: Lookup, timedOut: bool, mode: Mode)
    requires Sound(ls, mode) && ls.row.status == Running && ls.row.stage.Some? && LiveItems(ls.items) == 0
    requires RestoreDecision(ls.row, lookup, timedOut).Write?
    ensures var after := ExecAll(ls, RestoreDecision(ls.row, lookup, timedOut).writes, ByRestore);
      Sound(after, mode) && after.row.status == Failed && after.items == ls.items
  {
    RestoreFailsSound(ls, RestoreDecision(ls.row, lookup, timedOut).writes, mode);
  }

  // When restoreOne has seen no work of the stage, the loop has no live item.
  lemma NothingLive(ls: LoopState)
    requires FlightInv(ls) && ls.row.stage.Some? && !HasWork(ls, TaskOf(ls.row.stage.value))
    ensures LiveItems(ls.items) == 0
  {
    AtMostOneLive(ls);
    ChecksSeeEveryLiveItem(ls);
  }

  lemma HeadStepSound(s: Server, ls: LoopState, b: Boot, mode: Mode)
    requires AllSound(s, mode) && AtHead(s) && Sound(ls, mode)
    ensures AllSound(SetBoot(SetLoop(s, Head(s), ls), b), mode)
  {
    hide Sound;
  }

  lemma HeadIsSound(s: Server, mode: Mode)
    requires AllSound(s, mode) && AtHead(s)
    ensures Sound(s.loops[Head(s)], mode)
  {
  }

  lemma CheckInFlightSound(s: Server, mode: Mode)
    requires Inv(s, mode) && Enabled(s, CheckInFlight, mode)
    ensures AllSound(Do(s, CheckInFlight), mode)
  {
    hide Steady, Sound, HasInFlight;
    AtHeadFacts(s);
    if HeadRow(s).status == Running && HeadRow(s).stage.None? {
      var ls := s.loops[Head(s)];
      HeadIsSound(s, mode);
      RestoreFailsSound(ls, BadConfigWrites(HeadRow(s)), mode);
      HeadStepSound(s, ExecAll(ls, BadConfigWrites(HeadRow(s)), ByRestore), s.phase.boot.Advance(), mode);
    }
  }

  lemma StuckHead(s: Server, mode: Mode)
    requires Inv(s, mode) && AtHead(s) && s.phase.boot.pc.NoEventPending?
    ensures var ls := s.loops[Head(s)];
      && Sound(ls, mode) && ls.row == HeadRow(s) && ls.row.status == Running && ls.row.stage.Some?
      && LiveItems(ls.items) == 0
  {
    hide Steady, FlightInv, LoopInv, HasWork, LiveItems;
    AtHeadFacts(s);
    HeadIsSound(s, mode);
    NothingLive(s.loops[Head(s)]);
  }

  // What deciding on a loop without live work makes of it.
  lemma DecisionSound(ls: LoopState, lookup: Lookup, timedOut: bool, mode: Mode)
    requires Sound(ls, mode) && ls.row.status == Running && ls.row.stage.Some? && LiveItems(ls.items) == 0
    ensures var out := RestoreDecision(ls.row, lookup, timedOut);
      && (out.Write? ==> Sound(ExecAll(ls, out.writes, ByRestore), mode))
      && (out.Arm? ==> Sound(Exec(ls, InsertItem(out.taskType), ByRestore), mode))
  {
    hide Sound, LiveItems, ExecAll, Exec;
    match RestoreDecision(ls.row, lookup, timedOut) {
      case Write(_) => RestoreDecisionFails(ls, lookup, timedOut, mode);
      case Arm(t) => RestoreInsertSound(ls, t, mode);
      case _ =>
    }
  }

  lemma DecideRestoreSound(s: Server, lookup: Lookup, timedOut: bool, mode: Mode)
    requires Inv(s, mode) && AtHead(s) && s.phase.boot.pc.NoEventPending? && HeadRow(s).stage.Some?
    ensures AllSound(DoDecideRestore(s, lookup, timedOut), mode)
  {
    StuckHead(s, mode);
    DecisionSound(s.loops[Head(s)], lookup, timedOut, mode);
    hide Steady, Sound, LiveItems, RestoreDecision, ExecAll, Exec;
  }

  lemma DecideRestoreKeeps(s: Server, lookup: Lookup, timedOut: bool, mode: Mode)
    requires Inv(s, mode) && Enabled(s, DecideRestore(lookup, timedOut), mode)
    ensures Inv(Do(s, DecideRestore(lookup, timedOut)), mode)
  {
    hide Steady, AllSound, DoDecideRestore;
    DecideRestoreSteady(s, lookup, timedOut);
    DecideRestoreSound(s, lookup, timedOut, mode);
  }

  lemma LoopStepSound(s: Server, step: Step, mode: Mode)
    requires Inv(s, mode) && Enabled(s, step, mode) && (LoopStep(step) || EnvironmentStep(step))
    ensures AllSound(Do(s, step), mode)
  {
    hide Ordered, BootInv, Sound, Start, Project, Permitted;
    match step {
      case StartLoop(id, lookup) => StartSound(s.loops[id], lookup, mode);
      case ProjectEvent(id, i, lookup) => ProjectSound(s.loops[id], i, lookup, mode);
      case OperatorReads(_, _, _) =>
      case OperatorWrites(req) =>
        var r := s.requests[req];
        PermittedIff(s.loops[r.loop], r.target, r.stage, r.iteration, mode);
      case EndItem(id, i, e) => EndSound(s.loops[id], i, Terminal(e), mode);
      case LoseItem(id, i) => EndSound(s.loops[id], i, Lost, mode);
    }
  }

  lemma PhaseStepSound(s: Server, step: Step, mode: Mode)
    requires Inv(s, mode) && Enabled(s, step, mode) && !EnvironmentStep(step) && !LoopStep(step)
    ensures AllSound(Do(s, step), mode)
  {
    hide BootInv, Sound, HasInFlight, HasPendingEvent;
    match step {
      case CreateLoop(id, row) => FreshSound(row, mode);
      case CheckInFlight => CheckInFlightSound(s, mode);
      case DecideRestore(lookup, timedOut) => DecideRestoreSound(s, lookup, timedOut, mode);
      case WriteRestoredRow => WriteRestoredRowKeeps(s);
      case _ =>
    }
  }

  // Every step, in every phase, keeps the invariant if every operator's write does.
  lemma StepKeepsInv(s: Server, step: Step, mode: Mode)
    requires Inv(s, mode) && Enabled(s, step, mode)
    ensures Enabled(s, step, Racy) && Inv(Do(s, step), mode)
  {
    EnabledAnyway(s, step, mode);
    hide Steady, AllSound, Do, Enabled;
    StepIsSteady(s, step);
    if LoopStep(step) || EnvironmentStep(step) {
      LoopStepSound(s, step, mode);
    } else {
      PhaseStepSound(s, step, mode);
    }
  }

  lemma {:induction false} RunKeepsInv(run: seq<Server>, steps: seq<Step>, k: nat, mode: Mode)
    requires IsRun(run, steps, mode) && k < |run| && KeepsFlight(mode)
    ensures Inv(run[k], mode)
  {
    hide BootInv, Sound, Do, Enabled;
    if k > 0 {
      RunKeepsInv(run, steps, k - 1, mode);
      assert Moves(run[k - 1], steps[k - 1], run[k], mode);
      StepKeepsInv(run[k - 1], steps[k - 1], mode);
    }
  }
}
