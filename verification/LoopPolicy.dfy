// The decisions of server/internal/loop/coordinator.go and the writes they
// stand for, with each loop's state as a value.
module LoopPolicy {
  import opened Base
  import opened LoopTypes

  datatype Decision =
    | CreateTask(taskType: TaskType, bump: nat)
    | Complete(prUrl: string, prNumber: int, branch: string)
    | Fail(reason: FailureReason)
    | Noop

  predicate Approved(r: Option<TaskResult>) {
    r.Some? && r.value.approved == Some(true)
  }

  function DecideNextStage(row: LoopRow, last: Option<TaskResult>): Decision {
    if row.status == Paused || row.status == Cancelled || row.status == Done || row.status == Failed then Noop
    else match row.stage
      case None => Fail(Unrecoverable)
      case Some(Plan) => CreateTask(LoopDevelop, 0)
      case Some(Develop) => CreateTask(LoopReview, 0)
      case Some(Review) =>
        if Approved(last) then Complete(last.value.prUrl, last.value.PrNumberOrZero(), last.value.branch)
        else if row.iteration >= row.maxIterations then Fail(MaxIterations)
        else CreateTask(LoopFix, 1)
      case Some(Fix) => CreateTask(LoopReview, 0)
  }

  // What the agent query returns for the configured id.
  datatype Lookup = Found(workspace: nat, archived: bool, hasRuntime: bool) | NotFound | QueryFailed

  datatype Resolution = Resolved | BadConfig | LookupFailed

  function ResolveStageAgent(row: LoopRow, t: TaskType, lookup: Lookup): Resolution {
    match row.StageAgent(StageOf(t))
    case None => BadConfig
    case Some(EmptyId) => BadConfig
    case Some(BlankId) => BadConfig
    case Some(MalformedId) => BadConfig
    case Some(Id(_)) =>
      match lookup
      case NotFound => BadConfig
      case QueryFailed => LookupFailed
      case Found(workspace, archived, hasRuntime) =>
        if workspace != row.workspace || archived || !hasRuntime then BadConfig else Resolved
  }

  // One statement of a transaction.
  datatype Write =
    | InsertItem(taskType: TaskType)
    | UpdateLoop(input: UpdateInput)
    | RecordPr(url: string, number: int, branch: string)

  function Exec(ls: LoopState, w: Write, origin: Origin): LoopState {
    match w
    case InsertItem(t) => ls.(items := ls.items + [Item(t, origin, InFlight)])
    case UpdateLoop(u) => ls.(row := UpdateRow(ls.row, u))
    case RecordPr(url, number, branch) => ls.(row := SetPr(ls.row, url, number, branch))
  }

  function ExecAll(ls: LoopState, ws: seq<Write>, origin: Origin): LoopState
    decreases |ws|
  {
    if ws == [] then ls else ExecAll(Exec(ls, ws[0], origin), ws[1..], origin)
  }

  function StageWrite(row: LoopRow, t: TaskType, bump: nat): Write {
    UpdateLoop(UpdateInput(Running, Some(StageOf(t)), Some(row.iteration + bump), None, false, false))
  }

  function CreateTaskWrites(row: LoopRow, t: TaskType, bump: nat): seq<Write> {
    [InsertItem(t), StageWrite(row, t, bump)]
  }

  // failInvalidConfiguration keeps stage and iteration; an ordinary failure clears both.
  function BadConfigWrites(row: LoopRow): seq<Write> {
    [UpdateLoop(UpdateInput(Failed, row.stage, Some(row.iteration), Some(InvalidConfig), false, true))]
  }

  function FailWrites(reason: FailureReason): seq<Write> {
    [UpdateLoop(UpdateInput(Failed, None, None, Some(reason), false, true))]
  }

  function CompleteWrites(d: Decision): seq<Write>
    requires d.Complete?
  {
    [RecordPr(d.prUrl, d.prNumber, d.branch),
     UpdateLoop(UpdateInput(Done, None, None, None, false, true))]
  }

  // None is an error that rolls the transaction back.
  function DecisionWrites(row: LoopRow, d: Decision, lookup: Lookup): Option<seq<Write>> {
    match d
    case Noop => Some([])
    case Fail(reason) => Some(FailWrites(reason))
    case Complete(_, _, _) => Some(CompleteWrites(d))
    case CreateTask(t, bump) =>
      match ResolveStageAgent(row, t, lookup)
      case Resolved => Some(CreateTaskWrites(row, t, bump))
      case BadConfig => Some(BadConfigWrites(row))
      case LookupFailed => None
  }

  // The guard of LifecycleProjector.apply.
  predicate Applies(row: LoopRow, t: TaskType) {
    row.status == Running && row.stage == Some(StageOf(t))
  }

  // LifecycleProjector.apply: the writes a terminal event of an item of type t
  // stands for, in a loop whose row is as given.
  function EventWrites(row: LoopRow, t: TaskType, e: Event, lookup: Lookup): Option<seq<Write>> {
    if e.version != 1 then None
    else if !Applies(row, t) then Some([])
    else if e.kind.Rejected? then DecisionWrites(row, Fail(InvalidConfig), lookup)
    else if !e.runUsable then None
    else match e.kind
      case Completed(r) => DecisionWrites(row, DecideNextStage(row, r), lookup)
      case RunFailed(reason) => DecisionWrites(row, Fail(reason), lookup)
      case Rejected => None
  }

  // The atomic effect of projecting item i's event: its writes and its receipt.
  function Project(ls: LoopState, i: nat, lookup: Lookup): Option<LoopState>
    requires IsTerminal(ls, i)
  {
    var e := ls.items[i].status.event;
    match EventWrites(ls.row, ls.items[i].taskType, e, lookup)
    case None => None
    case Some(ws) => Some(WithReceipt(ExecAll(ls, ws, ByProjection), i, e))
  }

  function WithReceipt(ls: LoopState, i: nat, e: Event): LoopState {
    if i < |ls.items| then SetItemStatus(ls, i, Receipted(e)) else ls
  }

  // The item has ended with an event, receipted or not.
  predicate HasEvent(ls: LoopState, i: nat) {
    i < |ls.items| && (ls.items[i].status.Terminal? || ls.items[i].status.Receipted?)
  }

  function WritesOf(ls: LoopState, i: nat, lookup: Lookup): Option<seq<Write>>
    requires HasEvent(ls, i)
  {
    EventWrites(ls.row, ls.items[i].taskType, ls.items[i].status.event, lookup)
  }

  // The writes of item i's event and its receipt, which it may have already.
  function EventEffect(ls: LoopState, i: nat, lookup: Lookup): LoopState
    requires HasEvent(ls, i) && WritesOf(ls, i, lookup).Some?
  {
    WithReceipt(ExecAll(ls, WritesOf(ls, i, lookup).value, ByProjection), i, ls.items[i].status.event)
  }

  function StartWrites(row: LoopRow): seq<Write> {
    CreateTaskWrites(row, LoopPlan, 0) +
    [UpdateLoop(UpdateInput(Running, Some(Plan), None, None, true, false))]
  }

  function Start(ls: LoopState, lookup: Lookup): Option<LoopState> {
    if ls.row.status == Pending && ResolveStageAgent(ls.row, LoopPlan, lookup) == Resolved
    then Some(ExecAll(ls, StartWrites(ls.row), ByStart))
    else None
  }

  // transitionLoopStatus writes back the stage and iteration it read earlier.
  function OperatorWrite(ls: LoopState, target: Status, stage: Option<Stage>, iteration: int): LoopState {
    Exec(ls, UpdateLoop(UpdateInput(target, stage, Some(iteration), None, false, false)), ByStart)
  }

  predicate OperatorTarget(target: Status) {
    target == Paused || target == Running || target == Cancelled
  }

  datatype RestoreOutcome = Skip | Write(writes: seq<Write>) | Arm(taskType: TaskType) | Error

  // restoreOne past its two liveness checks, on the row loaded at startup.
  function RestoreDecision(row: LoopRow, lookup: Lookup, timedOut: bool): RestoreOutcome
    requires row.stage.Some?
  {
    var t := TaskOf(row.stage.value);
    match ResolveStageAgent(row, t, lookup)
    case BadConfig => Write(BadConfigWrites(row))
    case LookupFailed => Error
    case Resolved =>
      if row.started && timedOut then Write(FailWrites(LoopTimeout)) else Arm(t)
  }

  // restoreOne on one loop with nothing interleaved.
  function RestoreOutcomeOf(ls: LoopState, lookup: Lookup, timedOut: bool): RestoreOutcome {
    if ls.row.status != Running then Skip
    else match ls.row.stage
      case None => Write(BadConfigWrites(ls.row))
      case Some(s) =>
        if HasInFlight(ls, TaskOf(s)) || HasPendingEvent(ls, TaskOf(s)) then Skip
        else RestoreDecision(ls.row, lookup, timedOut)
  }

  function RestoreOne(ls: LoopState, lookup: Lookup, timedOut: bool): LoopState {
    match RestoreOutcomeOf(ls, lookup, timedOut)
    case Skip => ls
    case Error => ls
    case Write(ws) => ExecAll(ls, ws, ByRestore)
    case Arm(t) => ExecAll(ls, CreateTaskWrites(ls.row, t, 0), ByRestore)
  }

  // The id configured for a stage is a well-formed one: the stage's own, unless
  // it has none or the empty string, and the loop's then.
  predicate HasAgentId(row: LoopRow, s: Stage) {
    if s in row.stageAgents && row.stageAgents[s] != EmptyId then row.stageAgents[s].Id?
    else row.agent.Some? && row.agent.value.Id?
  }

  // The agent is not there, or another workspace's, or archived, or has no runtime.
  predicate Unusable(row: LoopRow, lookup: Lookup) {
    || lookup == NotFound
    || (lookup.Found? && (lookup.workspace != row.workspace || lookup.archived || !lookup.hasRuntime))
  }

  // A stage's work can be enqueued exactly if the agent it is to run on, the
  // stage's own or else the loop's, is there, of the loop's workspace, in use
  // and on a runtime. It cannot for now exactly if the query for a well-formed id
  // failed; in all other cases the configuration is at fault.
  lemma ResolvedIff(row: LoopRow, t: TaskType, lookup: Lookup)
    ensures ResolveStageAgent(row, t, lookup).Resolved? <==>
      && (|| (StageOf(t) in row.stageAgents && row.stageAgents[StageOf(t)].Id?)
          || ((StageOf(t) in row.stageAgents ==> row.stageAgents[StageOf(t)] == EmptyId)
              && row.agent.Some? && row.agent.value.Id?))
      && lookup == Found(row.workspace, false, true)
    ensures ResolveStageAgent(row, t, lookup).LookupFailed? <==> HasAgentId(row, StageOf(t)) && lookup == QueryFailed
    ensures ResolveStageAgent(row, t, lookup).BadConfig? <==> !HasAgentId(row, StageOf(t)) || Unusable(row, lookup)
  {
  }
}
