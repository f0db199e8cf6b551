// Startup recovery of one loop: server/internal/loop/coordinator.go, restoreOne.
module LoopRecovery {
  import opened Base
  import opened LoopTypes
  import opened LoopPolicy
  import opened LoopInvariant

  // The in-flight and pending-event checks look at one task type only; they
  // still see every live item of the loop.
  lemma ChecksSeeEveryLiveItem(ls: LoopState)
    requires FlightInv(ls) && ls.row.stage.Some?
    ensures var t := TaskOf(ls.row.stage.value);
      LiveItems(ls.items) == 1 <==> HasInFlight(ls, t) || HasPendingEvent(ls, t)
  {
    AtMostOneLive(ls);
    var t := TaskOf(ls.row.stage.value);
    if LiveItems(ls.items) == 1 {
      var k := |ls.items| - 1;
      assert ls.items[k].taskType == t && ls.items[k].Live();
    }
    if LiveItems(ls.items) == 0 {
      assert forall i | 0 <= i < |ls.items| :: !ls.items[i].Live();
    }
  }

  // The guard a resume lacks: whatever status the loop is resumed from, it then
  // runs with live work exactly if restoreOne's two checks, made before, see some.
  lemma ResumeGuardIff(ls: LoopState)
    requires FlightInv(ls) && ls.row.stage.Some?
    ensures var resumed := OperatorWrite(ls, Running, ls.row.stage, ls.row.iteration);
      var t := TaskOf(ls.row.stage.value);
      && FlightInv(resumed) && resumed.row.status == Running
      && (LiveItems(resumed.items) == 1 <==> HasInFlight(ls, t) || HasPendingEvent(ls, t))
  {
    ChecksSeeEveryLiveItem(ls);
    AtMostOneLive(ls);
    FlightWriteIff(ls, Running, ls.row.stage, ls.row.iteration);
  }

  // A loop that is not running, or has a live item, is left alone.
  lemma RestoreLeavesLiveLoops(ls: LoopState, lookup: Lookup, timedOut: bool)
    requires FlightInv(ls) && (ls.row.status == Running ==> ls.row.stage.Some? && LiveItems(ls.items) == 1)
    ensures RestoreOutcomeOf(ls, lookup, timedOut).Skip?
    ensures RestoreOne(ls, lookup, timedOut) == ls
  {
    if ls.row.status == Running {
      ChecksSeeEveryLiveItem(ls);
    }
  }

  // After restoring a loop without an error: it still is a sound loop; and if it
  // is running it has exactly one live item and an unchanged row.
  lemma RestoreRearms(ls: LoopState, lookup: Lookup, timedOut: bool, mode: Mode)
    requires Sound(ls, mode) && !RestoreOutcomeOf(ls, lookup, timedOut).Error?
    ensures var after := RestoreOne(ls, lookup, timedOut);
      && Sound(after, mode)
      && (after.row.status == Running ==> after.row.stage.Some? && LiveItems(after.items) == 1 && after.row == ls.row)
  {
    hide LoopInv;
    var out := RestoreOutcomeOf(ls, lookup, timedOut);
    if ls.row.status == Running {
      if ls.row.stage == None {
        RestoreFailsSound(ls, BadConfigWrites(ls.row), mode);
      } else {
        AtMostOneLive(ls);
        ChecksSeeEveryLiveItem(ls);
        if out.Arm? {
          ArmKeeps(ls, out.taskType, mode);
        } else if out.Write? {
          RestoreFailsSound(ls, out.writes, mode);
        }
      }
    }
  }

  // Restoring any loop again, with any agent lookup and any clock, changes nothing.
  lemma SecondRestoreIsNoop(ls: LoopState, lookup: Lookup, timedOut: bool, lookup2: Lookup, timedOut2: bool)
    requires !RestoreOutcomeOf(ls, lookup, timedOut).Error?
    ensures RestoreOne(RestoreOne(ls, lookup, timedOut), lookup2, timedOut2) == RestoreOne(ls, lookup, timedOut)
  {
    match RestoreOutcomeOf(ls, lookup, timedOut) {
      case Skip =>
      case Write(ws) => ExecOne(ls, ws[0], ByRestore);
      case Arm(t) =>
        ExecCreateTask(ls, t, 0, ByRestore);
        assert RestoreOne(ls, lookup, timedOut).items[|ls.items|] == Item(t, ByRestore, InFlight);
    }
  }

  lemma ArmKeeps(ls: LoopState, t: TaskType, mode: Mode)
    requires Sound(ls, mode) && ls.row.status == Running && ls.row.stage == Some(StageOf(t))
    requires LiveItems(ls.items) == 0
    ensures var after := ExecAll(ls, CreateTaskWrites(ls.row, t, 0), ByRestore);
      && after == Exec(ls, InsertItem(t), ByRestore)
      && Sound(after, mode) && LiveItems(after.items) == 1 && after.row == ls.row
  {
    RestoreRowWriteIsIdentity(ls, t);
    hide FlightInv, LoopInv;
    ExecTwo(ls, InsertItem(t), StageWrite(ls.row, t, 0), ByRestore);
    RestoreInsertSound(ls, t, mode);
  }

  // A crash between inserting the item and writing the row: the next restore
  // finds the item and leaves everything as the uninterrupted restore would have.
  lemma RestoreSurvivesCrashAfterInsert(ls: LoopState, lookup: Lookup, timedOut: bool, lookup2: Lookup, timedOut2: bool)
    requires Clean(ls.row) && RestoreOutcomeOf(ls, lookup, timedOut).Arm?
    ensures var t := RestoreOutcomeOf(ls, lookup, timedOut).taskType;
      var crashed := Exec(ls, InsertItem(t), ByRestore);
      && crashed == RestoreOne(ls, lookup, timedOut)
      && RestoreOne(crashed, lookup2, timedOut2) == crashed
  {
    var t := RestoreOutcomeOf(ls, lookup, timedOut).taskType;
    ExecTwo(ls, InsertItem(t), StageWrite(ls.row, t, 0), ByRestore);
    RestoreRowWriteIsIdentity(Exec(ls, InsertItem(t), ByRestore), t);
    SecondRestoreIsNoop(ls, lookup, timedOut, lookup2, timedOut2);
  }

  // What restoring a running loop does and when, each way round: it is failed
  // for its configuration, failed for its age, re-armed, or left alone, with an
  // error exactly if the query for its agent failed.
  lemma RestoreOutcomes(ls: LoopState, lookup: Lookup, timedOut: bool)
    requires FlightInv(ls) && ls.row.status == Running
    ensures var after := RestoreOne(ls, lookup, timedOut);
      var stuck := ls.row.stage.Some? && LiveItems(ls.items) == 0;
      var misconfigured := stuck && (!HasAgentId(ls.row, ls.row.stage.value) || Unusable(ls.row, lookup));
      var usable := stuck && HasAgentId(ls.row, ls.row.stage.value) && lookup == Found(ls.row.workspace, false, true);
      && (RestoreOutcomeOf(ls, lookup, timedOut).Error? <==>
            stuck && HasAgentId(ls.row, ls.row.stage.value) && lookup == QueryFailed)
      && (after.row.failure == Some(InvalidConfig) <==> ls.row.stage.None? || misconfigured)
      && (after.row.failure == Some(LoopTimeout) <==> usable && ls.row.started && timedOut)
      && (|after.items| == |ls.items| + 1 <==> usable && !(ls.row.started && timedOut))
      && (after.row.failure == Some(InvalidConfig) ==>
          after.row == ls.row.(status := Failed, failure := Some(InvalidConfig), completed := true))
      && (after.row.failure == Some(LoopTimeout) ==> after.row == ls.row.(status := Failed, stage := None,
          iteration := 0, failure := Some(LoopTimeout), completed := true))
      && (after.row.failure == None ==> after.row == ls.row)
      && (if |after.items| == |ls.items| + 1
          then after.items == ls.items + [Item(TaskOf(ls.row.stage.value), ByRestore, InFlight)]
          else after.items == ls.items)
  {
    BadConfigFlight(ls);
    ExecOne(ls, FailWrites(LoopTimeout)[0], ByRestore);
    if ls.row.stage.Some? {
      ResolvedIff(ls.row, TaskOf(ls.row.stage.value), lookup);
      ChecksSeeEveryLiveItem(ls);
      AtMostOneLive(ls);
      if LiveItems(ls.items) == 0 {
        ExecCreateTask(ls, TaskOf(ls.row.stage.value), 0, ByRestore);
      }
    }
    hide LiveItems, ResolveStageAgent, ExecAll, HasInFlight, HasPendingEvent, HasAgentId, Unusable;
  }
}
