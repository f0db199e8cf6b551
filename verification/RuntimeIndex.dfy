// The daemon's index of runtimes by id and its watched workspaces:
// loadWatchedWorkspaces and reloadWorkspaces of server/internal/daemon/daemon.go.
module RuntimeIndex {
  import opened Base

  type WorkspaceId = nat
  type RuntimeId = nat

  datatype Runtime = Runtime(id: RuntimeId, provider: string)

  // What registering a workspace's runtimes returns; an empty list counts as a
  // failure.
  type Answer = Option<seq<Runtime>>

  type Registration = WorkspaceId -> Answer

  datatype Watched = Watched(workspaces: map<WorkspaceId, seq<RuntimeId>>, index: map<RuntimeId, Runtime>)

  const NOTHING := Watched(map[], map[])

  predicate Succeeds(a: Answer) {
    a.Some? && a.value != []
  }

  predicate Registers(reg: Registration, ws: WorkspaceId) {
    Succeeds(reg(ws))
  }

  ghost predicate AllRegister(reg: Registration, config: seq<WorkspaceId>) {
    forall ws | ws in config :: reg(ws).Some? && reg(ws).value != []
  }

  // The server never gives two workspaces a runtime id in common.
  ghost predicate OwnIds(reg: Registration, owner: RuntimeId -> WorkspaceId) {
    forall ws | Registers(reg, ws) :: OwnedBy(reg(ws).value, owner, ws)
  }

  ghost predicate OwnedBy(rts: seq<Runtime>, owner: RuntimeId -> WorkspaceId, ws: WorkspaceId) {
    forall k | 0 <= k < |rts| :: owner(rts[k].id) == ws
  }

  function IdsOf(rts: seq<Runtime>): (ids: seq<RuntimeId>)
    ensures |ids| == |rts| && forall k | 0 <= k < |rts| :: ids[k] == rts[k].id
  {
    if rts == [] then [] else IdsOf(rts[..|rts| - 1]) + [Last(rts).id]
  }

  function AddToIndex(index: map<RuntimeId, Runtime>, rts: seq<Runtime>): map<RuntimeId, Runtime> {
    if rts == [] then index else AddToIndex(index, rts[..|rts| - 1])[Last(rts).id := Last(rts)]
  }

  function Add(w: Watched, ws: WorkspaceId, rts: seq<Runtime>): Watched {
    Watched(w.workspaces[ws := IdsOf(rts)], AddToIndex(w.index, rts))
  }

  function Drop(w: Watched, ws: WorkspaceId): Watched {
    if ws in w.workspaces
    then Watched(w.workspaces - {ws}, w.index - set id | id in w.workspaces[ws])
    else w
  }

  function AsSet(config: seq<WorkspaceId>): set<WorkspaceId> {
    set ws | ws in config
  }

  // ---------- agreement ----------

  ghost predicate WatchedRuntime(w: Watched, id: RuntimeId) {
    exists ws | ws in w.workspaces :: id in w.workspaces[ws]
  }

  // The index has exactly the runtimes of the watched workspaces.
  ghost predicate Agrees(w: Watched) {
    forall id :: id in w.index <==> WatchedRuntime(w, id)
  }

  ghost predicate Inv(w: Watched, owner: RuntimeId -> WorkspaceId) {
    && Agrees(w)
    && (forall id | id in w.index :: w.index[id].id == id)
    && forall ws, id | ws in w.workspaces && id in w.workspaces[ws] :: owner(id) == ws
  }

  // In the index, but of no watched workspace.
  ghost predicate Stale(w: Watched, id: RuntimeId) {
    id in w.index && !WatchedRuntime(w, id)
  }

  // What holds even when the index has stale runtimes.
  ghost predicate Covers(w: Watched, owner: RuntimeId -> WorkspaceId) {
    && (forall id | WatchedRuntime(w, id) :: id in w.index)
    && (forall id | id in w.index :: w.index[id].id == id)
    && forall ws, id | ws in w.workspaces && id in w.workspaces[ws] :: owner(id) == ws
  }

  lemma AgreesIff(w: Watched)
    requires forall id | WatchedRuntime(w, id) :: id in w.index
    ensures Agrees(w) <==> forall id :: !Stale(w, id)
  {
    if forall id :: !Stale(w, id) {
      forall id
        ensures id in w.index <==> WatchedRuntime(w, id)
      {
        assert !Stale(w, id);
      }
    }
  }

  lemma CoversIff(w: Watched, owner: RuntimeId -> WorkspaceId)
    ensures Inv(w, owner) <==> Covers(w, owner) && forall id :: !Stale(w, id)
  {
    if Inv(w, owner) || Covers(w, owner) {
      AgreesIff(w);
    }
  }

  lemma {:induction false} AddToIndexKeys(index: map<RuntimeId, Runtime>, rts: seq<Runtime>)
    ensures forall id :: id in AddToIndex(index, rts) <==> id in index || id in IdsOf(rts)
    ensures (forall id | id in index :: index[id].id == id) ==>
      forall id | id in AddToIndex(index, rts) :: AddToIndex(index, rts)[id].id == id
  {
    if rts != [] {
      AddToIndexKeys(index, rts[..|rts| - 1]);
      assert IdsOf(rts) == IdsOf(rts[..|rts| - 1]) + [Last(rts).id];
    }
  }

  // rt is the last runtime with this id in an answer.
  ghost predicate LastNamed(rts: seq<Runtime>, id: RuntimeId, rt: Runtime) {
    exists j :: LastAt(rts, j, id, rt)
  }

  ghost predicate LastAt(rts: seq<Runtime>, j: int, id: RuntimeId, rt: Runtime) {
    && 0 <= j < |rts| && rts[j] == rt && rt.id == id
    && forall i | j < i < |rts| :: rts[i].id != id
  }

  // An index entry is the runtime of the answer itself, or as it was.
  lemma {:induction false} AddToIndexValues(index: map<RuntimeId, Runtime>, rts: seq<Runtime>, id: RuntimeId)
    requires id in AddToIndex(index, rts)
    ensures if id in IdsOf(rts) then LastNamed(rts, id, AddToIndex(index, rts)[id])
        else id in index && AddToIndex(index, rts)[id] == index[id]
  {
    if rts != [] {
      var front := rts[..|rts| - 1];
      assert IdsOf(rts) == IdsOf(front) + [Last(rts).id];
      if id == Last(rts).id {
        assert LastAt(rts, |rts| - 1, id, Last(rts));
      } else {
        AddToIndexValues(index, front, id);
        if id in IdsOf(front) {
          var j :| LastAt(front, j, id, AddToIndex(index, rts)[id]);
          assert LastAt(rts, j, id, AddToIndex(index, rts)[id]);
        }
      }
    }
  }

  lemma WatchedAfterAdd(w: Watched, ws: WorkspaceId, rts: seq<Runtime>, id: RuntimeId)
    requires ws !in w.workspaces
    ensures WatchedRuntime(Add(w, ws, rts), id) <==> WatchedRuntime(w, id) || id in IdsOf(rts)
  {
    hide AddToIndex;
    var w' := Add(w, ws, rts);
    if id in IdsOf(rts) {
      assert id in w'.workspaces[ws];
    } else if WatchedRuntime(w, id) {
      var v :| v in w.workspaces && id in w.workspaces[v];
      assert id in w'.workspaces[v];
    }
  }

  // Watching one more workspace leaves stale exactly the runtimes it does not name.
  lemma AddOnStale(w: Watched, ws: WorkspaceId, rts: seq<Runtime>, owner: RuntimeId -> WorkspaceId)
    requires Covers(w, owner) && ws !in w.workspaces && OwnedBy(rts, owner, ws)
    ensures Covers(Add(w, ws, rts), owner)
    ensures forall id :: Stale(Add(w, ws, rts), id) <==> Stale(w, id) && id !in IdsOf(rts)
  {
    AddToIndexKeys(w.index, rts);
    OwnedIds(rts, owner, ws);
    forall id
      ensures WatchedRuntime(Add(w, ws, rts), id) <==> WatchedRuntime(w, id) || id in IdsOf(rts)
    {
      WatchedAfterAdd(w, ws, rts, id);
    }
    hide WatchedRuntime, AddToIndex;
  }

  lemma AddKeeps(w: Watched, ws: WorkspaceId, rts: seq<Runtime>, owner: RuntimeId -> WorkspaceId)
    requires Inv(w, owner) && ws !in w.workspaces && OwnedBy(rts, owner, ws)
    ensures Inv(Add(w, ws, rts), owner)
  {
    hide WatchedRuntime, AddToIndex, Stale, Covers, Inv;
    CoversIff(w, owner);
    AddOnStale(w, ws, rts, owner);
    CoversIff(Add(w, ws, rts), owner);
  }

  lemma WatchedAfterDrop(w: Watched, ws: WorkspaceId, owner: RuntimeId -> WorkspaceId, id: RuntimeId)
    requires Covers(w, owner)
    ensures WatchedRuntime(Drop(w, ws), id) <==>
      WatchedRuntime(w, id) && !(ws in w.workspaces && id in w.workspaces[ws])
  {
    var w' := Drop(w, ws);
    if WatchedRuntime(w', id) {
      var v :| v in w'.workspaces && id in w'.workspaces[v];
      assert id in w.workspaces[v] && owner(id) == v;
    } else if WatchedRuntime(w, id) {
      var v :| v in w.workspaces && id in w.workspaces[v];
      assert v !in w'.workspaces;
    }
  }

  // Dropping one leaves the stale ones as they are.
  lemma DropOnStale(w: Watched, ws: WorkspaceId, owner: RuntimeId -> WorkspaceId)
    requires Covers(w, owner)
    ensures Covers(Drop(w, ws), owner)
    ensures forall id :: Stale(Drop(w, ws), id) <==> Stale(w, id)
  {
    forall id
      ensures WatchedRuntime(Drop(w, ws), id) <==>
        WatchedRuntime(w, id) && !(ws in w.workspaces && id in w.workspaces[ws])
      ensures ws in w.workspaces && id in w.workspaces[ws] ==> WatchedRuntime(w, id)
    {
      WatchedAfterDrop(w, ws, owner, id);
    }
    hide WatchedRuntime;
  }

  lemma DropKeeps(w: Watched, ws: WorkspaceId, owner: RuntimeId -> WorkspaceId)
    requires Inv(w, owner)
    ensures Inv(Drop(w, ws), owner)
  {
    hide WatchedRuntime, Stale, Covers, Inv;
    CoversIff(w, owner);
    DropOnStale(w, ws, owner);
    CoversIff(Drop(w, ws), owner);
  }

  lemma WatchedAfterReplace(w: Watched, ws: WorkspaceId, first: seq<Runtime>, second: seq<Runtime>)
    requires ws !in w.workspaces
    ensures forall id ::
      WatchedRuntime(Add(Add(w, ws, first), ws, second), id) <==> WatchedRuntime(w, id) || id in IdsOf(second)
  {
    hide AddToIndex;
    var twice := Add(Add(w, ws, first), ws, second);
    forall id
      ensures WatchedRuntime(twice, id) <==> WatchedRuntime(w, id) || id in IdsOf(second)
    {
      if WatchedRuntime(w, id) {
        var v :| v in w.workspaces && id in w.workspaces[v];
        assert id in twice.workspaces[v];
      }
      if id in IdsOf(second) {
        assert id in twice.workspaces[ws];
      }
    }
  }

  // Why config ids must be unique: registering a workspace a second time leaves
  // the index in agreement exactly if no id of the first response is missing
  // from the second.
  lemma AddedTwiceAgreesIff(w: Watched, ws: WorkspaceId, first: seq<Runtime>, second: seq<Runtime>,
      owner: RuntimeId -> WorkspaceId)
    requires Inv(w, owner) && ws !in w.workspaces && OwnedBy(first, owner, ws) && OwnedBy(second, owner, ws)
    ensures Agrees(Add(Add(w, ws, first), ws, second)) <==> forall id | id in IdsOf(first) :: id in IdsOf(second)
  {
    hide AddToIndex;
    var once := Add(w, ws, first);
    var twice := Add(once, ws, second);
    AddKeeps(w, ws, first, owner);
    AddToIndexKeys(w.index, first);
    AddToIndexKeys(once.index, second);
    WatchedAfterReplace(w, ws, first, second);
    forall id | id in IdsOf(first)
      ensures owner(id) == ws && !WatchedRuntime(w, id)
    {
      var k :| 0 <= k < |first| && IdsOf(first)[k] == id;
    }
  }

  // ---------- the initial load ----------

  // Registering the configured workspaces in turn, the k-th with the k-th answer.
  function Loaded(config: seq<WorkspaceId>, answers: seq<Answer>): Watched
    requires |config| == |answers|
  {
    if config == [] then NOTHING
    else
      var before := Loaded(config[..|config| - 1], answers[..|answers| - 1]);
      if Succeeds(Last(answers)) then Add(before, Last(config), Last(answers).value) else before
  }

  ghost predicate OwnAnswers(config: seq<WorkspaceId>, answers: seq<Answer>, owner: RuntimeId -> WorkspaceId)
    requires |config| == |answers|
  {
    forall k | 0 <= k < |config| && Succeeds(answers[k]) :: OwnedBy(answers[k].value, owner, config[k])
  }

  // Every id a workspace was ever registered with is among those of its last
  // successful registration.
  ghost predicate NoIdDropped(config: seq<WorkspaceId>, answers: seq<Answer>)
    requires |config| == |answers|
  {
    forall k | 0 <= k < |config| && Succeeds(answers[k]) ::
        StillWatched(Loaded(config, answers), config[k], answers[k].value)
  }

  ghost predicate StillWatched(w: Watched, ws: WorkspaceId, rts: seq<Runtime>) {
    ws in w.workspaces && forall id | id in IdsOf(rts) :: id in w.workspaces[ws]
  }

  ghost predicate AnswerAt(
    config: seq<WorkspaceId>, answers: seq<Answer>, k: int, ws: WorkspaceId, ids: seq<RuntimeId>)
  {
    && 0 <= k < |config| == |answers|
    && config[k] == ws && Succeeds(answers[k]) && ids == IdsOf(answers[k].value)
  }

  ghost predicate Answered(config: seq<WorkspaceId>, answers: seq<Answer>, ws: WorkspaceId, ids: seq<RuntimeId>) {
    exists k :: AnswerAt(config, answers, k, ws, ids)
  }

  lemma AnsweredBefore(config: seq<WorkspaceId>, answers: seq<Answer>, ws: WorkspaceId, ids: seq<RuntimeId>)
    requires |config| == |answers| && config != []
    ensures Answered(config, answers, ws, ids) <==>
      || Answered(config[..|config| - 1], answers[..|answers| - 1], ws, ids)
      || (Last(config) == ws && Succeeds(Last(answers)) && ids == IdsOf(Last(answers).value))
  {
    var c, a := config[..|config| - 1], answers[..|answers| - 1];
    if Answered(c, a, ws, ids) {
      var k :| AnswerAt(c, a, k, ws, ids);
      assert AnswerAt(config, answers, k, ws, ids);
    }
    if Answered(config, answers, ws, ids) {
      var k :| AnswerAt(config, answers, k, ws, ids);
      if k < |c| {
        assert AnswerAt(c, a, k, ws, ids);
      }
    }
    if Last(config) == ws && Succeeds(Last(answers)) && ids == IdsOf(Last(answers).value) {
      assert AnswerAt(config, answers, |config| - 1, ws, ids);
    }
  }

  // A workspace watched has the ids of one of its answers.
  lemma {:induction false} WatchedIsAnswered(config: seq<WorkspaceId>, answers: seq<Answer>, ws: WorkspaceId)
    requires |config| == |answers| && ws in Loaded(config, answers).workspaces
    ensures Answered(config, answers, ws, Loaded(config, answers).workspaces[ws])
  {
    if config != [] {
      var c, a := config[..|config| - 1], answers[..|answers| - 1];
      AnsweredBefore(config, answers, ws, Loaded(config, answers).workspaces[ws]);
      if ws in Loaded(c, a).workspaces {
        WatchedIsAnswered(c, a, ws);
      }
    }
  }

  // A workspace with a successful answer is watched.
  lemma {:induction false} AnsweredIsWatched(config: seq<WorkspaceId>, answers: seq<Answer>, ws: WorkspaceId,
      ids: seq<RuntimeId>)
    requires |config| == |answers| && Answered(config, answers, ws, ids)
    ensures ws in Loaded(config, answers).workspaces
  {
    if config != [] {
      var c, a := config[..|config| - 1], answers[..|answers| - 1];
      AnsweredBefore(config, answers, ws, ids);
      if Answered(c, a, ws, ids) {
        AnsweredIsWatched(c, a, ws, ids);
      }
    }
  }

  ghost predicate Offered(config: seq<WorkspaceId>, answers: seq<Answer>, id: RuntimeId) {
    exists ws, ids :: Answered(config, answers, ws, ids) && id in ids
  }

  lemma {:induction false} LoadedIndexes(config: seq<WorkspaceId>, answers: seq<Answer>)
    requires |config| == |answers|
    ensures forall id :: id in Loaded(config, answers).index <==> Offered(config, answers, id)
    ensures forall id | id in Loaded(config, answers).index :: Loaded(config, answers).index[id].id == id
  {
    if config != [] {
      var c, a := config[..|config| - 1], answers[..|answers| - 1];
      LoadedIndexes(c, a);
      if Succeeds(Last(answers)) {
        AddToIndexKeys(Loaded(c, a).index, Last(answers).value);
      }
      forall id
        ensures Offered(config, answers, id) <==>
          Offered(c, a, id) || (Succeeds(Last(answers)) && id in IdsOf(Last(answers).value))
      {
        OfferedBefore(config, answers, id);
      }
    } else {
      assert forall id :: !Offered(config, answers, id);
    }
  }

  lemma OfferedBefore(config: seq<WorkspaceId>, answers: seq<Answer>, id: RuntimeId)
    requires |config| == |answers| && config != []
    ensures Offered(config, answers, id) <==>
      || Offered(config[..|config| - 1], answers[..|answers| - 1], id)
      || (Succeeds(Last(answers)) && id in IdsOf(Last(answers).value))
  {
    var c, a := config[..|config| - 1], answers[..|answers| - 1];
    if Offered(config, answers, id) {
      var ws, ids :| Answered(config, answers, ws, ids) && id in ids;
      AnsweredBefore(config, answers, ws, ids);
    }
    if Offered(c, a, id) {
      var ws, ids :| Answered(c, a, ws, ids) && id in ids;
      AnsweredBefore(config, answers, ws, ids);
    }
    if Succeeds(Last(answers)) && id in IdsOf(Last(answers).value) {
      AnsweredBefore(config, answers, Last(config), IdsOf(Last(answers).value));
    }
  }

  // After the initial load, whatever workspaces the config repeats: index and
  // watched runtimes agree exactly if no id of a workspace was dropped.
  lemma LoadAgreesIff(config: seq<WorkspaceId>, answers: seq<Answer>, owner: RuntimeId -> WorkspaceId)
    requires |config| == |answers| && OwnAnswers(config, answers, owner)
    ensures Agrees(Loaded(config, answers)) <==> NoIdDropped(config, answers)
    ensures Agrees(Loaded(config, answers)) ==> Inv(Loaded(config, answers), owner)
  {
    hide Loaded, AddToIndex;
    var w := Loaded(config, answers);
    LoadedIndexes(config, answers);
    LoadCovers(config, answers, owner);
    if Agrees(w) {
      forall k | 0 <= k < |config| && Succeeds(answers[k])
        ensures StillWatched(w, config[k], answers[k].value)
      {
        var ids := IdsOf(answers[k].value);
        assert AnswerAt(config, answers, k, config[k], ids);
        assert Answered(config, answers, config[k], ids);
        AnsweredIsWatched(config, answers, config[k], ids);
        OwnedIds(answers[k].value, owner, config[k]);
        forall id | id in ids
          ensures id in w.workspaces[config[k]]
        {
          assert Offered(config, answers, id);
          var ws :| ws in w.workspaces && id in w.workspaces[ws];
        }
      }
    }
    if NoIdDropped(config, answers) {
      forall id | id in w.index
        ensures WatchedRuntime(w, id)
      {
        var ws, ids :| Answered(config, answers, ws, ids) && id in ids;
        var k :| AnswerAt(config, answers, k, ws, ids);
        assert StillWatched(w, config[k], answers[k].value);
      }
    }
  }

  lemma OwnedIds(rts: seq<Runtime>, owner: RuntimeId -> WorkspaceId, ws: WorkspaceId)
    requires OwnedBy(rts, owner, ws)
    ensures forall id | id in IdsOf(rts) :: owner(id) == ws
  {
  }

  lemma WatchedIdsAreOwned(config: seq<WorkspaceId>, answers: seq<Answer>, owner: RuntimeId -> WorkspaceId)
    requires |config| == |answers| && OwnAnswers(config, answers, owner)
    ensures var w := Loaded(config, answers);
      forall ws, id | ws in w.workspaces && id in w.workspaces[ws] :: owner(id) == ws
  {
    hide Loaded;
    var w := Loaded(config, answers);
    forall ws, id | ws in w.workspaces && id in w.workspaces[ws]
      ensures owner(id) == ws
    {
      WatchedIsAnswered(config, answers, ws);
      var k :| AnswerAt(config, answers, k, ws, w.workspaces[ws]);
      OwnedIds(answers[k].value, owner, config[k]);
    }
  }

  // The last successful answer that names the runtime has it like this.
  ghost predicate Answers(answers: seq<Answer>, id: RuntimeId, rt: Runtime) {
    exists k :: AnswersAt(answers, k, id, rt)
  }

  ghost predicate AnswersAt(answers: seq<Answer>, k: int, id: RuntimeId, rt: Runtime) {
    && 0 <= k < |answers| && answers[k].Some? && LastNamed(answers[k].value, id, rt)
    && forall i | k < i < |answers| && answers[i].Some? :: id !in IdsOf(answers[i].value)
  }

  lemma {:induction false} LoadedValues(config: seq<WorkspaceId>, answers: seq<Answer>, id: RuntimeId)
    requires |config| == |answers| && id in Loaded(config, answers).index
    ensures Answers(answers, id, Loaded(config, answers).index[id])
  {
    hide LastNamed, AddToIndex;
    if config != [] {
      var c, a, rt := config[..|config| - 1], answers[..|answers| - 1], Loaded(config, answers).index[id];
      if Succeeds(Last(answers)) {
        AddToIndexValues(Loaded(c, a).index, Last(answers).value, id);
      }
      if Succeeds(Last(answers)) && id in IdsOf(Last(answers).value) {
        assert AnswersAt(answers, |answers| - 1, id, rt);
      } else {
        LoadedValues(c, a, id);
        var k :| AnswersAt(a, k, id, rt);
        assert AnswersAt(answers, k, id, rt);
      }
    }
  }

  lemma LoadCovers(config: seq<WorkspaceId>, answers: seq<Answer>, owner: RuntimeId -> WorkspaceId)
    requires |config| == |answers| && OwnAnswers(config, answers, owner)
    ensures Covers(Loaded(config, answers), owner)
  {
    hide Loaded;
    var w := Loaded(config, answers);
    LoadedIndexes(config, answers);
    WatchedIdsAreOwned(config, answers, owner);
    forall ws, id | ws in w.workspaces && id in w.workspaces[ws]
      ensures id in w.index
    {
      WatchedIsAnswered(config, answers, ws);
      assert Offered(config, answers, id);
    }
  }

  // In particular if the config names every workspace once.
  lemma UniqueLoadAgrees(config: seq<WorkspaceId>, answers: seq<Answer>)
    requires |config| == |answers| && Distinct(config)
    ensures NoIdDropped(config, answers)
  {
    hide Loaded;
    var w := Loaded(config, answers);
    forall k | 0 <= k < |config| && Succeeds(answers[k])
      ensures StillWatched(w, config[k], answers[k].value)
    {
      assert AnswerAt(config, answers, k, config[k], IdsOf(answers[k].value));
      assert Answered(config, answers, config[k], IdsOf(answers[k].value));
      AnsweredIsWatched(config, answers, config[k], IdsOf(answers[k].value));
      WatchedIsAnswered(config, answers, config[k]);
      var j :| AnswerAt(config, answers, j, config[k], w.workspaces[config[k]]);
    }
  }

  // ---------- reloads ----------

  // Workspaces already watched keep their runtimes; new ones get what their
  // registration returns.
  function Reloaded(watched: map<WorkspaceId, seq<RuntimeId>>, config: seq<WorkspaceId>, reg: Registration)
    : map<WorkspaceId, seq<RuntimeId>>
  {
    map ws | ws in config && (ws in watched || Registers(reg, ws)) ::
      if ws in watched then watched[ws] else IdsOf(reg(ws).value)
  }

  lemma ReloadShape(watched: map<WorkspaceId, seq<RuntimeId>>, config: seq<WorkspaceId>, reg: Registration)
    ensures var news, gone := AsSet(config) - watched.Keys, watched.Keys - AsSet(config);
      watched + New(news, reg) - gone == Reloaded(watched, config, reg)
    ensures Reloaded(watched, config, reg).Keys ==
      set ws | ws in config && (ws in watched || (reg(ws).Some? && reg(ws).value != []))
  {
  }

  function New(todo: set<WorkspaceId>, reg: Registration): map<WorkspaceId, seq<RuntimeId>> {
    map ws | ws in todo && Registers(reg, ws) :: IdsOf(reg(ws).value)
  }

  // Some workspace newly watched is registered with the runtime.
  ghost predicate Offers(todo: set<WorkspaceId>, reg: Registration, id: RuntimeId) {
    exists ws | ws in todo && Registers(reg, ws) :: id in IdsOf(reg(ws).value)
  }

  // The watched workspaces after the first k reloads.
  function WatchedAfter(
    watched: map<WorkspaceId, seq<RuntimeId>>, reloads: seq<seq<WorkspaceId>>, regs: nat -> Registration, k: nat)
    : map<WorkspaceId, seq<RuntimeId>>
    requires k <= |reloads|
  {
    if k == 0 then watched else Reloaded(WatchedAfter(watched, reloads, regs, k - 1), reloads[k - 1], regs(k - 1))
  }

  // One of the first k reloads registers the runtime for a workspace not watched
  // at the time.
  ghost predicate Reoffered(
    watched: map<WorkspaceId, seq<RuntimeId>>, reloads: seq<seq<WorkspaceId>>, regs: nat -> Registration, k: nat,
    id: RuntimeId)
    requires k <= |reloads|
  {
    && 0 < k
    && (|| Reoffered(watched, reloads, regs, k - 1, id)
        || Offers(AsSet(reloads[k - 1]) - WatchedAfter(watched, reloads, regs, k - 1).Keys, regs(k - 1), id))
  }

  // From before, the workspaces done have been registered.
  ghost predicate Progress(
    before: Watched, after: Watched, done: set<WorkspaceId>, reg: Registration, owner: RuntimeId -> WorkspaceId)
  {
    && after.workspaces == before.workspaces + New(done, reg)
    && (Covers(before, owner) ==>
          && Covers(after, owner)
          && forall id :: Stale(after, id) <==> Stale(before, id) && !Offers(done, reg, id))
  }

  // Entries of runtimes that were registered are as answered, the others as before.
  ghost predicate ValuesFrom(before: map<RuntimeId, Runtime>, after: map<RuntimeId, Runtime>,
                             done: set<WorkspaceId>, reg: Registration, owner: RuntimeId -> WorkspaceId) {
    forall id | id in after ::
      if Offers(done, reg, id) then reg(owner(id)).Some? && LastNamed(reg(owner(id)).value, id, after[id])
      else id in before && after[id] == before[id]
  }

  lemma NoProgress(w: Watched, reg: Registration, owner: RuntimeId -> WorkspaceId)
    ensures Progress(w, w, {}, reg, owner) && ValuesFrom(w.index, w.index, {}, reg, owner)
  {
    hide Covers, Stale;
    assert New({}, reg) == map[];
  }

  lemma ProgressMeans(
    before: Watched, after: Watched, done: set<WorkspaceId>, reg: Registration, owner: RuntimeId -> WorkspaceId)
    requires Progress(before, after, done, reg, owner)
    ensures after.workspaces == before.workspaces + New(done, reg)
    ensures Covers(before, owner) ==>
      && Covers(after, owner)
      && forall id :: Stale(after, id) <==> Stale(before, id) && !Offers(done, reg, id)
  {
    hide Covers, Stale, Offers;
  }

  lemma ValuesAfterDrop(before: map<RuntimeId, Runtime>, added: map<RuntimeId, Runtime>,
                        after: map<RuntimeId, Runtime>, done: set<WorkspaceId>, reg: Registration,
                        owner: RuntimeId -> WorkspaceId)
    requires ValuesFrom(before, added, done, reg, owner)
    requires forall id | id in after :: id in added && after[id] == added[id]
    ensures ValuesFrom(before, after, done, reg, owner)
  {
    hide LastNamed, Offers;
  }

  lemma ValuesOneMore(before: map<RuntimeId, Runtime>, after: map<RuntimeId, Runtime>, done: set<WorkspaceId>,
                      ws: WorkspaceId, reg: Registration, owner: RuntimeId -> WorkspaceId)
    requires ValuesFrom(before, after, done, reg, owner) && OwnIds(reg, owner)
    ensures ValuesFrom(before, if Registers(reg, ws) then AddToIndex(after, reg(ws).value) else after,
                       done + {ws}, reg, owner)
  {
    hide LastNamed, Offers, AddToIndex;
    OneMoreOffer(done, ws, reg);
    if Registers(reg, ws) {
      var next := AddToIndex(after, reg(ws).value);
      OwnedIds(reg(ws).value, owner, ws);
      AddToIndexKeys(after, reg(ws).value);
      forall id | id in next
        ensures if Offers(done + {ws}, reg, id)
          then reg(owner(id)).Some? && LastNamed(reg(owner(id)).value, id, next[id])
          else id in before && next[id] == before[id]
      {
        AddToIndexValues(after, reg(ws).value, id);
      }
    }
  }

  lemma ProgressOneMore(before: Watched, after: Watched, done: set<WorkspaceId>, ws: WorkspaceId,
                        reg: Registration, owner: RuntimeId -> WorkspaceId)
    requires Progress(before, after, done, reg, owner) && OwnIds(reg, owner) && ws !in after.workspaces
    ensures var next := if Registers(reg, ws) then Add(after, ws, reg(ws).value) else after;
      Progress(before, next, done + {ws}, reg, owner)
  {
    hide Covers, Stale, Offers, AddToIndex;
    OneMoreOffer(done, ws, reg);
    assert New(done + {ws}, reg)
        == if Registers(reg, ws) then New(done, reg)[ws := IdsOf(reg(ws).value)] else New(done, reg);
    if Registers(reg, ws) && Covers(before, owner) {
      AddOnStale(after, ws, reg(ws).value, owner);
    }
  }

  lemma OneMoreOffer(done: set<WorkspaceId>, ws: WorkspaceId, reg: Registration)
    ensures forall id ::
      Offers(done + {ws}, reg, id) <==> Offers(done, reg, id) || (Registers(reg, ws) && id in IdsOf(reg(ws).value))
  {
    forall id
      ensures Offers(done + {ws}, reg, id) <==>
        Offers(done, reg, id) || (Registers(reg, ws) && id in IdsOf(reg(ws).value))
    {
      if Offers(done, reg, id) {
        var v :| v in done && Registers(reg, v) && id in IdsOf(reg(v).value);
        assert v in done + {ws};
      }
      assert ws in done + {ws};
    }
  }

  // The last registration that named the runtime, in the first k reloads or else
  // in the load, has it like this.
  ghost predicate LastRegistered(
    answers: seq<Answer>, watched: map<WorkspaceId, seq<RuntimeId>>, reloads: seq<seq<WorkspaceId>>,
    regs: nat -> Registration, k: nat, owner: RuntimeId -> WorkspaceId, id: RuntimeId, rt: Runtime)
    requires k <= |reloads|
  {
    if k == 0 then Answers(answers, id, rt)
    else if Offers(AsSet(reloads[k - 1]) - WatchedAfter(watched, reloads, regs, k - 1).Keys, regs(k - 1), id) then
      regs(k - 1)(owner(id)).Some? && LastNamed(regs(k - 1)(owner(id)).value, id, rt)
    else LastRegistered(answers, watched, reloads, regs, k - 1, owner, id, rt)
  }

  // What is stale, and what the entries are, after the first k reloads.
  ghost predicate StaleAfter(
    w0: Watched, w: Watched, reloads: seq<seq<WorkspaceId>>, regs: nat -> Registration, k: nat)
    requires k <= |reloads|
  {
    forall id :: Stale(w, id) <==> Stale(w0, id) && !Reoffered(w0.workspaces, reloads, regs, k, id)
  }

  ghost predicate ValuesAfter(
    answers: seq<Answer>, watched: map<WorkspaceId, seq<RuntimeId>>, reloads: seq<seq<WorkspaceId>>,
    regs: nat -> Registration, k: nat, owner: RuntimeId -> WorkspaceId, index: map<RuntimeId, Runtime>)
    requires k <= |reloads|
  {
    forall id | id in index :: LastRegistered(answers, watched, reloads, regs, k, owner, id, index[id])
  }

  lemma NoReloads(answers: seq<Answer>, w0: Watched, reloads: seq<seq<WorkspaceId>>, regs: nat -> Registration,
                  owner: RuntimeId -> WorkspaceId)
    requires forall id | id in w0.index :: Answers(answers, id, w0.index[id])
    ensures StaleAfter(w0, w0, reloads, regs, 0)
    ensures ValuesAfter(answers, w0.workspaces, reloads, regs, 0, owner, w0.index)
  {
    hide Stale, Answers;
  }

  lemma OneMoreReload(answers: seq<Answer>, w0: Watched, before: Watched, after: Watched,
                      reloads: seq<seq<WorkspaceId>>, regs: nat -> Registration, k: nat,
                      owner: RuntimeId -> WorkspaceId)
    requires k < |reloads| && before.workspaces == WatchedAfter(w0.workspaces, reloads, regs, k)
    requires StaleAfter(w0, before, reloads, regs, k)
    requires ValuesAfter(answers, w0.workspaces, reloads, regs, k, owner, before.index)
    requires forall id :: Stale(after, id) <==>
      Stale(before, id) && !Offers(AsSet(reloads[k]) - before.workspaces.Keys, regs(k), id)
    requires ValuesFrom(before.index, after.index, AsSet(reloads[k]) - before.workspaces.Keys, regs(k), owner)
    ensures StaleAfter(w0, after, reloads, regs, k + 1)
    ensures ValuesAfter(answers, w0.workspaces, reloads, regs, k + 1, owner, after.index)
  {
    hide Stale, Offers, Answers, LastNamed, WatchedAfter, AsSet;
  }

  lemma AfterReloads(answers: seq<Answer>, w0: Watched, w: Watched, reloads: seq<seq<WorkspaceId>>,
                     regs: nat -> Registration, k: nat, owner: RuntimeId -> WorkspaceId)
    requires k <= |reloads| && StaleAfter(w0, w, reloads, regs, k)
    requires ValuesAfter(answers, w0.workspaces, reloads, regs, k, owner, w.index)
    ensures (exists id :: Stale(w, id)) <==>
      exists id | Stale(w0, id) :: !Reoffered(w0.workspaces, reloads, regs, k, id)
    ensures forall id | id in w.index ::
        LastRegistered(answers, w0.workspaces, reloads, regs, k, owner, id, w.index[id])
  {
    hide Stale, Reoffered, LastRegistered;
  }

  // ---------- the daemon ----------

  class Daemon {
    var workspaces: map<WorkspaceId, seq<RuntimeId>>
    var runtimeIndex: map<RuntimeId, Runtime>

    ghost function View(): Watched
      reads this
    {
      Watched(workspaces, runtimeIndex)
    }

    constructor ()
      ensures View() == NOTHING
    {
      workspaces, runtimeIndex := map[], map[];
    }

    method Register(ws: WorkspaceId, resp: Answer) returns (ok: bool)
      modifies this
      ensures ok == Succeeds(resp)
      ensures View() == if ok then Add(old(View()), ws, resp.value) else old(View())
    {
      ok := resp.Some? && |resp.value| > 0;
      if ok {
        var rts := resp.value;
        workspaces := workspaces[ws := IdsOf(rts)];
        for k := 0 to |rts|
          invariant workspaces == old(workspaces)[ws := IdsOf(rts)]
          invariant runtimeIndex == AddToIndex(old(runtimeIndex), rts[..k])
        {
          assert rts[..k + 1][..k] == rts[..k];
          runtimeIndex := runtimeIndex[rts[k].id := rts[k]];
        }
        assert rts[..|rts|] == rts;
      }
    }

    // answers[k] is what registering the k-th configured workspace returns.
    method LoadWatchedWorkspaces(config: seq<WorkspaceId>, answers: seq<Answer>) returns (failed: bool)
      requires View() == NOTHING && |answers| == |config|
      modifies this
      ensures View() == Loaded(config, answers)
      ensures failed <==> forall k | 0 <= k < |config| :: answers[k].None? || answers[k].value == []
      ensures forall id | id in runtimeIndex :: Answers(answers, id, runtimeIndex[id])
    {
      if |config| == 0 {
        return true;
      }
      var registered := 0;
      for k := 0 to |config|
        invariant View() == Loaded(config[..k], answers[..k])
        invariant 0 <= registered && (registered == 0 <==> forall j | 0 <= j < k :: !Succeeds(answers[j]))
      {
        assert config[..k + 1][..k] == config[..k] && answers[..k + 1][..k] == answers[..k];
        var ok := Register(config[k], answers[k]);
        if ok {
          registered := registered + 1;
        }
      }
      assert config[..|config|] == config && answers[..|config|] == answers;
      failed := registered == 0;
      forall id | id in runtimeIndex
        ensures Answers(answers, id, runtimeIndex[id])
      {
        LoadedValues(config, answers, id);
      }
    }

    // The first loop of a reload: register the workspaces not yet watched.
    method WatchNew(added: set<WorkspaceId>, reg: Registration, ghost owner: RuntimeId -> WorkspaceId)
      requires OwnIds(reg, owner) && added !! workspaces.Keys
      modifies this
      ensures workspaces == old(workspaces) + New(added, reg)
      ensures Covers(old(View()), owner) ==> Covers(View(), owner)
      ensures Covers(old(View()), owner) ==>
        forall id :: Stale(View(), id) <==> Stale(old(View()), id) && !Offers(added, reg, id)
      ensures ValuesFrom(old(runtimeIndex), runtimeIndex, added, reg, owner)
    {
      hide AddToIndex, Progress, OwnedBy, OwnIds, ValuesFrom;
      var todo := added;
      ghost var start := View();
      NoProgress(start, reg, owner);
      assert added - todo == {};
      while todo != {}
        invariant todo <= added && todo !! workspaces.Keys
        invariant Progress(start, View(), added - todo, reg, owner)
        invariant ValuesFrom(start.index, runtimeIndex, added - todo, reg, owner)
        decreases todo
      {
        var ws :| ws in todo;
        ProgressOneMore(start, View(), added - todo, ws, reg, owner);
        ValuesOneMore(start.index, runtimeIndex, added - todo, ws, reg, owner);
        assert added - (todo - {ws}) == (added - todo) + {ws};
        var ok := Register(ws, reg(ws));
        todo := todo - {ws};
      }
      assert added - todo == added;
      ProgressMeans(start, View(), added, reg, owner);
    }

    // The second loop: drop the workspaces no longer configured.
    method DropGone(gone: set<WorkspaceId>, ghost owner: RuntimeId -> WorkspaceId)
      modifies this
      ensures workspaces == old(workspaces) - gone
      ensures Covers(old(View()), owner) ==> Covers(View(), owner)
      ensures Covers(old(View()), owner) ==> forall id :: Stale(View(), id) <==> Stale(old(View()), id)
      ensures forall id | id in runtimeIndex :: id in old(runtimeIndex) && runtimeIndex[id] == old(runtimeIndex)[id]
    {
      hide Covers, Stale;
      var todo := gone;
      while todo != {}
        invariant todo <= gone && workspaces == old(workspaces) - (gone - todo)
        invariant Covers(old(View()), owner) ==> Covers(View(), owner)
        invariant Covers(old(View()), owner) ==> forall id :: Stale(View(), id) <==> Stale(old(View()), id)
        invariant forall id | id in runtimeIndex :: id in old(runtimeIndex) && runtimeIndex[id] == old(runtimeIndex)[id]
        decreases todo
      {
        var ws :| ws in todo;
        ghost var before := View();
        if Covers(before, owner) {
          DropOnStale(before, ws, owner);
        }
        if ws in workspaces {
          runtimeIndex := runtimeIndex - set id | id in workspaces[ws];
        }
        workspaces := workspaces - {ws};
        assert View() == Drop(before, ws);
        todo := todo - {ws};
      }
    }

    // Go ranges over its maps in any order.
    method ReloadWorkspaces(config: seq<WorkspaceId>, reg: Registration, ghost owner: RuntimeId -> WorkspaceId)
      requires OwnIds(reg, owner)
      modifies this
      ensures workspaces == Reloaded(old(workspaces), config, reg)
      ensures Covers(old(View()), owner) ==> Covers(View(), owner)
      ensures Covers(old(View()), owner) ==>
        forall id :: Stale(View(), id) <==>
          Stale(old(View()), id) && !Offers(AsSet(config) - old(workspaces).Keys, reg, id)
      ensures ValuesFrom(old(runtimeIndex), runtimeIndex, AsSet(config) - old(workspaces).Keys, reg, owner)
      ensures Inv(old(View()), owner) ==> Inv(View(), owner)
      ensures workspaces.Keys ==
        set ws | ws in config && (ws in old(workspaces) || (reg(ws).Some? && reg(ws).value != []))
      ensures forall ws | ws in config && ws in old(workspaces) :: workspaces[ws] == old(workspaces)[ws]
      ensures AllRegister(reg, config) ==> workspaces.Keys == AsSet(config)
    {
      hide Covers, Stale, Inv, Offers, ValuesFrom, OwnIds;
      CoversIff(View(), owner);
      var newIds, currentIds := AsSet(config), workspaces.Keys;
      WatchNew(newIds - currentIds, reg, owner);
      ghost var added := runtimeIndex;
      DropGone(currentIds - newIds, owner);
      ReloadShape(old(workspaces), config, reg);
      ValuesAfterDrop(old(runtimeIndex), added, runtimeIndex, newIds - currentIds, reg, owner);
      CoversIff(View(), owner);
    }
  }

  // The initial load and any sequence of reloads, each with its own config and
  // its own registration failures. In the end index and watched runtimes agree
  // exactly if every runtime the load left stale has been registered again, for a
  // workspace that had been dropped or never watched.
  method WatchConfig(initial: seq<WorkspaceId>, answers: seq<Answer>, reloads: seq<seq<WorkspaceId>>,
                     regs: nat -> Registration, ghost owner: RuntimeId -> WorkspaceId)
      returns (workspaces: map<WorkspaceId, seq<RuntimeId>>, index: map<RuntimeId, Runtime>)
    requires |answers| == |initial| && OwnAnswers(initial, answers, owner) && forall n :: OwnIds(regs(n), owner)
    ensures workspaces == WatchedAfter(Loaded(initial, answers).workspaces, reloads, regs, |reloads|)
    ensures Agrees(Watched(workspaces, index)) <==>
      forall id | Stale(Loaded(initial, answers), id) ::
          Reoffered(Loaded(initial, answers).workspaces, reloads, regs, |reloads|, id)
    ensures forall id | id in index :: LastRegistered(answers, Loaded(initial, answers).workspaces, reloads, regs,
        |reloads|, owner, id, index[id])
    ensures NoIdDropped(initial, answers) ==> Agrees(Watched(workspaces, index))
    ensures reloads != [] && AllRegister(regs(|reloads| - 1), Last(reloads)) ==>
      workspaces.Keys == AsSet(Last(reloads))
  {
    var d := new Daemon();
    var failed := d.LoadWatchedWorkspaces(initial, answers);
    ghost var w0 := d.View();
    LoadAgreesIff(initial, answers, owner);
    LoadCovers(initial, answers, owner);
    CoversIff(w0, owner);
    hide Covers, Stale, Offers, Loaded, Inv, NoIdDropped, Agrees, Answers, LastNamed, ValuesFrom, LastRegistered,
        Reoffered, OwnIds, StaleAfter, ValuesAfter;
    NoReloads(answers, w0, reloads, regs, owner);
    for k := 0 to |reloads|
      invariant fresh(d) && Covers(d.View(), owner)
      invariant d.workspaces == WatchedAfter(w0.workspaces, reloads, regs, k)
      invariant StaleAfter(w0, d.View(), reloads, regs, k)
      invariant ValuesAfter(answers, w0.workspaces, reloads, regs, k, owner, d.runtimeIndex)
      invariant 0 < k && AllRegister(regs(k - 1), reloads[k - 1]) ==>
        d.workspaces.Keys == AsSet(reloads[k - 1])
    {
      ghost var before := d.View();
      d.ReloadWorkspaces(reloads[k], regs(k), owner);
      OneMoreReload(answers, w0, before, d.View(), reloads, regs, k, owner);
    }
    AfterReloads(answers, w0, d.View(), reloads, regs, |reloads|, owner);
    workspaces, index := d.workspaces, d.runtimeIndex;
    CoversIff(d.View(), owner);
    WatchedIsCovered(d.View(), owner);
    AgreesIff(d.View());
  }

  lemma WatchedIsCovered(w: Watched, owner: RuntimeId -> WorkspaceId)
    requires Covers(w, owner)
    ensures forall id | WatchedRuntime(w, id) :: id in w.index
  {
  }
}
