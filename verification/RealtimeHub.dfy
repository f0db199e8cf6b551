// server/internal/realtime/hub.go.
module RealtimeHub {
  import opened Base

  // Rooms of WebSocket clients, broadcasts that set slow clients aside, and
  // removals of those clients that run later.

  type ClientId = nat

  datatype ClientInfo = ClientInfo(user: string, workspace: string)

  // info has every client that ever registered; closed lists the channels
  // closed so far, one entry per close; removals are the goroutines that still
  // have to drop slow clients from the rooms they were seen in.
  datatype HubState = HubState(
    rooms: map<string, set<ClientId>>, info: map<ClientId, ClientInfo>, subscribed: map<ClientId, set<string>>,
    closed: seq<ClientId>, removals: map<nat, seq<(ClientId, string)>>)

  const EMPTY := HubState(map[], map[], map[], [], map[])

  predicate InRoom(h: HubState, c: ClientId, room: string) {
    room in h.rooms && c in h.rooms[room]
  }

  // Drop c from the room if it is there, close its channel, drop an empty room.
  function Remove(h: HubState, c: ClientId, room: string): HubState {
    if !InRoom(h, c, room) then h
    else
      var left := h.rooms[room] - {c};
      h.(rooms := if left == {} then h.rooms - {room} else h.rooms[room := left], closed := h.closed + [c])
  }

  function RemoveAll(h: HubState, slow: seq<(ClientId, string)>): HubState
    decreases |slow|
  {
    if slow == [] then h else RemoveAll(Remove(h, slow[0].0, slow[0].1), slow[1..])
  }

  function Register(h: HubState, c: ClientId, info: ClientInfo): HubState {
    var room := info.workspace;
    h.(rooms := h.rooms[room := (if room in h.rooms then h.rooms[room] else {}) + {c}],
       info := h.info[c := info], subscribed := h.subscribed[c := {room}])
  }

  predicate IsSubscribed(h: HubState, c: ClientId, workspace: string) {
    c in h.subscribed && workspace in h.subscribed[c]
  }

  // Whom a broadcast to the workspace is sent to.
  ghost predicate WorkspaceTarget(h: HubState, workspace: string, c: ClientId) {
    exists room | room in h.rooms :: c in h.rooms[room] && WantsWorkspace(h, workspace, c)
  }

  predicate WantsWorkspace(h: HubState, workspace: string, c: ClientId) {
    c in h.info && h.info[c].workspace == workspace && IsSubscribed(h, c, workspace)
  }

  // Whom SendToUser is sent to: clients of the user in any room but one.
  ghost predicate UserTarget(h: HubState, user: string, exclude: string, c: ClientId) {
    exists room | room in h.rooms :: room != exclude && c in h.rooms[room] && IsUser(h, user, c)
  }

  predicate IsUser(h: HubState, user: string, c: ClientId) {
    c in h.info && h.info[c].user == user
  }

  ghost predicate GlobalTarget(h: HubState, c: ClientId) {
    exists room | room in h.rooms :: c in h.rooms[room]
  }

  datatype Step =
    | RegisterClient(c: ClientId, info: ClientInfo)
    | UnregisterClient(c: ClientId)
    | Subscribe(c: ClientId, workspace: string)
    | Unsubscribe(c: ClientId, workspace: string)
    | BroadcastAll(task: nat, slow: seq<(ClientId, string)>)
    | BroadcastToWorkspace(task: nat, workspace: string, slow: seq<(ClientId, string)>)
    | SendToUser(task: nat, user: string, exclude: string, slow: seq<(ClientId, string)>)
    | RunRemoval(task: nat)

  // A client has a workspace; naming none in a subscription does nothing. A
  // broadcast's slow clients are any of those it was sent to. The global one
  // notes the client's own workspace, the workspace one its argument, and
  // SendToUser the room it found the client in.
  ghost predicate Enabled(h: HubState, step: Step) {
    match step
    case RegisterClient(c, info) => c !in h.info && info.workspace != ""
    case UnregisterClient(c) => c in h.info
    case Subscribe(c, _) => c in h.subscribed
    case Unsubscribe(c, _) => c in h.subscribed
    case BroadcastAll(task, slow) => task !in h.removals &&
      forall k | 0 <= k < |slow| ::
          GlobalTarget(h, slow[k].0) && slow[k].0 in h.info && slow[k].1 == h.info[slow[k].0].workspace
    case BroadcastToWorkspace(task, workspace, slow) => task !in h.removals &&
      forall k | 0 <= k < |slow| :: WorkspaceTarget(h, workspace, slow[k].0) && slow[k].1 == workspace
    case SendToUser(task, user, exclude, slow) => task !in h.removals &&
      forall k | 0 <= k < |slow| ::
          slow[k].1 != exclude && InRoom(h, slow[k].0, slow[k].1) && IsUser(h, user, slow[k].0)
    case RunRemoval(task) => task in h.removals
  }

  // The clients found slow are removed later, by a goroutine of their own.
  function Schedule(h: HubState, task: nat, slow: seq<(ClientId, string)>): HubState {
    if slow == [] then h else h.(removals := h.removals[task := slow])
  }

  ghost function Do(h: HubState, step: Step): HubState
    requires Enabled(h, step)
  {
    match step
    case RegisterClient(c, info) => Register(h, c, info)
    case UnregisterClient(c) => Remove(h, c, h.info[c].workspace)
    case Subscribe(c, ws) => if ws == "" then h else h.(subscribed := h.subscribed[c := h.subscribed[c] + {ws}])
    case Unsubscribe(c, ws) => if ws == "" then h else h.(subscribed := h.subscribed[c := h.subscribed[c] - {ws}])
    case BroadcastAll(task, slow) => Schedule(h, task, slow)
    case BroadcastToWorkspace(task, _, slow) => Schedule(h, task, slow)
    case SendToUser(task, _, _, slow) => Schedule(h, task, slow)
    case RunRemoval(task) => RemoveAll(h, h.removals[task]).(removals := h.removals - {task})
  }

  // ---------- the discipline ----------

  ghost predicate Inv(h: HubState) {
    && (forall room | room in h.rooms :: h.rooms[room] != {})
    && (forall room, c | room in h.rooms && c in h.rooms[room] ::
          c in h.info && h.info[c].workspace == room && c !in h.closed)
    && Distinct(h.closed)
    && (forall c | c in h.info :: c in h.closed || InRoom(h, c, h.info[c].workspace))
    && (forall c | c in h.closed :: c in h.info)
    && (forall c | c in h.info :: h.info[c].workspace != "")
  }

  lemma DistinctAppend(s: seq<ClientId>, c: ClientId)
    requires Distinct(s) && c !in s
    ensures Distinct(s + [c])
  {
  }

  lemma RemoveKeeps(h: HubState, c: ClientId, room: string)
    requires Inv(h)
    ensures Inv(Remove(h, c, room)) && Remove(h, c, room).info == h.info
  {
    if InRoom(h, c, room) {
      DistinctAppend(h.closed, c);
    }
  }

  lemma {:induction false} RemoveAllKeeps(h: HubState, slow: seq<(ClientId, string)>)
    requires Inv(h)
    ensures Inv(RemoveAll(h, slow)) && RemoveAll(h, slow).info == h.info
    decreases |slow|
  {
    if slow != [] {
      RemoveKeeps(h, slow[0].0, slow[0].1);
      RemoveAllKeeps(Remove(h, slow[0].0, slow[0].1), slow[1..]);
    }
  }

  lemma StepKeepsInv(h: HubState, step: Step)
    requires Inv(h) && Enabled(h, step)
    ensures Inv(Do(h, step))
  {
    match step {
      case RegisterClient(c, info) =>
      case UnregisterClient(c) => RemoveKeeps(h, c, h.info[c].workspace);
      case RunRemoval(task) => RemoveAllKeeps(h, h.removals[task]);
      case _ =>
    }
  }

  ghost predicate IsRun(run: seq<HubState>, steps: seq<Step>) {
    && |run| == |steps| + 1
    && run[0] == EMPTY
    && forall k | 0 <= k < |steps| :: Moves(run[k], steps[k], run[k + 1])
  }

  ghost predicate Moves(h: HubState, step: Step, h': HubState) {
    Enabled(h, step) && h' == Do(h, step)
  }

  lemma {:induction false} RunKeepsInv(run: seq<HubState>, steps: seq<Step>, k: nat)
    requires IsRun(run, steps) && k < |run|
    ensures Inv(run[k])
  {
    if k > 0 {
      RunKeepsInv(run, steps, k - 1);
      assert Moves(run[k - 1], steps[k - 1], run[k]);
      StepKeepsInv(run[k - 1], steps[k - 1]);
    }
  }

  // Under every interleaving: a client is in no room but its own workspace's,
  // no room is empty, whoever is in a room has an open channel, no channel is
  // closed twice, and a client out of its room has had its channel closed.
  lemma CloseDiscipline(run: seq<HubState>, steps: seq<Step>, k: nat)
    requires IsRun(run, steps) && k < |run|
    ensures var h := run[k];
      && (forall room | room in h.rooms :: h.rooms[room] != {})
      && (forall room, c | InRoom(h, c, room) :: c in h.info && h.info[c].workspace == room && c !in h.closed)
      && (forall i, j | 0 <= i < j < |h.closed| :: h.closed[i] != h.closed[j])
      && (forall c | c in h.info :: c in h.closed <==> !InRoom(h, c, h.info[c].workspace))
  {
    RunKeepsInv(run, steps, k);
  }

  // So the two broadcasts, which send while they hold the lock, never send on a
  // closed channel, and neither does SendToUser to the clients it collects.
  lemma BroadcastsHitOpenChannels(run: seq<HubState>, steps: seq<Step>, k: nat, c: ClientId, workspace: string)
    requires IsRun(run, steps) && k < |run|
    requires GlobalTarget(run[k], c) || WorkspaceTarget(run[k], workspace, c)
    ensures c in run[k].info && c !in run[k].closed
  {
    RunKeepsInv(run, steps, k);
  }

  // SendToUser sends after it has unlocked, and by then the channel may be closed.
  lemma CollectedChannelMayClose(h: HubState, c: ClientId, user: string, exclude: string)
    requires Inv(h) && UserTarget(h, user, exclude, c)
    ensures c !in h.closed && Enabled(h, UnregisterClient(c)) && c in Do(h, UnregisterClient(c)).closed
  {
  }

  lemma {:induction false} InfoStays(run: seq<HubState>, steps: seq<Step>, j: nat, k: nat, c: ClientId)
    requires IsRun(run, steps) && j <= k < |run| && c in run[j].info
    ensures c in run[k].info && run[k].info[c] == run[j].info[c]
    decreases k - j
  {
    if j < k {
      InfoStays(run, steps, j, k - 1, c);
      assert Moves(run[k - 1], steps[k - 1], run[k]);
      RunKeepsInv(run, steps, k - 1);
      StepKeepsClients(run[k - 1], steps[k - 1]);
    }
  }

  lemma StepKeepsClients(h: HubState, step: Step)
    requires Inv(h) && Enabled(h, step)
    ensures forall c | c in h.info :: c in Do(h, step).info && Do(h, step).info[c] == h.info[c]
  {
    match step {
      case UnregisterClient(c) => RemoveKeeps(h, c, h.info[c].workspace);
      case RunRemoval(task) => RemoveAllKeeps(h, h.removals[task]);
      case _ =>
    }
  }

  // Two sends are made without the lock: SendToUser's, to clients it collected
  // earlier, and the reply to a client's ping. Such a send, at state k to a client
  // known at state j, hits an open channel exactly if the client is still in its room.
  lemma UnlockedSendIff(run: seq<HubState>, steps: seq<Step>, j: nat, k: nat, c: ClientId)
    requires IsRun(run, steps) && j <= k < |run| && c in run[j].info
    ensures c in run[k].info && (c !in run[k].closed <==> InRoom(run[k], c, run[j].info[c].workspace))
  {
    InfoStays(run, steps, j, k, c);
    CloseDiscipline(run, steps, k);
  }

  // Right after it registered a client is reached by broadcasts to its
  // workspace and by messages to its user.
  lemma NewClientIsReached(h: HubState, c: ClientId, info: ClientInfo, exclude: string)
    requires c !in h.info && info.workspace != "" && exclude != info.workspace
    ensures Enabled(h, RegisterClient(c, info))
    ensures var h' := Do(h, RegisterClient(c, info));
      WorkspaceTarget(h', info.workspace, c) && UserTarget(h', info.user, exclude, c) && GlobalTarget(h', c)
  {
    var h' := Do(h, RegisterClient(c, info));
    assert c in h'.rooms[info.workspace];
  }

  lemma RemoveIsExact(h: HubState, x: ClientId, from: string, c: ClientId, room: string)
    ensures InRoom(Remove(h, x, from), c, room) <==> InRoom(h, c, room) && !(c == x && room == from)
  {
    if InRoom(h, x, from) && InRoom(h, c, from) && c != x {
      assert c in h.rooms[from] - {x};
    }
  }

  // A removal takes exactly the listed clients out of the listed rooms, and
  // closes the channels of those that were still there.
  lemma {:induction false} RemovalIsExact(h: HubState, slow: seq<(ClientId, string)>, c: ClientId, room: string)
    ensures InRoom(RemoveAll(h, slow), c, room) <==> InRoom(h, c, room) && (c, room) !in slow
    ensures h.closed <= RemoveAll(h, slow).closed
    ensures InRoom(h, c, room) && (c, room) in slow ==> c in RemoveAll(h, slow).closed
    decreases |slow|
  {
    if slow != [] {
      var h1 := Remove(h, slow[0].0, slow[0].1);
      RemoveIsExact(h, slow[0].0, slow[0].1, c, room);
      RemovalIsExact(h1, slow[1..], c, room);
      assert (c, room) == slow[0] <==> c == slow[0].0 && room == slow[0].1;
      assert (c, room) in slow <==> (c, room) == slow[0] || (c, room) in slow[1..];
      if InRoom(h, c, room) && (c, room) == slow[0] {
        assert h1.closed[|h.closed|] == c;
      }
    }
  }

  // ---------- what a run has done to a client ----------

  // The step makes the client one of the workspace's subscribers.
  predicate Joins(step: Step, c: ClientId, workspace: string) {
    || (step.RegisterClient? && step.c == c && step.info.workspace == workspace)
    || (step == Subscribe(c, workspace) && workspace != "")
  }

  // The client has joined the workspace and not unsubscribed from it since.
  ghost predicate HasJoined(steps: seq<Step>, k: nat, c: ClientId, workspace: string)
    requires k <= |steps|
  {
    exists j | 0 <= j < k :: Joins(steps[j], c, workspace) && Stays(steps, j + 1, k, c, workspace)
  }

  ghost predicate Stays(steps: seq<Step>, j: nat, k: nat, c: ClientId, workspace: string)
    requires k <= |steps|
  {
    forall i | j <= i < k :: steps[i] != Unsubscribe(c, workspace)
  }

  lemma HasJoinedBefore(steps: seq<Step>, k: nat, c: ClientId, workspace: string)
    requires 0 < k <= |steps|
    ensures HasJoined(steps, k, c, workspace) <==>
      || Joins(steps[k - 1], c, workspace)
      || (HasJoined(steps, k - 1, c, workspace) && steps[k - 1] != Unsubscribe(c, workspace))
  {
    hide Joins;
    if HasJoined(steps, k, c, workspace) {
      var j :| 0 <= j < k && Joins(steps[j], c, workspace) && Stays(steps, j + 1, k, c, workspace);
      if j < k - 1 {
        assert Stays(steps, j + 1, k - 1, c, workspace);
      }
    }
    if Joins(steps[k - 1], c, workspace) {
      assert Stays(steps, k, k, c, workspace);
    }
    if HasJoined(steps, k - 1, c, workspace) && steps[k - 1] != Unsubscribe(c, workspace) {
      var j :| 0 <= j < k - 1 && Joins(steps[j], c, workspace) && Stays(steps, j + 1, k - 1, c, workspace);
      assert Stays(steps, j + 1, k, c, workspace);
    }
  }

  lemma {:induction false} RemoveAllSubscribed(h: HubState, slow: seq<(ClientId, string)>)
    ensures RemoveAll(h, slow).subscribed == h.subscribed && RemoveAll(h, slow).removals == h.removals
    decreases |slow|
  {
    if slow != [] {
      RemoveAllSubscribed(Remove(h, slow[0].0, slow[0].1), slow[1..]);
    }
  }

  // Subscriptions are kept for every client, and none is to the workspace "".
  ghost predicate SubscribedSound(h: HubState) {
    h.subscribed.Keys == h.info.Keys && forall c | c in h.subscribed :: "" !in h.subscribed[c]
  }

  lemma StepSubscribes(h: HubState, step: Step, c: ClientId, workspace: string)
    requires Inv(h) && SubscribedSound(h) && Enabled(h, step)
    ensures SubscribedSound(Do(h, step))
    ensures IsSubscribed(Do(h, step), c, workspace) <==>
      || Joins(step, c, workspace)
      || (IsSubscribed(h, c, workspace) && step != Unsubscribe(c, workspace))
  {
    hide Inv;
    if step.RunRemoval? {
      RemoveAllSubscribed(h, h.removals[step.task]);
      RemoveAllKeeps(h, h.removals[step.task]);
    }
  }

  // A client is subscribed to a workspace exactly if it has joined it, by
  // registering for it or subscribing, and not unsubscribed since.
  lemma {:induction false} SubscribedIff(run: seq<HubState>, steps: seq<Step>, k: nat, c: ClientId, workspace: string)
    requires IsRun(run, steps) && k < |run|
    ensures SubscribedSound(run[k])
    ensures IsSubscribed(run[k], c, workspace) <==> HasJoined(steps, k, c, workspace)
  {
    hide Inv, Do, Enabled, IsSubscribed, HasJoined, Joins;
    if k > 0 {
      SubscribedIff(run, steps, k - 1, c, workspace);
      RunKeepsInv(run, steps, k - 1);
      assert Moves(run[k - 1], steps[k - 1], run[k]);
      StepSubscribes(run[k - 1], steps[k - 1], c, workspace);
      HasJoinedBefore(steps, k, c, workspace);
    } else {
      NobodyAtFirst(steps, c, workspace);
    }
  }

  // A connection that registered can come and go as it likes, and a removal that
  // waits can run.
  lemma ClientsCanAct(run: seq<HubState>, steps: seq<Step>, k: nat, c: ClientId, workspace: string, task: nat)
    requires IsRun(run, steps) && k < |run|
    ensures Enabled(run[k], Subscribe(c, workspace)) <==> c in run[k].info
    ensures Enabled(run[k], Unsubscribe(c, workspace)) <==> c in run[k].info
    ensures Enabled(run[k], UnregisterClient(c)) <==> c in run[k].info
    ensures Enabled(run[k], RunRemoval(task)) <==> Waits(steps, k, task)
  {
    hide Waits;
    SubscribedIff(run, steps, k, c, workspace);
    WaitsIff(run, steps, k, task);
  }

  lemma NobodyAtFirst(steps: seq<Step>, c: ClientId, workspace: string)
    ensures SubscribedSound(EMPTY) && !IsSubscribed(EMPTY, c, workspace) && !HasJoined(steps, 0, c, workspace)
  {
  }

  // So a workspace's broadcast goes to exactly its own clients, connected still,
  // that have not unsubscribed from it since they last joined it.
  lemma WorkspaceBroadcastReaches(run: seq<HubState>, steps: seq<Step>, k: nat, c: ClientId, workspace: string)
    requires IsRun(run, steps) && k < |run|
    ensures WorkspaceTarget(run[k], workspace, c) <==>
      && c in run[k].info && run[k].info[c].workspace == workspace && c !in run[k].closed
      && HasJoined(steps, k, c, workspace)
  {
    hide HasJoined;
    RunKeepsInv(run, steps, k);
    SubscribedIff(run, steps, k, c, workspace);
    if c in run[k].info && c !in run[k].closed {
      assert InRoom(run[k], c, run[k].info[c].workspace);
    }
  }

  // A client's channel is closed by its own leaving, or by a removal that lists
  // it, whichever comes first, and by nothing else.
  lemma ClosesIff(run: seq<HubState>, steps: seq<Step>, k: nat, c: ClientId)
    requires IsRun(run, steps) && k < |steps| && c in run[k].info && c !in run[k].closed
    ensures c in run[k + 1].closed <==>
      || steps[k] == UnregisterClient(c)
      || (steps[k].RunRemoval? && (c, run[k].info[c].workspace) in run[k].removals[steps[k].task])
  {
    RunKeepsInv(run, steps, k);
    RunKeepsInv(run, steps, k + 1);
    assert Moves(run[k], steps[k], run[k + 1]);
    if steps[k].RunRemoval? {
      RemoveAllKeeps(run[k], run[k].removals[steps[k].task]);
      RemovalIsExact(run[k], run[k].removals[steps[k].task], c, run[k].info[c].workspace);
    } else if steps[k].UnregisterClient? {
      RemoveIsExact(run[k], steps[k].c, run[k].info[steps[k].c].workspace, c, run[k].info[c].workspace);
    }
  }

  // The step found these clients slow, and its removal is this task's.
  predicate Finds(step: Step, task: nat, slow: seq<(ClientId, string)>) {
    Schedules(step, task) && step.slow == slow
  }

  predicate Schedules(step: Step, task: nat) {
    (step.BroadcastAll? || step.BroadcastToWorkspace? || step.SendToUser?) && step.task == task && step.slow != []
  }

  lemma {:induction false} RemovalWaits(run: seq<HubState>, steps: seq<Step>, j: nat, k: nat, task: nat,
                                        slow: seq<(ClientId, string)>)
    requires IsRun(run, steps) && j < k < |run| && Finds(steps[j], task, slow)
    requires forall i | j < i < k :: steps[i] != RunRemoval(task)
    ensures task in run[k].removals && run[k].removals[task] == slow
    decreases k
  {
    hide Inv;
    assert Moves(run[k - 1], steps[k - 1], run[k]);
    if j < k - 1 {
      RemovalWaits(run, steps, j, k - 1, task, slow);
      if steps[k - 1].RunRemoval? {
        RemoveAllSubscribed(run[k - 1], run[k - 1].removals[steps[k - 1].task]);
      }
    }
  }

  // Whoever a send found slow is out of its room, with its channel closed, once
  // the removal scheduled by that send has run.
  lemma SlowIsDropped(run: seq<HubState>, steps: seq<Step>, j: nat, k: nat, task: nat,
                      slow: seq<(ClientId, string)>, c: ClientId, room: string)
    requires IsRun(run, steps) && j < k < |steps| && Finds(steps[j], task, slow) && steps[k] == RunRemoval(task)
    requires forall i | j < i < k :: steps[i] != RunRemoval(task)
    requires (c, room) in slow
    ensures var h := run[k + 1]; c in h.closed && forall r | r in h.rooms :: c !in h.rooms[r]
  {
    RemovalWaits(run, steps, j, k, task, slow);
    assert Moves(run[k], steps[k], run[k + 1]);
    FoundAtHome(run, steps, j, task, slow, c, room);
    InfoStays(run, steps, j, k, c);
    RunKeepsInv(run, steps, k);
    RunKeepsInv(run, steps, k + 1);
    RemoveAllKeeps(run[k], slow);
    RemovalIsExact(run[k], slow, c, room);
  }

  // Only an open client that the send went to is noted as slow, and with its own
  // workspace.
  lemma FoundAtHome(run: seq<HubState>, steps: seq<Step>, j: nat, task: nat, slow: seq<(ClientId, string)>,
                    c: ClientId, room: string)
    requires IsRun(run, steps) && j < |steps| && Finds(steps[j], task, slow) && (c, room) in slow
    ensures c in run[j].info && c !in run[j].closed && room == run[j].info[c].workspace
    ensures steps[j].BroadcastToWorkspace? ==>
      room == steps[j].workspace && HasJoined(steps, j, c, room)
    ensures steps[j].SendToUser? ==> run[j].info[c].user == steps[j].user && room != steps[j].exclude
  {
    hide HasJoined;
    RunKeepsInv(run, steps, j);
    assert Moves(run[j], steps[j], run[j + 1]);
    var i :| 0 <= i < |slow| && slow[i] == (c, room);
    SubscribedIff(run, steps, j, c, room);
  }

  // The task's removal was scheduled and has not run since.
  ghost predicate Waits(steps: seq<Step>, k: nat, task: nat)
    requires k <= |steps|
  {
    exists j | 0 <= j < k :: Schedules(steps[j], task) && forall i | j < i < k :: steps[i] != RunRemoval(task)
  }

  lemma StepSchedules(h: HubState, step: Step, task: nat)
    requires Enabled(h, step)
    ensures task in Do(h, step).removals <==>
      Schedules(step, task) || (task in h.removals && step != RunRemoval(task))
  {
    if step.RunRemoval? {
      RemoveAllSubscribed(h, h.removals[step.task]);
    }
  }

  // A removal waits exactly from the send that found clients slow until it runs,
  // so it runs once.
  lemma {:induction false} WaitsIff(run: seq<HubState>, steps: seq<Step>, k: nat, task: nat)
    requires IsRun(run, steps) && k < |run|
    ensures task in run[k].removals <==> Waits(steps, k, task)
    ensures k < |steps| && steps[k] == RunRemoval(task) ==> Waits(steps, k, task)
  {
    hide Do, Schedules;
    if k < |steps| {
      assert Moves(run[k], steps[k], run[k + 1]);
    }
    if k > 0 {
      WaitsIff(run, steps, k - 1, task);
      assert Moves(run[k - 1], steps[k - 1], run[k]);
      StepSchedules(run[k - 1], steps[k - 1], task);
      if Waits(steps, k - 1, task) && steps[k - 1] != RunRemoval(task) {
        var j :| 0 <= j < k - 1 && Schedules(steps[j], task)
          && forall i | j < i < k - 1 :: steps[i] != RunRemoval(task);
        assert forall i | j < i < k :: steps[i] != RunRemoval(task);
      }
    }
  }

  lemma SlowAreTargets(
    h: HubState, user: string, exclude: string, offers: seq<ClientId>, slow: seq<(ClientId, string)>)
    requires Inv(h) && forall c | c in offers :: UserTarget(h, user, exclude, c)
    requires forall p | p in slow :: p.0 in offers && p.0 in h.info && p.1 == h.info[p.0].workspace
    ensures forall k | 0 <= k < |slow| ::
        slow[k].1 != exclude && InRoom(h, slow[k].0, slow[k].1) && IsUser(h, user, slow[k].0)
  {
    forall k | 0 <= k < |slow|
      ensures slow[k].1 != exclude && InRoom(h, slow[k].0, slow[k].1) && IsUser(h, user, slow[k].0)
    {
      assert slow[k] in slow && UserTarget(h, user, exclude, slow[k].0);
    }
  }

  // ---------- the hub itself ----------

  class Hub {
    var rooms: map<string, set<ClientId>>
    var info: map<ClientId, ClientInfo>
    var subscribed: map<ClientId, set<string>>
    var closed: seq<ClientId>
    var removals: map<nat, seq<(ClientId, string)>>

    function View(): HubState
      reads this
    {
      HubState(rooms, info, subscribed, closed, removals)
    }

    constructor ()
      ensures View() == EMPTY
    {
      rooms, info, subscribed, closed, removals := map[], map[], map[], [], map[];
    }

    method RegisterClient(c: ClientId, i: ClientInfo)
      modifies this
      ensures View() == Register(old(View()), c, i)
    {
      var room := i.workspace;
      if room !in rooms {
        rooms := rooms[room := {}];
      }
      rooms := rooms[room := rooms[room] + {c}];
      info, subscribed := info[c := i], subscribed[c := {room}];
    }

    method Drop(c: ClientId, room: string)
      modifies this`rooms, this`closed
      ensures View() == Remove(old(View()), c, room)
    {
      if room in rooms && c in rooms[room] {
        rooms, closed := rooms[room := rooms[room] - {c}], closed + [c];
        if rooms[room] == {} {
          rooms := rooms - {room};
        }
      }
    }

    method UnregisterClient(c: ClientId)
      requires c in info
      modifies this`rooms, this`closed
      ensures View() == Remove(old(View()), c, old(info[c].workspace))
    {
      Drop(c, info[c].workspace);
    }

    method DropSlow(slow: seq<(ClientId, string)>)
      modifies this`rooms, this`closed
      ensures View() == RemoveAll(old(View()), slow)
    {
      for k := 0 to |slow|
        invariant RemoveAll(View(), slow[k..]) == RemoveAll(old(View()), slow)
        invariant removals == old(removals) && info == old(info) && subscribed == old(subscribed)
      {
        assert slow[k..][1..] == slow[k + 1..];
        Drop(slow[k].0, slow[k].1);
      }
    }

    method RemoveLater(task: nat, slow: seq<(ClientId, string)>)
      modifies this`removals
      ensures View() == Schedule(old(View()), task, slow)
    {
      if |slow| > 0 {
        removals := removals[task := slow];
      }
    }

    // A name for the next goroutine.
    method NextTask() returns (task: nat)
      ensures task !in removals
    {
      task := 0;
      var todo, seen: set<nat> := removals.Keys, {};
      while todo != {}
        invariant todo + seen == removals.Keys && forall t | t in seen :: t < task
        decreases todo
      {
        var t :| t in todo;
        task := if t < task then task else t + 1;
        todo, seen := todo - {t}, seen + {t};
      }
    }

    // Whatever other goroutines do to the hub.
    method Perform(step: Step)
      requires Enabled(View(), step)
      modifies this
      ensures View() == Do(old(View()), step)
    {
      match step {
        case RegisterClient(c, i) => RegisterClient(c, i);
        case UnregisterClient(c) => UnregisterClient(c);
        case Subscribe(c, ws) =>
          if ws != "" {
            subscribed := subscribed[c := subscribed[c] + {ws}];
          }
        case Unsubscribe(c, ws) =>
          if ws != "" {
            subscribed := subscribed[c := subscribed[c] - {ws}];
          }
        case BroadcastAll(task, slow) => RemoveLater(task, slow);
        case BroadcastToWorkspace(task, _, slow) => RemoveLater(task, slow);
        case SendToUser(task, _, _, slow) => RemoveLater(task, slow);
        case RunRemoval(task) =>
          DropSlow(removals[task]);
          removals := removals - {task};
      }
    }

    // Sends to every client of every room that passes the test; returns whom
    // the message was offered to, in order, and which of them were full, each
    // with its room.
    method Offer(test: (string, ClientId) -> bool, full: ClientId -> bool)
        returns (offers: seq<ClientId>, slow: seq<(ClientId, string)>)
      requires Inv(View())
      ensures Distinct(offers)
      ensures forall c :: c in offers <==> exists room | room in rooms :: c in rooms[room] && test(room, c)
      ensures forall p :: p in slow <==> p.0 in offers && full(p.0) && p.0 in info && p.1 == info[p.0].workspace
    {
      offers, slow := [], [];
      var todo := rooms.Keys;
      while todo != {}
        invariant todo <= rooms.Keys && Distinct(offers)
        invariant forall c :: c in offers <==>
            exists room | room in rooms.Keys - todo :: c in rooms[room] && test(room, c)
        invariant forall p :: p in slow <==> p.0 in offers && full(p.0) && p.0 in info && p.1 == info[p.0].workspace
        decreases todo
      {
        var room :| room in todo;
        var before := offers;
        var clients := rooms[room];
        while clients != {}
          invariant clients <= rooms[room] && Distinct(offers)
          invariant forall c :: c in offers <==> c in before || (c in rooms[room] - clients && test(room, c))
          invariant forall p :: p in slow <==> p.0 in offers && full(p.0) && p.0 in info && p.1 == info[p.0].workspace
          decreases clients
        {
          var c :| c in clients;
          assert c in rooms[room] && info[c].workspace == room;
          if test(room, c) {
            assert c !in before;
            DistinctAppend(offers, c);
            offers := offers + [c];
            if full(c) {
              slow := slow + [(c, room)];
            }
          }
          clients := clients - {c};
        }
        todo := todo - {room};
      }
    }

    // The clients found slow are those of them that were full, and their removal
    // is scheduled.
    method BroadcastToWorkspace(workspace: string, full: ClientId -> bool)
        returns (offers: seq<ClientId>, slow: seq<(ClientId, string)>, task: nat)
      requires Inv(View())
      modifies this`removals
      ensures Distinct(offers)
      ensures forall c :: c in offers <==> WorkspaceTarget(old(View()), workspace, c)
      ensures forall p :: p in slow <==> p.0 in offers && full(p.0) && p.1 == workspace
      ensures Enabled(old(View()), Step.BroadcastToWorkspace(task, workspace, slow))
      ensures View() == Do(old(View()), Step.BroadcastToWorkspace(task, workspace, slow))
    {
      var i, s := info, subscribed;
      offers, slow := Offer((room, c) => c in i && i[c].workspace == workspace && c in s && workspace in s[c], full);
      task := NextTask();
      assert forall k | 0 <= k < |slow| :: slow[k] in slow;
      RemoveLater(task, slow);
    }

    method SendToUser(user: string, exclude: string, full: ClientId -> bool)
        returns (offers: seq<ClientId>, slow: seq<(ClientId, string)>, task: nat)
      requires Inv(View())
      modifies this`removals
      ensures Distinct(offers)
      ensures forall c :: c in offers <==> UserTarget(old(View()), user, exclude, c)
      ensures forall p :: p in slow <==> p.0 in offers && full(p.0) && p.0 in info && p.1 == info[p.0].workspace
      ensures Enabled(old(View()), Step.SendToUser(task, user, exclude, slow))
      ensures View() == Do(old(View()), Step.SendToUser(task, user, exclude, slow))
    {
      var i := info;
      offers, slow := Offer((room, c) => room != exclude && c in i && i[c].user == user, full);
      task := NextTask();
      SlowAreTargets(View(), user, exclude, offers, slow);
      RemoveLater(task, slow);
    }

    method Broadcast(full: ClientId -> bool)
        returns (offers: seq<ClientId>, slow: seq<(ClientId, string)>, task: nat)
      requires Inv(View())
      modifies this`removals
      ensures Distinct(offers)
      ensures forall c :: c in offers <==> GlobalTarget(old(View()), c)
      ensures forall p :: p in slow <==> p.0 in offers && full(p.0) && p.0 in info && p.1 == info[p.0].workspace
      ensures Enabled(old(View()), BroadcastAll(task, slow)) && View() == Do(old(View()), BroadcastAll(task, slow))
    {
      offers, slow := Offer((room, c) => true, full);
      task := NextTask();
      assert forall k | 0 <= k < |slow| :: slow[k] in slow;
      RemoveLater(task, slow);
    }
  }
}
