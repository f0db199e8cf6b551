// server/cmd/server/listeners.go: which connections an event is sent to. The
// bus runs the type's own listener first, then the one for all events.
module EventRouting {
  import opened Base
  import opened RealtimeHub

  datatype EventType = InboxNew | InboxChanged | MemberAdded | Daemon | OtherEvent

  // recipient and member are "" when the payload lacks them.
  datatype BusEvent = BusEvent(eventType: EventType, workspace: string, recipient: string, member: string)

  datatype Targeted = Nobody | User(user: string, exclude: string)

  datatype Spread = Nowhere | Workspace(id: string) | Everywhere

  predicate IsPersonal(t: EventType) {
    t.InboxNew? || t.InboxChanged?
  }

  function TargetedSend(e: BusEvent): Targeted {
    if IsPersonal(e.eventType) && e.recipient != "" then User(e.recipient, "")
    else if e.eventType.MemberAdded? && e.member != "" then User(e.member, e.workspace)
    else Nobody
  }

  function SpreadOf(e: BusEvent): Spread {
    if IsPersonal(e.eventType) then Nowhere
    else if e.workspace != "" then Workspace(e.workspace)
    else if e.eventType.Daemon? then Everywhere
    else Nowhere
  }

  ghost predicate OfferedFirst(h: HubState, e: BusEvent, c: ClientId) {
    match TargetedSend(e)
    case Nobody => false
    case User(user, exclude) => UserTarget(h, user, exclude, c)
  }

  ghost predicate OfferedSecond(h: HubState, e: BusEvent, c: ClientId) {
    match SpreadOf(e)
    case Nowhere => false
    case Workspace(id) => WorkspaceTarget(h, id, c)
    case Everywhere => GlobalTarget(h, c)
  }

  // The hub after a sequence of steps, if each was enabled.
  ghost function After(h: HubState, steps: seq<Step>): Option<HubState>
    decreases |steps|
  {
    if steps == [] then Some(h)
    else if Enabled(h, steps[0]) then After(Do(h, steps[0]), steps[1..])
    else None
  }

  // A client keeps its user and workspace for as long as the hub lives.
  lemma {:induction false} ClientsStay(h: HubState, steps: seq<Step>)
    requires Inv(h) && After(h, steps).Some?
    ensures Inv(After(h, steps).value)
    ensures forall c | c in h.info :: c in After(h, steps).value.info && After(h, steps).value.info[c] == h.info[c]
    decreases |steps|
  {
    hide Inv, Do, Enabled;
    if steps != [] {
      StepKeepsInv(h, steps[0]);
      StepKeepsClients(h, steps[0]);
      ClientsStay(Do(h, steps[0]), steps[1..]);
    }
  }

  // No event is offered to a connection twice, whatever happens to the hub
  // between the two listeners: clients come, go, and change subscriptions, slow
  // ones are dropped, the first listener's among them.
  lemma NoEventOfferedTwice(h: HubState, meanwhile: seq<Step>, e: BusEvent, c: ClientId)
    requires Inv(h) && After(h, meanwhile).Some?
    ensures !(OfferedFirst(h, e, c) && OfferedSecond(After(h, meanwhile).value, e, c))
  {
    ClientsStay(h, meanwhile);
    hide After, Do, Enabled;
    OffersAreDisjoint(h, After(h, meanwhile).value, e, c);
  }

  lemma OffersAreDisjoint(h1: HubState, h2: HubState, e: BusEvent, c: ClientId)
    requires Inv(h1) && Inv(h2)
    requires c in h1.info ==> c in h2.info && h2.info[c] == h1.info[c]
    ensures !(OfferedFirst(h1, e, c) && OfferedSecond(h2, e, c))
  {
  }

  lemma {:induction false} AfterConcat(h: HubState, first: seq<Step>, more: seq<Step>)
    requires After(h, first).Some?
    ensures After(h, first + more) == After(After(h, first).value, more)
    decreases |first|
  {
    if first == [] {
      assert first + more == more;
    } else {
      AfterConcat(Do(h, first[0]), first[1..], more);
      assert (first + more)[1..] == first[1..] + more;
    }
  }

  lemma AfterOne(h: HubState, step: Step)
    requires Enabled(h, step)
    ensures After(h, [step]) == Some(Do(h, step))
  {
    assert [step][1..] == [];
  }

  // The listener of the event's own type.
  method FirstListener(hub: Hub, e: BusEvent, full: ClientId -> bool)
      returns (offers: seq<ClientId>, ghost steps: seq<Step>)
    requires Inv(hub.View())
    modifies hub
    ensures Distinct(offers) && forall c :: c in offers <==> OfferedFirst(old(hub.View()), e, c)
    ensures |steps| <= 1 && After(old(hub.View()), steps) == Some(hub.View())
  {
    offers, steps := [], [];
    var slow, task;
    ghost var h := hub.View();
    if IsPersonal(e.eventType) {
      if e.recipient != "" {
        offers, slow, task := hub.SendToUser(e.recipient, "", full);
        steps := [Step.SendToUser(task, e.recipient, "", slow)];
        AfterOne(h, steps[0]);
      }
    } else if e.eventType.MemberAdded? && e.member != "" {
      offers, slow, task := hub.SendToUser(e.member, e.workspace, full);
      steps := [Step.SendToUser(task, e.member, e.workspace, slow)];
      AfterOne(h, steps[0]);
    }
  }

  // The listener for all events.
  method SecondListener(hub: Hub, e: BusEvent, full: ClientId -> bool)
      returns (offers: seq<ClientId>, ghost steps: seq<Step>)
    requires Inv(hub.View())
    modifies hub
    ensures Distinct(offers) && forall c :: c in offers <==> OfferedSecond(old(hub.View()), e, c)
    ensures |steps| <= 1 && After(old(hub.View()), steps) == Some(hub.View())
  {
    offers, steps := [], [];
    var slow, task;
    ghost var h := hub.View();
    if !IsPersonal(e.eventType) {
      if e.workspace != "" {
        offers, slow, task := hub.BroadcastToWorkspace(e.workspace, full);
        steps := [Step.BroadcastToWorkspace(task, e.workspace, slow)];
        AfterOne(h, steps[0]);
      } else if e.eventType.Daemon? {
        offers, slow, task := hub.Broadcast(full);
        steps := [BroadcastAll(task, slow)];
        AfterOne(h, steps[0]);
      }
    }
  }

  method Interleave(hub: Hub, steps: seq<Step>)
    requires Inv(hub.View()) && After(hub.View(), steps).Some?
    modifies hub
    ensures After(old(hub.View()), steps) == Some(hub.View())
  {
    for k := 0 to |steps|
      invariant Inv(hub.View()) && After(hub.View(), steps[k..]) == After(old(hub.View()), steps)
    {
      assert steps[k..][1..] == steps[k + 1..];
      StepKeepsInv(hub.View(), steps[k]);
      hub.Perform(steps[k]);
    }
  }

  // Both listeners of one event, between which others do what they like with the
  // hub. The lists are whom the event was offered to, one entry per offer; first,
  // between and last are all that happens to the hub.
  method Publish(hub: Hub, meanwhile: HubState -> seq<Step>, e: BusEvent, full: ClientId -> bool)
      returns (offers1: seq<ClientId>, offers2: seq<ClientId>,
               ghost first: seq<Step>, ghost between: seq<Step>, ghost last: seq<Step>)
    requires Inv(hub.View()) && forall h | Inv(h) :: After(h, meanwhile(h)).Some?
    modifies hub
    ensures |first| <= 1 && |last| <= 1 && After(old(hub.View()), first).Some?
    ensures between == meanwhile(After(old(hub.View()), first).value)
    ensures After(old(hub.View()), first + between).Some?
    ensures After(After(old(hub.View()), first + between).value, last) == Some(hub.View())
    ensures Distinct(offers1) && Distinct(offers2) && forall c :: c in offers1 ==> c !in offers2
    ensures forall c :: c in offers1 <==> OfferedFirst(old(hub.View()), e, c)
    ensures forall c :: c in offers2 <==> OfferedSecond(After(old(hub.View()), first + between).value, e, c)
  {
    hide After, OfferedFirst, OfferedSecond;
    ghost var h := hub.View();
    offers1, first := FirstListener(hub, e, full);
    ClientsStay(h, first);
    var steps := meanwhile(hub.View());
    between := steps;
    AfterConcat(h, first, between);
    Interleave(hub, steps);
    ClientsStay(h, first + between);
    offers2, last := SecondListener(hub, e, full);
    forall c
      ensures c in offers1 ==> c !in offers2
    {
      NoEventOfferedTwice(h, first + between, e, c);
    }
  }

  // member:added, whatever happens to the hub between the listeners: a connection
  // of the workspace is offered it exactly if it is in its room and subscribed at
  // the second listener, any other one exactly if it is in its room at the first
  // and is the invited user's.
  lemma MemberAddedReaches(h: HubState, meanwhile: seq<Step>, e: BusEvent, c: ClientId)
    requires Inv(h) && After(h, meanwhile).Some?
    requires e.eventType == MemberAdded && e.workspace != "" && e.member != ""
    ensures var h2 := After(h, meanwhile).value;
      OfferedFirst(h, e, c) || OfferedSecond(h2, e, c) <==>
        && c in h2.info
        && (if h2.info[c].workspace == e.workspace
            then InRoom(h2, c, e.workspace) && IsSubscribed(h2, c, e.workspace)
            else c in h.info && InRoom(h, c, h2.info[c].workspace) && h2.info[c].user == e.member)
    ensures OfferedFirst(h, e, c) <==>
      c in h.info && InRoom(h, c, h.info[c].workspace) && h.info[c].user == e.member
          && h.info[c].workspace != e.workspace
  {
    ClientsStay(h, meanwhile);
    InvitedFirst(h, e, c);
    SubscribersSecond(After(h, meanwhile).value, e, c);
    hide After, Do, Enabled, OfferedFirst, OfferedSecond;
  }

  lemma InvitedFirst(h: HubState, e: BusEvent, c: ClientId)
    requires Inv(h) && e.eventType == MemberAdded && e.member != ""
    ensures OfferedFirst(h, e, c) <==>
      c in h.info && InRoom(h, c, h.info[c].workspace) && h.info[c].user == e.member
          && h.info[c].workspace != e.workspace
  {
  }

  lemma SubscribersSecond(h: HubState, e: BusEvent, c: ClientId)
    requires Inv(h) && e.eventType == MemberAdded && e.workspace != ""
    ensures OfferedSecond(h, e, c) <==>
      c in h.info && h.info[c].workspace == e.workspace && InRoom(h, c, e.workspace) && IsSubscribed(h, c, e.workspace)
  {
  }

  // Inbox events reach the recipient's connections, in whatever workspace, and
  // nobody else, and nobody at all if the event names no recipient.
  lemma PersonalReachesRecipient(h: HubState, e: BusEvent, c: ClientId)
    requires Inv(h) && (e.eventType.InboxNew? || e.eventType.InboxChanged?)
    ensures OfferedFirst(h, e, c) || OfferedSecond(h, e, c) <==>
      e.recipient != "" && c in h.info && c !in h.closed && h.info[c].user == e.recipient
  {
    if c in h.info && c !in h.closed {
      assert InRoom(h, c, h.info[c].workspace);
    }
  }

  // Every other event reaches the open, subscribed connections of its workspace;
  // without a workspace, daemon events reach every open connection and the rest none.
  lemma OrdinaryReachesWorkspace(h: HubState, e: BusEvent, c: ClientId)
    requires Inv(h) && (e.eventType.Daemon? || e.eventType.OtherEvent? || (e.eventType.MemberAdded? && e.member == ""))
    ensures OfferedFirst(h, e, c) || OfferedSecond(h, e, c) <==>
      && c in h.info && c !in h.closed
      && (if e.workspace != "" then h.info[c].workspace == e.workspace && IsSubscribed(h, c, e.workspace)
          else e.eventType.Daemon?)
  {
    if c in h.info && c !in h.closed {
      assert InRoom(h, c, h.info[c].workspace);
    }
  }

  // Without a workspace member:added still reaches the invited user.
  lemma MemberAddedAnywhere(h: HubState, e: BusEvent, c: ClientId)
    requires Inv(h) && e.eventType.MemberAdded? && e.workspace == "" && e.member != ""
    ensures OfferedFirst(h, e, c) || OfferedSecond(h, e, c) <==>
      c in h.info && c !in h.closed && h.info[c].user == e.member
  {
    if c in h.info && c !in h.closed {
      assert InRoom(h, c, h.info[c].workspace);
    }
  }
}
