// pollLoop of server/internal/daemon/daemon.go: a semaphore bounds the running
// tasks; each pass offers the free slots to the runtimes in rotation.
module PollLoop {
  import opened Base
  import opened ModArith

  // Where the poll goroutine is. visited are the positions of the runtime list
  // asked for a task in this pass, in order.
  datatype Pc =
    | AtTop
    | Scanning(n: Pos, visited: seq<nat>)
    | Claiming(n: Pos, visited: seq<nat>, slot: nat)
    | PassOver(n: Pos, visited: seq<nat>, claimed: bool, atCapacity: bool)

  // occupied is the number of values in the semaphore channel of capacity max.
  // Sends into the channel are numbered from 0 and each receive is logged under
  // the number of the send it pays back: running holds the numbers of the
  // handlers that have not yet run their deferred receive.
  datatype Poll = Poll(max: nat, occupied: int, running: set<nat>, offset: nat, pc: Pc, acquired: nat,
      releases: seq<nat>)

  datatype Step =
    | BeginPass(n: Pos)
    | TryAcquire
    | ClaimFails
    | ClaimEmpty
    | ClaimTask
    | EndScan
    | EndPass
    | HandlerDone(slot: nat)

  predicate Enabled(p: Poll, step: Step) {
    match step
    case BeginPass(n) => p.pc.AtTop?
    case TryAcquire => p.pc.Scanning? && |p.pc.visited| < p.pc.n
    case ClaimFails => p.pc.Claiming?
    case ClaimEmpty => p.pc.Claiming?
    case ClaimTask => p.pc.Claiming?
    case EndScan => p.pc.Scanning? && |p.pc.visited| == p.pc.n
    case EndPass => p.pc.PassOver?
    case HandlerDone(slot) => slot in p.running
  }

  function Position(offset: nat, i: nat, n: Pos): (r: nat)
    ensures r < n
  {
    (offset + i) % n
  }

  function Acquire(p: Poll): Poll {
    p.(occupied := p.occupied + 1, acquired := p.acquired + 1)
  }

  function Release(p: Poll, slot: nat): Poll {
    p.(occupied := p.occupied - 1, releases := p.releases + [slot])
  }

  function Do(p: Poll, step: Step): Poll
    requires Enabled(p, step)
  {
    match step
    case BeginPass(n) => p.(pc := Scanning(n, []))
    case TryAcquire =>
      var v := p.pc.visited;
      if p.occupied < p.max
      then Acquire(p).(pc := Claiming(p.pc.n, v + [Position(p.offset, |v|, p.pc.n)], p.acquired))
      else p.(pc := PassOver(p.pc.n, v, false, true))
    case ClaimFails => Release(p, p.pc.slot).(pc := Scanning(p.pc.n, p.pc.visited))
    case ClaimEmpty => Release(p, p.pc.slot).(pc := Scanning(p.pc.n, p.pc.visited))
    case ClaimTask =>
      p.(running := p.running + {p.pc.slot}, pc := PassOver(p.pc.n, p.pc.visited, true, false),
         offset := Position(p.offset, |p.pc.visited|, p.pc.n))
    case EndScan => p.(pc := PassOver(p.pc.n, p.pc.visited, false, false))
    case EndPass =>
      p.(pc := AtTop, offset := if p.pc.claimed then p.offset else Position(p.offset, 1, p.pc.n))
    case HandlerDone(slot) => Release(p, slot).(running := p.running - {slot})
  }

  // ---------- rotation ----------

  ghost predicate Rotation(visited: seq<nat>, offset: nat, n: Pos) {
    |visited| <= n && forall k | 0 <= k < |visited| :: visited[k] == (offset + k) % n
  }

  lemma PositionsDiffer(offset: nat, a: nat, b: nat, n: Pos)
    requires a < b < n
    ensures Position(offset, a, n) != Position(offset, b, n)
  {
    ModAdd(offset, a, n);
    ModAdd(offset, b, n);
  }

  lemma PositionReached(offset: nat, p: nat, n: Pos) returns (k: nat)
    requires p < n
    ensures k < n && Position(offset, k, n) == p
  {
    var r := offset % n;
    k := if r <= p then p - r else p + n - r;
    ModAdd(offset, k, n);
  }

  // ---------- conservation ----------

  // The sends whose slot is still in use: by a running handler or by the claim
  // under way.
  function Holders(p: Poll): set<nat> {
    if p.pc.Claiming? then p.running + {p.pc.slot} else p.running
  }

  // Every send so far is either still held, by one holder, or was paid back by
  // exactly one receive.
  ghost predicate EachPaidOnce(p: Poll) {
    && (p.pc.Claiming? ==> p.pc.slot !in p.running)
    && Distinct(p.releases)
    && (forall t: nat {:trigger t in p.releases} | t in p.releases :: t < p.acquired && t !in Holders(p))
    && (forall t: nat {:trigger t in Holders(p)} | t in Holders(p) :: t < p.acquired)
    && (forall t: nat {:trigger t in p.releases} {:trigger t in Holders(p)} | t < p.acquired ::
        t in p.releases || t in Holders(p))
  }

  ghost predicate Inv(p: Poll) {
    && p.occupied == |Holders(p)| <= p.max
    && EachPaidOnce(p)
    && (p.pc.Scanning? ==> Rotation(p.pc.visited, p.offset, p.pc.n))
    && (p.pc.Claiming? ==> p.pc.visited != [] && Rotation(p.pc.visited, p.offset, p.pc.n))
    && (p.pc.PassOver? ==> PassSound(p.pc))
  }

  // A pass asks no runtime twice; if it neither claimed a task nor met a full
  // semaphore it asked them all.
  ghost predicate PassSound(pc: Pc)
    requires pc.PassOver?
  {
    && (forall j, k | 0 <= j < k < |pc.visited| :: pc.visited[j] != pc.visited[k])
    && (forall k | 0 <= k < |pc.visited| :: pc.visited[k] < pc.n)
    && (!pc.claimed && !pc.atCapacity ==> forall q | 0 <= q < pc.n :: q in pc.visited)
  }

  lemma RotationIsSound(visited: seq<nat>, offset: nat, n: Pos)
    requires Rotation(visited, offset, n)
    ensures forall j, k | 0 <= j < k < |visited| :: visited[j] != visited[k]
    ensures |visited| == n ==> forall q | 0 <= q < n :: q in visited
  {
    forall j, k | 0 <= j < k < |visited|
      ensures visited[j] != visited[k]
    {
      PositionsDiffer(offset, j, k, n);
    }
    if |visited| == n {
      forall q | 0 <= q < n
        ensures q in visited
      {
        var k := PositionReached(offset, q, n);
        assert visited[k] == q;
      }
    }
  }

  lemma AcquireKeeps(p: Poll, visited: seq<nat>, n: Pos)
    requires p.occupied == |Holders(p)| && EachPaidOnce(p) && !p.pc.Claiming?
    ensures var p' := Acquire(p).(pc := Claiming(n, visited, p.acquired));
      p'.occupied == |Holders(p')| && EachPaidOnce(p')
  {
    var p' := Acquire(p).(pc := Claiming(n, visited, p.acquired));
    assert p.acquired !in Holders(p);
    assert Holders(p') == Holders(p) + {p.acquired};
  }

  lemma ReleaseKeeps(p: Poll, p': Poll, slot: nat)
    requires p.occupied == |Holders(p)| && EachPaidOnce(p)
    requires slot in Holders(p) && Holders(p') == Holders(p) - {slot}
    requires p'.running <= p.running && (p'.pc.Claiming? ==> p.pc.Claiming? && p'.pc.slot == p.pc.slot)
    requires p'.occupied == p.occupied - 1 && p'.acquired == p.acquired && p'.releases == p.releases + [slot]
    ensures p'.occupied == |Holders(p')| && EachPaidOnce(p')
  {
    assert forall t: nat | t in p'.releases :: t in p.releases || t == slot;
    assert slot == p'.releases[|p.releases|];
    assert slot !in p.releases;
    forall t: nat | t in p.releases
      ensures t in p'.releases
    {
      var k :| 0 <= k < |p.releases| && p.releases[k] == t;
      assert p'.releases[k] == t;
    }
  }

  // What one pass has established once it stops scanning.
  lemma PassIsSound(visited: seq<nat>, offset: nat, n: Pos, claimed: bool, atCapacity: bool)
    requires Rotation(visited, offset, n)
    requires !claimed && !atCapacity ==> |visited| == n
    ensures PassSound(PassOver(n, visited, claimed, atCapacity))
  {
    RotationIsSound(visited, offset, n);
  }

  predicate GivesBack(step: Step) {
    step.ClaimFails? || step.ClaimEmpty? || step.HandlerDone?
  }

  lemma GivingBackKeeps(p: Poll, step: Step)
    requires Inv(p) && Enabled(p, step) && GivesBack(step)
    ensures Inv(Do(p, step)) && Do(p, step).max == p.max
  {
    var slot := if step.HandlerDone? then step.slot else p.pc.slot;
    assert Holders(Do(p, step)) == Holders(p) - {slot};
    ReleaseKeeps(p, Do(p, step), slot);
    hide EachPaidOnce, Rotation, PassSound, Holders;
  }

  lemma ScanningKeeps(p: Poll, step: Step)
    requires Inv(p) && Enabled(p, step) && !GivesBack(step) && !step.TryAcquire?
    ensures Inv(Do(p, step)) && Do(p, step).max == p.max
  {
    assert Holders(Do(p, step)) == Holders(p);
    hide PassSound;
    match step
    case ClaimTask => PassIsSound(p.pc.visited, p.offset, p.pc.n, true, false);
    case EndScan => PassIsSound(p.pc.visited, p.offset, p.pc.n, false, false);
    case _ =>
  }

  lemma TryAcquireKeeps(p: Poll)
    requires Inv(p) && Enabled(p, TryAcquire)
    ensures Inv(Do(p, TryAcquire)) && Do(p, TryAcquire).max == p.max
  {
    if p.occupied < p.max {
      AcquireKeeps(p, Do(p, TryAcquire).pc.visited, p.pc.n);
    } else {
      PassIsSound(p.pc.visited, p.offset, p.pc.n, false, true);
    }
    hide PassSound, EachPaidOnce;
  }

  lemma StepKeepsInv(p: Poll, step: Step)
    requires Inv(p) && Enabled(p, step)
    ensures Inv(Do(p, step)) && Do(p, step).max == p.max
  {
    hide Inv, Enabled, Do;
    if GivesBack(step) {
      GivingBackKeeps(p, step);
    } else if step.TryAcquire? {
      TryAcquireKeeps(p);
    } else {
      ScanningKeeps(p, step);
    }
  }

  ghost predicate IsRun(run: seq<Poll>, steps: seq<Step>, max: nat) {
    && |run| == |steps| + 1
    && run[0] == Poll(max, 0, {}, 0, AtTop, 0, [])
    && forall k | 0 <= k < |steps| :: Moves(run[k], steps[k], run[k + 1])
  }

  ghost predicate Moves(p: Poll, step: Step, p': Poll) {
    Enabled(p, step) && p' == Do(p, step)
  }

  lemma {:induction false} RunKeepsInv(run: seq<Poll>, steps: seq<Step>, max: nat, k: nat)
    requires IsRun(run, steps, max) && k < |run|
    ensures Inv(run[k]) && run[k].max == max
  {
    if k > 0 {
      RunKeepsInv(run, steps, max, k - 1);
      assert Moves(run[k - 1], steps[k - 1], run[k]);
      StepKeepsInv(run[k - 1], steps[k - 1]);
    }
  }

  // At every point, with handlers finishing at any time: slots in use are the
  // running handlers and the claim under way, never more than the limit; every
  // slot taken is held by one of them or was given back exactly once.
  lemma SlotsAreConserved(run: seq<Poll>, steps: seq<Step>, max: nat, k: nat)
    requires IsRun(run, steps, max) && k < |run|
    ensures var p := run[k];
      && 0 <= p.occupied <= max
      && p.occupied == |p.running| + (if p.pc.Claiming? then 1 else 0)
      && Distinct(p.releases)
      && (forall t: nat {:trigger t in p.releases} {:trigger t in Holders(p)} | t < p.acquired ::
          t in p.releases <==> t !in Holders(p))
      && (p.pc.PassOver? ==> PassSound(p.pc))
  {
    RunKeepsInv(run, steps, max, k);
  }

  lemma OneFurther(x: nat, n: Pos)
    ensures (x % n + 1) % n == (x + 1) % n
  {
    Split(x, n);
    ModAdd(x, 1, n);
    DivModUnique(x % n, n, 0, x % n);
    ModAdd(x % n, 1, n);
  }

  // A pass asks the runtimes from the offset on. The next one starts behind the
  // runtime that got a task, and if none did one place further than this one.
  lemma PassStartsAtOffset(run: seq<Poll>, steps: seq<Step>, max: nat, k: nat)
    requires IsRun(run, steps, max) && k < |steps|
    ensures var pc, offset := run[k].pc, run[k].offset;
      && (pc.Scanning? || pc.Claiming? ==> forall j | 0 <= j < |pc.visited| :: pc.visited[j] == (offset + j) % pc.n)
      && (steps[k].BeginPass? ==> run[k + 1].pc == Scanning(steps[k].n, []))
      && (steps[k].EndPass? ==> run[k + 1].pc == AtTop)
      && (steps[k].ClaimTask? ==>
            pc.Claiming? && pc.visited != [] && run[k + 1].offset == (Last(pc.visited) + 1) % pc.n)
      && (steps[k].EndPass? ==>
            pc.PassOver? && run[k + 1].offset == if pc.claimed then offset else (offset + 1) % pc.n)
      && (!steps[k].ClaimTask? && !steps[k].EndPass? ==> run[k + 1].offset == offset)
  {
    RunKeepsInv(run, steps, max, k);
    assert Moves(run[k], steps[k], run[k + 1]);
    if steps[k].ClaimTask? {
      OneFurther(run[k].offset + |run[k].pc.visited| - 1, run[k].pc.n);
    }
    hide EachPaidOnce, PassSound;
  }

  function Change(step: Step): int {
    if step.ClaimTask? then 1 else if step.HandlerDone? then -1 else 0
  }

  // Tasks claimed less handlers finished in the first k steps.
  function Unfinished(steps: seq<Step>, k: nat): int
    requires k <= |steps|
  {
    if k == 0 then 0 else Unfinished(steps, k - 1) + Change(steps[k - 1])
  }

  lemma RunningChanges(p: Poll, step: Step)
    requires Inv(p) && Enabled(p, step)
    ensures |Do(p, step).running| == |p.running| + Change(step)
  {
    hide PassSound, Rotation;
    if step.ClaimTask? {
      assert |p.running + {p.pc.slot}| == |p.running| + 1;
    } else if step.HandlerDone? {
      assert |p.running - {step.slot}| == |p.running| - 1;
    }
  }

  // So the slots in use are those of the tasks claimed and not finished, and of
  // the claim under way.
  lemma {:induction false} SlotsAreTasks(run: seq<Poll>, steps: seq<Step>, max: nat, k: nat)
    requires IsRun(run, steps, max) && k < |run|
    ensures |run[k].running| == Unfinished(steps, k)
    ensures run[k].occupied == Unfinished(steps, k) + (if run[k].pc.Claiming? then 1 else 0) <= max
  {
    hide Inv, Do, Enabled, Change;
    SlotsAreConserved(run, steps, max, k);
    if k > 0 {
      SlotsAreTasks(run, steps, max, k - 1);
      RunKeepsInv(run, steps, max, k - 1);
      assert Moves(run[k - 1], steps[k - 1], run[k]);
      RunningChanges(run[k - 1], steps[k - 1]);
    }
  }

  // A pass ends when a runtime has a task, when no slot is free, and when all
  // runtimes have been asked; a claim that fails or finds nothing goes on to the
  // next runtime, and a finishing handler does not disturb the pass.
  lemma PassEndsIff(run: seq<Poll>, steps: seq<Step>, max: nat, k: nat)
    requires IsRun(run, steps, max) && k < |steps| && (run[k].pc.Scanning? || run[k].pc.Claiming?)
    ensures var p, pc, step := run[k], run[k + 1].pc, steps[k];
      && (pc.PassOver? <==>
            || step.ClaimTask? || (step.TryAcquire? && p.occupied == max)
            || (p.pc.Scanning? && |p.pc.visited| == p.pc.n && !step.HandlerDone?))
      && (pc.PassOver? ==> pc.claimed == step.ClaimTask? && pc.atCapacity == step.TryAcquire?)
      && (step.TryAcquire? && p.occupied < max ==>
            && pc.Claiming? && |pc.visited| == |p.pc.visited| + 1
            && pc.visited[..|p.pc.visited|] == p.pc.visited)
      && (!step.TryAcquire? ==> !pc.AtTop? && pc.visited == p.pc.visited)
      && (step.HandlerDone? ==> pc == p.pc)
      && pc.n == p.pc.n
  {
    RunKeepsInv(run, steps, max, k);
    assert Moves(run[k], steps[k], run[k + 1]);
    hide EachPaidOnce, PassSound, Position, Rotation;
  }

  // A claim may come out in any way, and the loop always has one next move
  // besides; a handler may finish at any time.
  lemma LoopGoesOn(p: Poll, n: Pos, slot: nat)
    requires Inv(p)
    ensures var pc := p.pc; var more := pc.Scanning? && |pc.visited| < pc.n;
      && (Enabled(p, BeginPass(n)) <==> pc.AtTop?)
      && (Enabled(p, TryAcquire) <==> more)
      && (Enabled(p, EndScan) <==> pc.Scanning? && !more)
      && (Enabled(p, ClaimTask) <==> pc.Claiming?)
      && (Enabled(p, ClaimEmpty) <==> pc.Claiming?)
      && (Enabled(p, ClaimFails) <==> pc.Claiming?)
      && (Enabled(p, EndPass) <==> pc.PassOver?)
      && (Enabled(p, HandlerDone(slot)) <==> slot in p.running)
  {
    hide EachPaidOnce, PassSound;
  }

  lemma OneMoreAsked(visited: seq<nat>, offset: nat, n: Pos)
    requires Rotation(visited, offset, n) && |visited| < n
    ensures Rotation(visited + [(offset + |visited|) % n], offset, n)
  {
  }

  lemma AskedInOrder(visited: seq<nat>, offset: nat, n: Pos)
    requires Rotation(visited, offset, n)
    ensures forall k | 0 <= k < |visited| :: visited[k] == (offset + k) % n
  {
  }

  lemma NothingAsked(offset: nat, n: Pos)
    ensures Rotation([], offset, n)
  {
  }

  // ---------- one pass as the loop runs it ----------

  datatype Claim = Failed | Empty | Task

  class Poller {
    const max: nat
    var occupied: int
    var running: nat
    var pollOffset: nat
    ghost var acquired: nat
    ghost var released: nat

    constructor (max: nat)
      ensures this.max == max && Idle()
    {
      this.max := max;
      occupied, running, pollOffset, acquired, released := 0, 0, 0, 0, 0;
    }

    // Between passes every slot in use belongs to a running handler.
    ghost predicate Idle()
      reads this
    {
      occupied == running <= max && acquired == released + occupied
    }

    // done handlers, at most, finish before the next attempt.
    method HandlersFinish(done: nat)
      requires Idle()
      modifies this`occupied, this`running, this`released
      ensures Idle()
      ensures running == if done <= old(running) then old(running) - done else 0
    {
      var n := if done <= running then done else running;
      occupied, running, released := occupied - n, running - n, released + n;
    }

    method Pass(n: Pos, claim: nat -> Claim, done: nat -> nat)
        returns (visited: seq<nat>, claimed: bool, atCapacity: bool)
      requires Idle()
      modifies this
      ensures Idle()
      ensures PassSound(PassOver(n, visited, claimed, atCapacity))
      ensures forall k | 0 <= k < |visited| :: visited[k] == (old(pollOffset) + k) % n
      ensures claimed ==> visited != [] && claim(Last(visited)) == Task
      ensures claimed ==> pollOffset == (Last(visited) + 1) % n
      ensures !claimed ==> pollOffset == (old(pollOffset) + 1) % n
      ensures forall k | 0 <= k < |visited| - 1 :: claim(visited[k]) != Task
      ensures !claimed && visited != [] ==> claim(Last(visited)) != Task
      ensures atCapacity ==> !claimed && occupied == max
      ensures running <= old(running) + if claimed then 1 else 0
      ensures (forall i :: done(i) == 0) ==> running == old(running) + if claimed then 1 else 0
      ensures acquired == old(acquired) + |visited|
    {
      hide PassSound, Rotation;
      visited, claimed, atCapacity := [], false, false;
      NothingAsked(pollOffset, n);
      ghost var quiet := forall i :: done(i) == 0;
      for i := 0 to n
        invariant Idle() && !claimed && !atCapacity && pollOffset == old(pollOffset)
        invariant running <= old(running) && (quiet ==> running == old(running))
        invariant acquired == old(acquired) + |visited|
        invariant |visited| == i && Rotation(visited, pollOffset, n)
        invariant forall k | 0 <= k < |visited| :: claim(visited[k]) != Task
      {
        HandlersFinish(done(i));
        if occupied >= max {
          atCapacity := true;
          break;
        }
        occupied, acquired := occupied + 1, acquired + 1;
        var position := (pollOffset + i) % n;
        OneMoreAsked(visited, pollOffset, n);
        visited := visited + [position];
        var outcome := claim(position);
        if outcome == Failed {
          occupied, released := occupied - 1, released + 1;
          continue;
        }
        if outcome == Task {
          running := running + 1;
          claimed := true;
          OneFurther(pollOffset + i, n);
          pollOffset := (pollOffset + i + 1) % n;
          break;
        }
        occupied, released := occupied - 1, released + 1;
      }
      PassIsSound(visited, old(pollOffset), n, claimed, atCapacity);
      AskedInOrder(visited, old(pollOffset), n);
      if !claimed {
        pollOffset := (pollOffset + 1) % n;
      }
    }
  }
}
