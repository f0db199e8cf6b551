// The rows behind server/internal/loop/store.go and the statements run on them.
module LoopStores {
  import opened Base
  import opened LoopTypes
  import opened LoopPolicy
  import opened LoopServer

  // A database connection: the pool, or a transaction's private view.
  class LoopStore {
    var loops: map<LoopId, LoopState>
    var order: seq<LoopId>

    constructor (loops: map<LoopId, LoopState>, order: seq<LoopId>)
      ensures this.loops == loops && this.order == order
    {
      this.loops, this.order := loops, order;
    }

    method GetLoop(id: LoopId) returns (row: Option<LoopRow>)
      ensures row == if id in loops then Some(loops[id].row) else None
    {
      row := if id in loops then Some(loops[id].row) else None;
    }

    method Run(id: LoopId, w: Write, origin: Origin)
      requires id in loops
      modifies this`loops
      ensures loops == old(loops)[id := Exec(old(loops)[id], w, origin)]
    {
      loops := loops[id := Exec(loops[id], w, origin)];
    }

    method UpdateStatus(id: LoopId, u: UpdateInput) returns (ok: bool)
      modifies this`loops
      ensures ok == (id in old(loops))
      ensures loops == if ok then old(loops)[id := old(loops)[id].(row := UpdateRow(old(loops)[id].row, u))]
          else old(loops)
      ensures ok ==> var row := old(loops)[id].row;
        loops[id].row == row.(status := u.status, stage := u.stage,
            iteration := match u.iteration case None => 0 case Some(n) => n,
            failure := u.failure, started := u.started || row.started, completed := u.completed)
    {
      ok := id in loops;
      if ok {
        Run(id, UpdateLoop(u), ByStart);
      }
    }

    method SetPR(id: LoopId, url: string, number: int, branch: string) returns (ok: bool)
      modifies this`loops
      ensures ok == (id in old(loops))
      ensures loops ==
        if ok then old(loops)[id := old(loops)[id].(row := SetPr(old(loops)[id].row, url, number, branch))]
        else old(loops)
      ensures ok ==> var row := loops[id].row;
        && row == old(loops)[id].row.(prUrl := row.prUrl, prNumber := row.prNumber, branch := row.branch)
        && (url != "" ==> row.prUrl == Some(url)) && (url == "" ==> row.prUrl == None)
        && (branch != "" ==> row.branch == Some(branch)) && (branch == "" ==> row.branch == None)
        && row.prNumber.Some? && FitsInt32(row.prNumber.value)
        && (number - row.prNumber.value) % 0x1_0000_0000 == 0
        && (FitsInt32(number) ==> row.prNumber == Some(number))
    {
      ToInt32Truncates(number);
      ok := id in loops;
      if ok {
        Run(id, RecordPr(url, number, branch), ByStart);
      }
    }

    // The running and paused loops, oldest first, at most LOAD_LIMIT of them.
    method LoadActive() returns (loaded: seq<(LoopId, LoopRow)>)
      ensures |loaded| == |LoadedLoops(order, loops)|
      ensures forall k | 0 <= k < |loaded| ::
        loaded[k].0 == LoadedLoops(order, loops)[k] && loaded[k].0 in loops && loaded[k].1 == loops[loaded[k].0].row
    {
      hide Active;
      loaded := [];
      var k := 0;
      while k < |order| && |loaded| < LOAD_LIMIT
        invariant k <= |order| && |loaded| <= LOAD_LIMIT
        invariant forall j | 0 <= j < |loaded| :: loaded[j].0 in loops && loaded[j].1 == loops[loaded[j].0].row
        invariant ActiveLoops(order, loops) == Ids(loaded) + ActiveLoops(order[k..], loops)
      {
        ActiveNext(order, loops, k);
        var id := order[k];
        if id in loops && Active(loops[id].row) {
          IdsAppend(loaded, (id, loops[id].row));
          Associative(Ids(loaded), [id], ActiveLoops(order[k + 1..], loops));
          loaded := loaded + [(id, loops[id].row)];
        }
        k := k + 1;
      }
      IdsAre(loaded);
      assert LoadedLoops(order, loops) == Ids(loaded);
    }
  }

  function Ids(loaded: seq<(LoopId, LoopRow)>): (ids: seq<LoopId>)
    ensures |ids| == |loaded|
  {
    if loaded == [] then [] else Ids(loaded[..|loaded| - 1]) + [Last(loaded).0]
  }

  lemma ActiveNext(order: seq<LoopId>, loops: map<LoopId, LoopState>, k: nat)
    requires k < |order|
    ensures ActiveLoops(order[k..], loops)
         == (if order[k] in loops && Active(loops[order[k]].row) then [order[k]] else [])
             + ActiveLoops(order[k + 1..], loops)
  {
    assert order[k..][1..] == order[k + 1..];
  }

  lemma IdsAppend(loaded: seq<(LoopId, LoopRow)>, x: (LoopId, LoopRow))
    ensures Ids(loaded + [x]) == Ids(loaded) + [x.0]
  {
    assert (loaded + [x])[..|loaded|] == loaded;
  }

  lemma {:induction false} IdsAre(loaded: seq<(LoopId, LoopRow)>)
    ensures forall k | 0 <= k < |loaded| :: Ids(loaded)[k] == loaded[k].0
  {
    if loaded != [] {
      IdsAre(loaded[..|loaded| - 1]);
    }
  }
}
