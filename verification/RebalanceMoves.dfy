/** Which bots a rebalancing plan names: who leaves a worker, and who is assigned. */
module RebalanceMoves {
  import opened Wrappers
  import opened Rebalance
  import opened RebalanceTheorems

  // ------------------------------------------------------ who leaves a worker

  /** The recommendations whose source is the given worker, in order. */
  function Shed(recs: seq<Recommendation>, from: WorkerId): (r: seq<Recommendation>)
    ensures forall k :: 0 <= k < |r| ==> r[k] in recs && r[k].Move? && r[k].from == from
  {
    if recs == [] then []
    else
      var front, last := Shed(recs[..|recs| - 1], from), recs[|recs| - 1];
      if last.Move? && last.from == from then front + [last] else front
  }

  lemma ShedSnoc(recs: seq<Recommendation>, r: Recommendation, from: WorkerId)
    ensures Shed(recs + [r], from) == if r.Move? && r.from == from then Shed(recs, from) + [r] else Shed(recs, from)
  {
    assert (recs + [r])[..|recs|] == recs;
  }

  lemma {:induction false} ShedInto(recs: seq<Recommendation>, from: WorkerId, id: WorkerId)
    ensures Into(Shed(recs, from), id) <= Into(recs, id)
  {
    if recs != [] {
      ShedInto(recs[..|recs| - 1], from, id);
      var front, last := Shed(recs[..|recs| - 1], from), recs[|recs| - 1];
      Snoc(front, last);
    }
  }

  lemma {:induction false} AssignAllShed(workers: seq<Worker>, p: Projection, bots: seq<Bot>, id: WorkerId)
    requires Covers(workers, p.load)
    ensures Shed(AssignAll(workers, p, bots).recs, id) == Shed(p.recs, id)
  {
    if bots != [] {
      AssignAllShed(workers, p, bots[..|bots| - 1], id);
      var mid := AssignAll(workers, p, bots[..|bots| - 1]);
      var q := AssignOne(workers, mid, bots[|bots| - 1]);
      if q != mid {
        ShedSnoc(mid.recs, q.recs[|mid.recs|], id);
      }
    }
  }

  lemma {:induction false} MoveAllShedOther(workers: seq<Worker>, p: Projection, from: Worker, bots: seq<Bot>, id: WorkerId)
    requires Covers(workers, p.load) && from.id in p.load && from.id != id
    ensures Shed(MoveAll(workers, p, from, bots).recs, id) == Shed(p.recs, id)
  {
    if bots != [] {
      MoveAllShedOther(workers, p, from, bots[..|bots| - 1], id);
      var mid := MoveAll(workers, p, from, bots[..|bots| - 1]);
      var q := MoveOne(workers, mid, from, bots[|bots| - 1]);
      if q != mid {
        ShedSnoc(mid.recs, q.recs[|mid.recs|], id);
      }
    }
  }

  /** The shed bots are the first ones of a list. */
  ghost predicate TakesFirst(shed: seq<Recommendation>, bots: seq<Bot>) {
    |shed| <= |bots| && forall k :: 0 <= k < |shed| ==> shed[k].bot == bots[k].id
  }

  lemma MoveOneShed(workers: seq<Worker>, p: Projection, s: nat, bot: Bot)
    requires DistinctWorkers(workers) && s < |workers| && Covers(workers, p.load)
    requires Excess(workers[s], p.load) > 0
    ensures var q := MoveOne(workers, p, workers[s], bot);
            var before, after := Shed(p.recs, workers[s].id), Shed(q.recs, workers[s].id);
            if Spare(workers, p.load) == 0 then
              after == before && Spare(workers, q.load) == 0
            else
              |after| == |before| + 1 && after[..|before|] == before && after[|before|].bot == bot.id
  {
    var q := MoveOne(workers, p, workers[s], bot);
    var t := MoveOneCases(workers, p, s, bot);
    if q != p {
      PlacementUsesOneSpare(workers, p.load, q.load, t, Some(s));
      ShedSnoc(p.recs, q.recs[|p.recs|], workers[s].id);
    }
  }

  lemma TakesFirstSnoc(shed: seq<Recommendation>, more: seq<Recommendation>, bots: seq<Bot>)
    requires bots != [] && TakesFirst(shed, bots[..|bots| - 1])
    requires more == shed
          || (|shed| == |bots| - 1 && |more| == |bots| && more[..|shed|] == shed && more[|shed|].bot == bots[|shed|].id)
    ensures TakesFirst(more, bots)
  {}

  /** A worker's bots are moved in order until room runs out, and then no more. */
  lemma {:induction false} MoveAllShed(workers: seq<Worker>, p: Projection, s: nat, bots: seq<Bot>)
    requires DistinctWorkers(workers) && s < |workers| && Good(workers, p, s + 1)
    requires |bots| <= Excess(workers[s], p.load) || bots == []
    requires Shed(p.recs, workers[s].id) == []
    ensures var q := MoveAll(workers, p, workers[s], bots);
            var shed := Shed(q.recs, workers[s].id);
            && TakesFirst(shed, bots)
            && (|shed| < |bots| ==> Spare(workers, q.load) == 0)
  {
    hide Good, Shed, MoveOne;
    if bots != [] {
      var front := bots[..|bots| - 1];
      MoveAllShed(workers, p, s, front);
      MoveAllFills(workers, p, s, front);
      var mid := MoveAll(workers, p, workers[s], front);
      MoveOneShed(workers, mid, s, bots[|bots| - 1]);
      TakesFirstSnoc(Shed(mid.recs, workers[s].id), Shed(MoveAll(workers, p, workers[s], bots).recs, workers[s].id), bots);
    }
  }

  /** The bots in excess of a worker's capacity; a draining or failed worker has none. */
  function Overflow(w: Worker, bots: seq<Bot>): seq<Bot> { Take(BotsOn(bots, w.id), w.currentBots - EffectiveMax(w)) }

  lemma OverflowIs(workers: seq<Worker>, bots: seq<Bot>, p: Projection, s: nat)
    requires s < |workers| && Good(workers, p, s)
    ensures Take(BotsOn(bots, workers[s].id), Excess(workers[s], p.load)) == Overflow(workers[s], bots)
  {
    assert InRange(workers[s], p.load);
  }

  lemma RelieveOneShed(workers: seq<Worker>, bots: seq<Bot>, p: Projection, s: nat, d: nat)
    requires DistinctWorkers(workers) && s < |workers| && d < |workers| && Good(workers, p, s)
    requires s == d ==> Shed(p.recs, workers[d].id) == []
    ensures var q := RelieveOne(workers, bots, p, workers[s]);
            var shed := Shed(q.recs, workers[d].id);
            var overflow := Overflow(workers[d], bots);
            && (s != d ==> shed == Shed(p.recs, workers[d].id) && Spare(workers, q.load) <= Spare(workers, p.load))
            && (s == d ==> TakesFirst(shed, overflow) && (|shed| < |overflow| ==> Spare(workers, q.load) == 0))
  {
    hide Good, Shed;
    var from := workers[s];
    var overflow := Take(BotsOn(bots, from.id), Excess(from, p.load));
    OverflowIsDemand(workers, bots, p, s);
    if s == d {
      MoveAllShed(workers, p, d, overflow);
      OverflowIs(workers, bots, p, s);
    } else {
      MoveAllShedOther(workers, p, from, overflow, workers[d].id);
      RelieveOneFills(workers, bots, p, s);
    }
  }

  /** Before worker d's turn nothing leaves it; after it, its first bots have. */
  lemma {:induction false} RelieveAllShed(workers: seq<Worker>, bots: seq<Bot>, p: Projection, n: nat, d: nat)
    requires DistinctWorkers(workers) && n <= |workers| && d < |workers| && Good(workers, p, 0)
    requires Shed(p.recs, workers[d].id) == []
    ensures var q := RelieveAll(workers, bots, p, n);
            var shed := Shed(q.recs, workers[d].id);
            var overflow := Overflow(workers[d], bots);
            && (n <= d ==> shed == [])
            && (n > d ==> TakesFirst(shed, overflow) && (|shed| < |overflow| ==> Spare(workers, q.load) == 0))
  {
    hide Good, Shed, RelieveOne, Overflow, TakesFirst;
    if n > 0 {
      RelieveAllShed(workers, bots, p, n - 1, d);
      RelieveAllFills(workers, bots, p, n - 1);
      RelieveOneShed(workers, bots, RelieveAll(workers, bots, p, n - 1), n - 1, d);
    }
  }

  lemma {:induction false} NoSpareMeansFull(workers: seq<Worker>, load: Load, i: nat)
    requires Covers(workers, load) && i < |workers| && Spare(workers, load) == 0
    ensures Room(workers[i], load) == 0
  {
    if i > 0 {
      NoSpareMeansFull(workers[1..], load, i - 1);
    }
  }

  /** Which bots leave a worker, and how many: none of a worker within its capacity;
      of one above it, its first bots, as many as it has too many of; and of a
      draining or failed worker, its first bots, as many as its counter says. If
      fewer leave than it holds and should, every online worker is full in the
      projected load. */
  lemma WhoLeaves(workers: seq<Worker>, bots: seq<Bot>, d: nat)
    requires DistinctWorkers(workers) && d < |workers|
    ensures var (plan, w) := (Plan(workers, bots), workers[d]);
            var shed, held := Shed(plan.recs, w.id), BotsOn(bots, w.id);
            var excess := if w.status.Draining? || w.status.Failed? then w.currentBots else w.currentBots - w.maxBots;
            && TakesFirst(shed, held)
            && |shed| <= (if excess > 0 then excess else 0)
            && Covers(workers, plan.load)
            && (|shed| < |held| && |shed| < excess ==>
                  forall i :: 0 <= i < |workers| && workers[i].status.Online? ==> plan.load[workers[i].id] >= workers[i].maxBots)
  {
    hide Good, InitialLoad, AssignAll, RelieveAll, TotalDemand, Unassigned, Assigns, Moves;
    var plan, id := Plan(workers, bots), workers[d].id;
    var p0 := Projection([], InitialLoad(workers));
    StartIsGood(workers);
    AssignAllFills(workers, p0, bots);
    AssignAllShed(workers, p0, bots, id);
    RelieveAllShed(workers, bots, AssignPhase(workers, bots), |workers|, d);
    if Spare(workers, plan.load) == 0 {
      forall i | 0 <= i < |workers| && workers[i].status.Online? ensures plan.load[workers[i].id] >= workers[i].maxBots {
        NoSpareMeansFull(workers, plan.load, i);
      }
    }
  }

  ghost predicate MovedOff(recs: seq<Recommendation>, bot: BotId, from: WorkerId) {
    exists m :: 0 <= m < |recs| && recs[m].Move? && recs[m].bot == bot && recs[m].from == from
  }

  /** So a draining or failed worker whose counter is right is emptied, unless every
      online worker is full in the projected load. */
  lemma UnavailableWorkersAreEmptied(workers: seq<Worker>, bots: seq<Bot>, d: nat)
    requires DistinctWorkers(workers) && d < |workers|
    requires (workers[d].status.Draining? || workers[d].status.Failed?) && workers[d].currentBots == |BotsOn(bots, workers[d].id)|
    ensures var (plan, held) := (Plan(workers, bots), BotsOn(bots, workers[d].id));
            && Covers(workers, plan.load)
            && ((forall k :: 0 <= k < |held| ==> MovedOff(plan.recs, held[k].id, workers[d].id))
                || forall i :: 0 <= i < |workers| && workers[i].status.Online? ==>
                     plan.load[workers[i].id] >= workers[i].maxBots)
  {
    hide Plan, BotsOn;
    WhoLeaves(workers, bots, d);
    var plan, held := Plan(workers, bots), BotsOn(bots, workers[d].id);
    var shed := Shed(plan.recs, workers[d].id);
    if |shed| == |held| {
      forall k | 0 <= k < |held| ensures MovedOff(plan.recs, held[k].id, workers[d].id) {
        assert shed[k] in plan.recs;
      }
    }
  }

  // -------------------------------------------------------------- who is assigned

  function Assignments(recs: seq<Recommendation>): (r: seq<Recommendation>)
    ensures forall k :: 0 <= k < |r| ==> r[k] in recs && r[k].Assign?
  {
    if recs == [] then []
    else
      var front, last := Assignments(recs[..|recs| - 1]), recs[|recs| - 1];
      if last.Assign? then front + [last] else front
  }

  function Workerless(bots: seq<Bot>): (r: seq<Bot>)
    ensures forall b :: b in r <==> b in bots && b.worker.None?
  {
    if bots == [] then []
    else
      var front, last := Workerless(bots[..|bots| - 1]), bots[|bots| - 1];
      if last.worker.None? then front + [last] else front
  }

  lemma AssignmentsSnoc(recs: seq<Recommendation>, r: Recommendation)
    ensures Assignments(recs + [r]) == if r.Assign? then Assignments(recs) + [r] else Assignments(recs)
  {
    assert (recs + [r])[..|recs|] == recs;
  }

  lemma AssignOneNames(workers: seq<Worker>, p: Projection, bot: Bot)
    requires DistinctWorkers(workers) && Covers(workers, p.load)
    ensures var q := AssignOne(workers, p, bot);
            var before, after := Assignments(p.recs), Assignments(q.recs);
            if bot.worker.Some? then q == p
            else if Spare(workers, p.load) == 0 then after == before && Spare(workers, q.load) == 0
            else |after| == |before| + 1 && after[..|before|] == before && after[|before|].bot == bot.id
  {
    hide Spare, Places, LeastLoaded;
    var q := AssignOne(workers, p, bot);
    var t := AssignOneCases(workers, p, bot);
    if q != p {
      PlacementUsesOneSpare(workers, p.load, q.load, t, None);
      AssignmentsSnoc(p.recs, q.recs[|p.recs|]);
    }
  }

  lemma {:induction false} AssignAllNames(workers: seq<Worker>, p: Projection, bots: seq<Bot>)
    requires DistinctWorkers(workers) && Covers(workers, p.load) && Assignments(p.recs) == []
    ensures var q := AssignAll(workers, p, bots);
            && TakesFirst(Assignments(q.recs), Workerless(bots))
            && (|Assignments(q.recs)| < |Workerless(bots)| ==> Spare(workers, q.load) == 0)
  {
    hide Assignments, AssignOne, Spare;
    if bots != [] {
      var front, bot := bots[..|bots| - 1], bots[|bots| - 1];
      AssignAllNames(workers, p, front);
      var mid := AssignAll(workers, p, front);
      AssignOneNames(workers, mid, bot);
      if bot.worker.None? {
        TakesFirstSnoc(Assignments(mid.recs), Assignments(AssignOne(workers, mid, bot).recs), Workerless(bots));
      }
    }
  }

  lemma {:induction false} MoveAllAssigns(workers: seq<Worker>, p: Projection, from: Worker, bots: seq<Bot>)
    requires Covers(workers, p.load) && from.id in p.load
    ensures Assignments(MoveAll(workers, p, from, bots).recs) == Assignments(p.recs)
  {
    if bots != [] {
      MoveAllAssigns(workers, p, from, bots[..|bots| - 1]);
      var mid := MoveAll(workers, p, from, bots[..|bots| - 1]);
      var q := MoveOne(workers, mid, from, bots[|bots| - 1]);
      if q != mid {
        AssignmentsSnoc(mid.recs, q.recs[|mid.recs|]);
      }
    }
  }

  lemma {:induction false} RelieveAllAssigns(workers: seq<Worker>, bots: seq<Bot>, p: Projection, n: nat)
    requires Covers(workers, p.load) && n <= |workers|
    ensures Assignments(RelieveAll(workers, bots, p, n).recs) == Assignments(p.recs)
  {
    hide Assignments, MoveAll;
    if n > 0 {
      RelieveAllAssigns(workers, bots, p, n - 1);
      var mid, from := RelieveAll(workers, bots, p, n - 1), workers[n - 1];
      MoveAllAssigns(workers, mid, from, Take(BotsOn(bots, from.id), Excess(from, mid.load)));
    }
  }

  /** The bots that are assigned are the first bots without a worker, in order, each
      once; if one is left without, the unassigned ones took all the room there was. */
  lemma WhoIsAssigned(workers: seq<Worker>, bots: seq<Bot>)
    requires DistinctWorkers(workers)
    ensures var named := Assignments(Plan(workers, bots).recs);
            && TakesFirst(named, Workerless(bots))
            && (|named| < |Workerless(bots)| ==>
                  forall i :: 0 <= i < |workers| && workers[i].status.Online? ==>
                    workers[i].id in AssignPhase(workers, bots).load
                    && AssignPhase(workers, bots).load[workers[i].id] >= workers[i].maxBots)
  {
    hide InitialLoad, AssignAll, RelieveAll, Assignments, TakesFirst, Spare;
    var p0, p1 := Projection([], InitialLoad(workers)), AssignPhase(workers, bots);
    assert Assignments([]) == [] by { NoAssignments(); }
    AssignAllNames(workers, p0, bots);
    RelieveAllAssigns(workers, bots, p1, |workers|);
    if Spare(workers, p1.load) == 0 {
      forall i | 0 <= i < |workers| && workers[i].status.Online?
        ensures workers[i].id in p1.load && p1.load[workers[i].id] >= workers[i].maxBots
      {
        NoSpareMeansFull(workers, p1.load, i);
      }
    }
  }

  /** The positions are increasing, and the list holds exactly what is found there. */
  ghost predicate InOrder<T>(list: seq<T>, s: seq<T>, at: seq<nat>) {
    && |at| == |list|
    && (forall k :: 0 <= k < |at| ==> at[k] < |s| && list[k] == s[at[k]])
    && forall j, k :: 0 <= j < k < |at| ==> at[j] < at[k]
  }

  lemma InOrderSnoc<T>(list: seq<T>, s: seq<T>, at: seq<nat>, x: T)
    requires InOrder(list, s, at)
    ensures InOrder(list, s + [x], at) && InOrder(list + [x], s + [x], at + [|s|])
  {}

  /** The bots of a worker, and those without one, are listed in the order given. */
  lemma {:induction false} BotsOnInOrder(bots: seq<Bot>, id: WorkerId) returns (at: seq<nat>)
    ensures InOrder(BotsOn(bots, id), bots, at)
  {
    at := [];
    if bots != [] {
      hide InOrder;
      var n := |bots| - 1;
      at := BotsOnInOrder(bots[..n], id);
      InOrderSnoc(BotsOn(bots[..n], id), bots[..n], at, bots[n]);
      assert bots == bots[..n] + [bots[n]];
      if bots[n].worker == Some(id) {
        at := at + [n];
      }
    }
  }

  lemma {:induction false} WorkerlessInOrder(bots: seq<Bot>) returns (at: seq<nat>)
    ensures InOrder(Workerless(bots), bots, at)
  {
    at := [];
    if bots != [] {
      hide InOrder;
      var n := |bots| - 1;
      at := WorkerlessInOrder(bots[..n]);
      InOrderSnoc(Workerless(bots[..n]), bots[..n], at, bots[n]);
      assert bots == bots[..n] + [bots[n]];
      if bots[n].worker.None? {
        at := at + [n];
      }
    }
  }

  lemma NoAssignments()
    ensures Assignments([]) == []
  {}
}
