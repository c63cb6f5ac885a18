/** What the greedy plan is worth: it places as many bots as any plan could,
    and leaves the receiving workers balanced. */
module RebalanceTheorems {
  import opened Wrappers
  import opened Rebalance

  function Min(a: int, b: int): int { if a <= b then a else b }

  // ------------------------------------------------------------- measures

  /** Room left on an online worker. */
  function Room(w: Worker, load: Load): nat
    requires w.id in load
  {
    if w.status.Online? && load[w.id] < w.maxBots then w.maxBots - load[w.id] else 0
  }

  function Spare(workers: seq<Worker>, load: Load): nat
    requires Covers(workers, load)
  {
    if workers == [] then 0 else Room(workers[0], load) + Spare(workers[1..], load)
  }

  function Unassigned(bots: seq<Bot>): nat {
    if bots == [] then 0
    else Unassigned(bots[..|bots| - 1]) + if bots[|bots| - 1].worker.None? then 1 else 0
  }

  /** How many bots a worker must shed: its excess, as far as it holds bots to shed. */
  function Demand(w: Worker, bots: seq<Bot>): nat {
    |Take(BotsOn(bots, w.id), w.currentBots - EffectiveMax(w))|
  }

  function TotalDemand(workers: seq<Worker>, bots: seq<Bot>, n: nat): nat
    requires n <= |workers|
  {
    if n == 0 then 0 else TotalDemand(workers, bots, n - 1) + Demand(workers[n - 1], bots)
  }

  function Assigns(recs: seq<Recommendation>): nat {
    if recs == [] then 0
    else Assigns(recs[..|recs| - 1]) + if recs[|recs| - 1].Assign? then 1 else 0
  }

  function Moves(recs: seq<Recommendation>): nat {
    if recs == [] then 0
    else Moves(recs[..|recs| - 1]) + if recs[|recs| - 1].Move? then 1 else 0
  }

  function Into(recs: seq<Recommendation>, id: WorkerId): nat {
    if recs == [] then 0
    else Into(recs[..|recs| - 1], id) + if recs[|recs| - 1].to == id then 1 else 0
  }

  function OutOf(recs: seq<Recommendation>, id: WorkerId): nat {
    if recs == [] then 0
    else
      var r := recs[|recs| - 1];
      OutOf(recs[..|recs| - 1], id) + if r.Move? && r.from == id then 1 else 0
  }

  lemma Snoc(recs: seq<Recommendation>, r: Recommendation)
    ensures Assigns(recs + [r]) == Assigns(recs) + if r.Assign? then 1 else 0
    ensures Moves(recs + [r]) == Moves(recs) + if r.Move? then 1 else 0
    ensures forall id :: Into(recs + [r], id) == Into(recs, id) + if r.to == id then 1 else 0
    ensures forall id :: OutOf(recs + [r], id) == OutOf(recs, id) + if r.Move? && r.from == id then 1 else 0
  {
    assert (recs + [r])[..|recs|] == recs;
  }

  // ------------------------------------------------------- one placement

  function IdOf(workers: seq<Worker>, s: Option<nat>): Option<WorkerId>
    requires s.Some? ==> s.value < |workers|
  {
    if s.None? then None else Some(workers[s.value].id)
  }

  /** The load changes from l to m by putting one bot on worker t, the least
      loaded one, taken from the overfull worker s if there is one. */
  ghost predicate Places(workers: seq<Worker>, l: Load, m: Load, t: nat, s: Option<nat>) {
    && Covers(workers, l) && Covers(workers, m) && t < |workers|
    && (s.Some? ==> s.value < |workers| && l[workers[s.value].id] > EffectiveMax(workers[s.value]))
    && Eligible(workers[t], l, IdOf(workers, s))
    && (forall j :: 0 <= j < |workers| && Eligible(workers[j], l, IdOf(workers, s))
                    ==> NoFuller(workers[t], workers[j], l))
    && forall j {:trigger workers[j]} :: 0 <= j < |workers| ==>
         m[workers[j].id] == l[workers[j].id] + (if j == t then 1 else 0) - (if s == Some(j) then 1 else 0)
  }

  lemma AssignOneCases(workers: seq<Worker>, p: Projection, bot: Bot) returns (t: nat)
    requires DistinctWorkers(workers) && Covers(workers, p.load)
    ensures var q := AssignOne(workers, p, bot);
            || (q == p && (bot.worker.Some? || Spare(workers, p.load) == 0))
            || (bot.worker.None? && Places(workers, p.load, q.load, t, None)
                && q.recs == p.recs + [Assign(bot.id, workers[t].id)])
  {
    hide NoFuller, Spare, EffectiveMax;
    t := 0;
    var target := LeastLoaded(workers, p.load, None);
    if target.None? {
      NoRoom(workers, p.load, None);
    } else {
      t :| t < |workers| && workers[t] == target.value && Eligible(workers[t], p.load, None)
           && forall j :: 0 <= j < |workers| && Eligible(workers[j], p.load, None)
                          ==> NoFuller(workers[t], workers[j], p.load);
    }
  }

  lemma MoveOneCases(workers: seq<Worker>, p: Projection, s: nat, bot: Bot) returns (t: nat)
    requires DistinctWorkers(workers) && Covers(workers, p.load) && s < |workers|
    requires Excess(workers[s], p.load) > 0
    ensures var q := MoveOne(workers, p, workers[s], bot);
            || (q == p && Spare(workers, p.load) == 0)
            || (Places(workers, p.load, q.load, t, Some(s))
                && q.recs == p.recs + [Move(bot.id, workers[s].id, workers[t].id)])
  {
    hide NoFuller, Spare, EffectiveMax;
    t := 0;
    var x := Some(workers[s].id);
    var target := LeastLoaded(workers, p.load, x);
    if target.None? {
      NoRoom(workers, p.load, Some(s));
    } else {
      t :| t < |workers| && workers[t] == target.value && Eligible(workers[t], p.load, x)
           && forall j :: 0 <= j < |workers| && Eligible(workers[j], p.load, x)
                          ==> NoFuller(workers[t], workers[j], p.load);
    }
  }

  lemma NoRoom(workers: seq<Worker>, load: Load, s: Option<nat>)
    requires DistinctWorkers(workers) && Covers(workers, load)
    requires s.Some? ==> s.value < |workers| && Excess(workers[s.value], load) > 0
    requires LeastLoaded(workers, load, IdOf(workers, s)) == None
    ensures Spare(workers, load) == 0
  {
    forall i | 0 <= i < |workers| ensures Room(workers[i], load) == 0 {
      assert !Eligible(workers[i], load, IdOf(workers, s));
    }
    AllFull(workers, load);
  }

  lemma {:induction false} AllFull(workers: seq<Worker>, load: Load)
    requires Covers(workers, load)
    requires forall i :: 0 <= i < |workers| ==> Room(workers[i], load) == 0
    ensures Spare(workers, load) == 0
  {
    if workers != [] {
      assert forall i :: 0 <= i < |workers[1..]| ==> workers[1..][i] == workers[i + 1];
      AllFull(workers[1..], load);
    }
  }

  lemma {:induction false} SpareAt(workers: seq<Worker>, l: Load, m: Load, t: nat)
    requires Covers(workers, l) && Covers(workers, m) && t < |workers|
    requires forall i :: 0 <= i < |workers| && i != t ==> Room(workers[i], l) == Room(workers[i], m)
    ensures Spare(workers, m) - Room(workers[t], m) == Spare(workers, l) - Room(workers[t], l)
  {
    assert forall i :: 0 <= i < |workers[1..]| ==> workers[1..][i] == workers[i + 1];
    if t == 0 {
      SameRoom(workers[1..], l, m);
    } else {
      SpareAt(workers[1..], l, m, t - 1);
    }
  }

  lemma {:induction false} SameRoom(workers: seq<Worker>, l: Load, m: Load)
    requires Covers(workers, l) && Covers(workers, m)
    requires forall i :: 0 <= i < |workers| ==> Room(workers[i], l) == Room(workers[i], m)
    ensures Spare(workers, m) == Spare(workers, l)
  {
    if workers != [] {
      assert forall i :: 0 <= i < |workers[1..]| ==> workers[1..][i] == workers[i + 1];
      SameRoom(workers[1..], l, m);
    }
  }

  /** Every placement uses up exactly one unit of room; taking a bot off an
      overfull worker never opens new room. */
  lemma PlacementUsesOneSpare(workers: seq<Worker>, l: Load, m: Load, t: nat, s: Option<nat>)
    requires Places(workers, l, m, t, s)
    ensures Spare(workers, m) == Spare(workers, l) - 1
  {
    SpareAt(workers, l, m, t);
  }

  // ------------------------------------------------- what every plan prefix keeps

  /** No worker leaves the range between its own load and its effective capacity. */
  ghost predicate InRange(w: Worker, load: Load)
    requires w.id in load
  {
    if w.currentBots > EffectiveMax(w) then
      EffectiveMax(w) <= load[w.id] <= w.currentBots
    else
      w.currentBots <= load[w.id] <= if w.status.Online? then w.maxBots else w.currentBots
  }

  ghost predicate Receives(recs: seq<Recommendation>, id: WorkerId) {
    exists i :: 0 <= i < |recs| && recs[i].to == id
  }

  /** A receiver's load, less the bot it got last, is no larger a share of its
      capacity than the load of any online worker. */
  ghost predicate BalancedPair(a: Worker, b: Worker, load: Load)
    requires a.id in load && b.id in load
  {
    a.status.Online? && 1 <= load[a.id] <= a.maxBots
    && (load[a.id] - 1) * b.maxBots <= load[b.id] * a.maxBots
  }

  ghost predicate Balanced(workers: seq<Worker>, p: Projection)
    requires Covers(workers, p.load)
  {
    forall i, j :: 0 <= i < |workers| && 0 <= j < |workers|
                   && Receives(p.recs, workers[i].id) && workers[j].status.Online?
                   ==> BalancedPair(workers[i], workers[j], p.load)
  }

  /** The projected load is the current load corrected by the recommendations. */
  ghost predicate Ledger(workers: seq<Worker>, p: Projection)
    requires Covers(workers, p.load)
  {
    forall i :: 0 <= i < |workers| ==>
      p.load[workers[i].id] == workers[i].currentBots + Into(p.recs, workers[i].id) - OutOf(p.recs, workers[i].id)
  }

  ghost predicate Named(workers: seq<Worker>, id: WorkerId) {
    exists i :: 0 <= i < |workers| && workers[i].id == id
  }

  /** Recommendations name listed workers; bots leave only overfull workers
      and go only to workers that were not. */
  ghost predicate Sided(workers: seq<Worker>, recs: seq<Recommendation>) {
    && (forall k :: 0 <= k < |recs| ==> Named(workers, recs[k].to) && (recs[k].Move? ==> Named(workers, recs[k].from)))
    && forall i :: 0 <= i < |workers| ==>
         && (Into(recs, workers[i].id) > 0 ==>
               workers[i].status.Online? && workers[i].currentBots <= workers[i].maxBots)
         && (OutOf(recs, workers[i].id) > 0 ==> workers[i].currentBots > EffectiveMax(workers[i]))
  }

  /** The plan after relieving the first n workers. */
  ghost predicate Good(workers: seq<Worker>, p: Projection, n: nat)
    ensures Good(workers, p, n) ==> Covers(workers, p.load)
  {
    && Covers(workers, p.load)
    && (forall i :: 0 <= i < |workers| ==> InRange(workers[i], p.load))
    && (forall i :: n <= i < |workers| && workers[i].currentBots > EffectiveMax(workers[i])
                    ==> p.load[workers[i].id] == workers[i].currentBots)
    && Balanced(workers, p)
    && Ledger(workers, p)
  }

  lemma BalanceStep(a: Worker, b: Worker, t: Worker, l: Load, m: Load, bEligible: bool)
    requires a.id in l && b.id in l && t.id in l && a.id in m && b.id in m && b.status.Online?
    requires t.status.Online? && l[t.id] < t.maxBots
    requires if a.id == t.id then a == t && m[t.id] == l[t.id] + 1
             else BalancedPair(a, b, l) && m[a.id] == l[a.id]
    requires bEligible ==> m[b.id] >= l[b.id] && NoFuller(t, b, l)
    requires !bEligible ==> m[b.id] >= b.maxBots
    ensures BalancedPair(a, b, m)
  {
    var x := m[a.id] - 1;
    if bEligible {
      MulMono(l[b.id], m[b.id], a.maxBots);
    } else {
      MulMono(x, a.maxBots, b.maxBots);
      MulMono(b.maxBots, m[b.id], a.maxBots);
    }
  }

  lemma PlacementKeepsBalance(workers: seq<Worker>, p: Projection, q: Projection, t: nat, s: Option<nat>)
    requires DistinctWorkers(workers) && Places(workers, p.load, q.load, t, s)
    requires Balanced(workers, p) && |q.recs| == |p.recs| + 1
    requires q.recs == p.recs + [q.recs[|p.recs|]] && q.recs[|p.recs|].to == workers[t].id
    ensures Balanced(workers, q)
  {
    forall i, j | 0 <= i < |workers| && 0 <= j < |workers|
                  && Receives(q.recs, workers[i].id) && workers[j].status.Online?
      ensures BalancedPair(workers[i], workers[j], q.load)
    {
      var a, b := workers[i], workers[j];
      if i != t {
        var k :| 0 <= k < |q.recs| && q.recs[k].to == a.id;
        assert k < |p.recs| && p.recs[k].to == a.id;
        assert BalancedPair(a, a, p.load);
        assert BalancedPair(a, b, p.load);
        assert s != Some(i);
      }
      BalanceStep(a, b, workers[t], p.load, q.load, Eligible(b, p.load, IdOf(workers, s)));
    }
  }

  lemma PlacementKeepsGood(workers: seq<Worker>, p: Projection, q: Projection, t: nat, s: Option<nat>, n: nat)
    requires DistinctWorkers(workers) && Places(workers, p.load, q.load, t, s)
    requires Good(workers, p, n) && (s.Some? ==> s.value < n)
    requires |q.recs| == |p.recs| + 1
    requires q.recs == p.recs + [q.recs[|p.recs|]] && q.recs[|p.recs|].to == workers[t].id
    requires var r := q.recs[|p.recs|];
             if s.Some? then r.Move? && r.from == workers[s.value].id else r.Assign?
    ensures Good(workers, q, n)
  {
    PlacementKeepsBalance(workers, p, q, t, s);
    Snoc(p.recs, q.recs[|p.recs|]);
    forall i | 0 <= i < |workers|
      ensures InRange(workers[i], q.load)
      ensures q.load[workers[i].id] == workers[i].currentBots + Into(q.recs, workers[i].id) - OutOf(q.recs, workers[i].id)
    {
      assert InRange(workers[i], p.load);
    }
  }

  lemma PlacementKeepsSided(workers: seq<Worker>, p: Projection, q: Projection, t: nat, s: Option<nat>)
    requires DistinctWorkers(workers) && Places(workers, p.load, q.load, t, s)
    requires Good(workers, p, 0) || (s.Some? && Good(workers, p, s.value + 1))
    requires Sided(workers, p.recs) && |q.recs| == |p.recs| + 1
    requires q.recs == p.recs + [q.recs[|p.recs|]] && q.recs[|p.recs|].to == workers[t].id
    requires var r := q.recs[|p.recs|];
             if s.Some? then r.Move? && r.from == workers[s.value].id else r.Assign?
    ensures Sided(workers, q.recs)
  {
    Snoc(p.recs, q.recs[|p.recs|]);
    assert Named(workers, workers[t].id);
    assert s.Some? ==> Named(workers, workers[s.value].id) && InRange(workers[s.value], p.load);
    assert InRange(workers[t], p.load);
  }

  // -------------------------------------------------------------- the phases

  /** Phase 1 assigns until the bots or the room run out. */
  lemma {:induction false} AssignAllFills(workers: seq<Worker>, p: Projection, bots: seq<Bot>)
    requires DistinctWorkers(workers) && Good(workers, p, 0)
    ensures var q := AssignAll(workers, p, bots);
            && Good(workers, q, 0)
            && Assigns(q.recs) - Assigns(p.recs) == Min(Unassigned(bots), Spare(workers, p.load))
            && Moves(q.recs) == Moves(p.recs)
            && Spare(workers, q.load) == Spare(workers, p.load) - (Assigns(q.recs) - Assigns(p.recs))
  {
    hide Good, Sided, LeastLoaded, Places, Spare;
    if bots != [] {
      var front, bot := bots[..|bots| - 1], bots[|bots| - 1];
      AssignAllFills(workers, p, front);
      var mid := AssignAll(workers, p, front);
      var t := AssignOneCases(workers, mid, bot);
      var q := AssignOne(workers, mid, bot);
      if q != mid {
        PlacementUsesOneSpare(workers, mid.load, q.load, t, None);
        PlacementKeepsGood(workers, mid, q, t, None, 0);
        Snoc(mid.recs, q.recs[|mid.recs|]);
      }
    }
  }

  /** Phase 2 for one worker moves until its excess or the room runs out. */
  lemma {:induction false} MoveAllFills(workers: seq<Worker>, p: Projection, s: nat, bots: seq<Bot>)
    requires DistinctWorkers(workers) && s < |workers| && Good(workers, p, s + 1)
    requires |bots| <= Excess(workers[s], p.load) || bots == []
    ensures var q := MoveAll(workers, p, workers[s], bots);
            && Good(workers, q, s + 1)
            && q.load[workers[s].id] >= p.load[workers[s].id] - |bots|
            && Moves(q.recs) - Moves(p.recs) == Min(|bots|, Spare(workers, p.load))
            && Assigns(q.recs) == Assigns(p.recs)
            && Spare(workers, q.load) == Spare(workers, p.load) - (Moves(q.recs) - Moves(p.recs))
  {
    hide Good, Sided, MoveOne, LeastLoaded, Spare, EffectiveMax;
    if bots != [] {
      var front, bot := bots[..|bots| - 1], bots[|bots| - 1];
      MoveAllFills(workers, p, s, front);
      var mid := MoveAll(workers, p, workers[s], front);
      var t := MoveOneCases(workers, mid, s, bot);
      var q := MoveOne(workers, mid, workers[s], bot);
      if q != mid {
        PlacementUsesOneSpare(workers, mid.load, q.load, t, Some(s));
        PlacementKeepsGood(workers, mid, q, t, Some(s), s + 1);
        Snoc(mid.recs, q.recs[|mid.recs|]);
      }
    }
  }

  /** A worker is asked to shed exactly its demand, whatever was moved before. */
  lemma OverflowIsDemand(workers: seq<Worker>, bots: seq<Bot>, p: Projection, s: nat)
    requires s < |workers| && Good(workers, p, s)
    ensures Good(workers, p, s + 1)
    ensures var overflow := Take(BotsOn(bots, workers[s].id), Excess(workers[s], p.load));
            && (|overflow| <= Excess(workers[s], p.load) || overflow == [])
            && |overflow| == Demand(workers[s], bots)
  {
    assert InRange(workers[s], p.load);
  }

  lemma RelieveOneFills(workers: seq<Worker>, bots: seq<Bot>, p: Projection, s: nat)
    requires DistinctWorkers(workers) && s < |workers| && Good(workers, p, s)
    ensures var q := RelieveOne(workers, bots, p, workers[s]);
            && Good(workers, q, s + 1)
            && Moves(q.recs) - Moves(p.recs) == Min(Demand(workers[s], bots), Spare(workers, p.load))
            && Assigns(q.recs) == Assigns(p.recs)
            && Spare(workers, q.load) == Spare(workers, p.load) - (Moves(q.recs) - Moves(p.recs))
  {
    hide Good, Sided;
    OverflowIsDemand(workers, bots, p, s);
    MoveAllFills(workers, p, s, Take(BotsOn(bots, workers[s].id), Excess(workers[s], p.load)));
  }

  /** Phase 2: the room left after phase 1 is shared out until demand or room runs out. */
  lemma {:induction false} RelieveAllFills(workers: seq<Worker>, bots: seq<Bot>, p: Projection, n: nat)
    requires DistinctWorkers(workers) && n <= |workers| && Good(workers, p, 0)
    ensures var q := RelieveAll(workers, bots, p, n);
            && Good(workers, q, n)
            && Moves(q.recs) - Moves(p.recs) == Min(TotalDemand(workers, bots, n), Spare(workers, p.load))
            && Assigns(q.recs) == Assigns(p.recs)
            && Spare(workers, q.load) == Spare(workers, p.load) - (Moves(q.recs) - Moves(p.recs))
  {
    hide Good, Sided, RelieveOne, Demand, Spare, Moves, Assigns;
    if n > 0 {
      RelieveAllFills(workers, bots, p, n - 1);
      RelieveOneFills(workers, bots, RelieveAll(workers, bots, p, n - 1), n - 1);
    }
  }

  lemma {:induction false} InitialLoadIsCurrent(workers: seq<Worker>)
    requires DistinctWorkers(workers)
    ensures forall i :: 0 <= i < |workers| ==> InitialLoad(workers)[workers[i].id] == workers[i].currentBots
  {
    if workers != [] {
      InitialLoadIsCurrent(workers[..|workers| - 1]);
    }
  }

  lemma StartIsGood(workers: seq<Worker>)
    requires DistinctWorkers(workers)
    ensures Good(workers, Projection([], InitialLoad(workers)), 0)
  {
    InitialLoadIsCurrent(workers);
  }

  // ------------------------------------------------------------ main results

  /** The plan is maximum: it assigns as many bots as there are unassigned bots
      and room for them, and moves as many as must move and still fit. */
  lemma PlanIsMaximum(workers: seq<Worker>, bots: seq<Bot>)
    requires DistinctWorkers(workers)
    ensures var room := Spare(workers, InitialLoad(workers));
            var recs := Plan(workers, bots).recs;
            && Assigns(recs) == Min(Unassigned(bots), room)
            && Moves(recs) == Min(TotalDemand(workers, bots, |workers|), room - Assigns(recs))
  {
    PlanIsGood(workers, bots);
  }

  lemma PlanIsGood(workers: seq<Worker>, bots: seq<Bot>)
    requires DistinctWorkers(workers)
    ensures var room := Spare(workers, InitialLoad(workers));
            var q := Plan(workers, bots);
            && Good(workers, q, |workers|)
            && Assigns(q.recs) == Min(Unassigned(bots), room)
            && Moves(q.recs) == Min(TotalDemand(workers, bots, |workers|), room - Assigns(q.recs))
            && Spare(workers, q.load) == room - Assigns(q.recs) - Moves(q.recs)
  {
    hide Good, Spare, TotalDemand, Unassigned, InitialLoad, AssignAll, RelieveAll;
    InitialCovers(workers);
    StartIsGood(workers);
    AssignAllFills(workers, Projection([], InitialLoad(workers)), bots);
    RelieveAllFills(workers, bots, AssignPhase(workers, bots), |workers|);
  }

  /** The plan is balanced: every receiver, less the bot it got last, is at
      most as full as any online worker, and never above its capacity. */
  lemma PlanIsBalanced(workers: seq<Worker>, bots: seq<Bot>, a: Worker, b: Worker)
    requires DistinctWorkers(workers) && a in workers && b in workers
    requires Receives(Plan(workers, bots).recs, a.id) && b.status.Online?
    ensures var load := Plan(workers, bots).load;
            && a.id in load && b.id in load
            && a.status.Online? && load[a.id] <= a.maxBots
            && (load[a.id] - 1) * b.maxBots <= load[b.id] * a.maxBots
  {
    hide Plan, TotalDemand, Unassigned, Spare, InitialLoad, Assigns, Moves;
    InitialCovers(workers);
    PlanIsGood(workers, bots);
    assert BalancedPair(a, b, Plan(workers, bots).load);
  }

  // ---------------------------------------------- no feasible plan does better

  /** Any plan an admin could carry out: bots go only to listed online workers
      that stay within capacity, workers shed no more than they must, and no
      more bots are assigned than lack a worker. */
  ghost predicate Feasible(workers: seq<Worker>, bots: seq<Bot>, recs: seq<Recommendation>) {
    && Sided(workers, recs)
    && (forall i :: 0 <= i < |workers| ==>
          && (Into(recs, workers[i].id) > 0 ==> workers[i].currentBots + Into(recs, workers[i].id) <= workers[i].maxBots)
          && OutOf(recs, workers[i].id) <= Demand(workers[i], bots))
    && Assigns(recs) <= Unassigned(bots)
  }

  function Sum(workers: seq<Worker>, f: WorkerId -> nat, n: nat): nat
    requires n <= |workers|
  {
    if n == 0 then 0 else Sum(workers, f, n - 1) + f(workers[n - 1].id)
  }

  lemma {:induction false} SumBump(workers: seq<Worker>, f: WorkerId -> nat, g: WorkerId -> nat, i: nat, n: nat)
    requires DistinctWorkers(workers) && n <= |workers| && i < |workers|
    requires forall id :: g(id) == f(id) + if id == workers[i].id then 1 else 0
    ensures Sum(workers, g, n) == Sum(workers, f, n) + if i < n then 1 else 0
  {
    if n > 0 {
      SumBump(workers, f, g, i, n - 1);
    }
  }

  lemma {:induction false} EveryTargetCounted(workers: seq<Worker>, recs: seq<Recommendation>)
    requires DistinctWorkers(workers)
    requires forall k :: 0 <= k < |recs| ==> Named(workers, recs[k].to)
    ensures Sum(workers, id => Into(recs, id), |workers|) >= |recs|
  {
    if recs != [] {
      var front, r := recs[..|recs| - 1], recs[|recs| - 1];
      EveryTargetCounted(workers, front);
      var i :| 0 <= i < |workers| && workers[i].id == r.to;
      SumBump(workers, id => Into(front, id), id => Into(recs, id), i, |workers|);
    }
  }

  lemma {:induction false} EverySourceCounted(workers: seq<Worker>, recs: seq<Recommendation>)
    requires DistinctWorkers(workers)
    requires forall k :: 0 <= k < |recs| && recs[k].Move? ==> Named(workers, recs[k].from)
    ensures Sum(workers, id => OutOf(recs, id), |workers|) >= Moves(recs)
  {
    if recs != [] {
      var front, r := recs[..|recs| - 1], recs[|recs| - 1];
      EverySourceCounted(workers, front);
      if r.Move? {
        var i :| 0 <= i < |workers| && workers[i].id == r.from;
        SumBump(workers, id => OutOf(front, id), id => OutOf(recs, id), i, |workers|);
      } else {
        SumSame(workers, id => OutOf(front, id), id => OutOf(recs, id), |workers|);
      }
    }
  }

  lemma {:induction false} SumSame(workers: seq<Worker>, f: WorkerId -> nat, g: WorkerId -> nat, n: nat)
    requires n <= |workers| && forall id :: g(id) == f(id)
    ensures Sum(workers, g, n) == Sum(workers, f, n)
  {
    if n > 0 {
      SumSame(workers, f, g, n - 1);
    }
  }

  lemma {:induction false} DemandBoundsMoves(workers: seq<Worker>, bots: seq<Bot>, recs: seq<Recommendation>, n: nat)
    requires n <= |workers|
    requires forall i :: 0 <= i < |workers| ==> OutOf(recs, workers[i].id) <= Demand(workers[i], bots)
    ensures Sum(workers, id => OutOf(recs, id), n) <= TotalDemand(workers, bots, n)
  {
    if n > 0 {
      DemandBoundsMoves(workers, bots, recs, n - 1);
    }
  }

  lemma {:induction false} SpareLast(workers: seq<Worker>, load: Load)
    requires Covers(workers, load) && workers != []
    ensures Covers(workers[..|workers| - 1], load)
    ensures Spare(workers, load) == Spare(workers[..|workers| - 1], load) + Room(workers[|workers| - 1], load)
  {
    if |workers| > 1 {
      SpareLast(workers[1..], load);
      assert workers[1..][..|workers| - 2] == workers[..|workers| - 1][1..];
    }
  }

  lemma {:induction false} RoomBoundsInto(workers: seq<Worker>, load: Load, recs: seq<Recommendation>, n: nat)
    requires Covers(workers, load) && n <= |workers|
    requires forall i :: 0 <= i < |workers| ==> Into(recs, workers[i].id) <= Room(workers[i], load)
    ensures Sum(workers, id => Into(recs, id), n) <= Spare(workers[..n], load)
  {
    if n > 0 {
      RoomBoundsInto(workers, load, recs, n - 1);
      SpareLast(workers[..n], load);
      assert workers[..n][..n - 1] == workers[..n - 1];
    }
  }

  lemma {:induction false} AssignsAndMoves(recs: seq<Recommendation>)
    ensures Assigns(recs) + Moves(recs) == |recs|
  {
    if recs != [] {
      AssignsAndMoves(recs[..|recs| - 1]);
    }
  }

  lemma FeasibleFits(workers: seq<Worker>, bots: seq<Bot>, recs: seq<Recommendation>)
    requires DistinctWorkers(workers) && Feasible(workers, bots, recs)
    ensures |recs| <= Spare(workers, InitialLoad(workers))
  {
    EveryTargetCounted(workers, recs);
    InitialLoadIsCurrent(workers);
    RoomBoundsInto(workers, InitialLoad(workers), recs, |workers|);
    assert workers[..|workers|] == workers;
  }

  lemma FeasibleIsWanted(workers: seq<Worker>, bots: seq<Bot>, recs: seq<Recommendation>)
    requires DistinctWorkers(workers) && Feasible(workers, bots, recs)
    ensures |recs| <= Unassigned(bots) + TotalDemand(workers, bots, |workers|)
  {
    AssignsAndMoves(recs);
    EverySourceCounted(workers, recs);
    DemandBoundsMoves(workers, bots, recs, |workers|);
  }

  lemma InitialCovers(workers: seq<Worker>)
    requires DistinctWorkers(workers)
    ensures Covers(workers, InitialLoad(workers))
  {}

  lemma GreedySize(workers: seq<Worker>, bots: seq<Bot>)
    requires DistinctWorkers(workers)
    ensures |Plan(workers, bots).recs|
         == Min(Unassigned(bots) + TotalDemand(workers, bots, |workers|), Spare(workers, InitialLoad(workers)))
  {
    hide Plan, TotalDemand, Unassigned, Spare, InitialLoad, Assigns, Moves;
    InitialCovers(workers);
    PlanIsMaximum(workers, bots);
    AssignsAndMoves(Plan(workers, bots).recs);
  }

  /** No feasible plan places more bots than the greedy one. */
  lemma NoPlanDoesBetter(workers: seq<Worker>, bots: seq<Bot>, recs: seq<Recommendation>)
    requires DistinctWorkers(workers) && Feasible(workers, bots, recs)
    ensures |recs| <= |Plan(workers, bots).recs|
  {
    hide Plan, Feasible, TotalDemand, Unassigned, Spare, InitialLoad;
    InitialCovers(workers);
    FeasibleFits(workers, bots, recs);
    FeasibleIsWanted(workers, bots, recs);
    GreedySize(workers, bots);
  }

  lemma {:induction false} AssignAllTakesNone(workers: seq<Worker>, p: Projection, bots: seq<Bot>, id: WorkerId)
    requires Covers(workers, p.load)
    ensures OutOf(AssignAll(workers, p, bots).recs, id) == OutOf(p.recs, id)
  {
    if bots != [] {
      AssignAllTakesNone(workers, p, bots[..|bots| - 1], id);
      var mid := AssignAll(workers, p, bots[..|bots| - 1]);
      var q := AssignOne(workers, mid, bots[|bots| - 1]);
      if q != mid {
        Snoc(mid.recs, q.recs[|mid.recs|]);
      }
    }
  }

  lemma {:induction false} MoveAllTakes(workers: seq<Worker>, p: Projection, from: Worker, bots: seq<Bot>, id: WorkerId)
    requires Covers(workers, p.load) && from.id in p.load
    ensures OutOf(MoveAll(workers, p, from, bots).recs, id) <= OutOf(p.recs, id) + if id == from.id then |bots| else 0
  {
    if bots != [] {
      MoveAllTakes(workers, p, from, bots[..|bots| - 1], id);
      var mid := MoveAll(workers, p, from, bots[..|bots| - 1]);
      var q := MoveOne(workers, mid, from, bots[|bots| - 1]);
      if q != mid {
        Snoc(mid.recs, q.recs[|mid.recs|]);
      }
    }
  }

  /** No worker gives up more bots than it holds. */
  lemma {:induction false} RelieveAllTakes(workers: seq<Worker>, bots: seq<Bot>, p: Projection, n: nat, i: nat)
    requires DistinctWorkers(workers) && n <= |workers| && i < |workers| && Covers(workers, p.load)
    ensures OutOf(RelieveAll(workers, bots, p, n).recs, workers[i].id)
         <= OutOf(p.recs, workers[i].id) + if i < n then |BotsOn(bots, workers[i].id)| else 0
  {
    hide OutOf, MoveAll, BotsOn;
    if n > 0 {
      RelieveAllTakes(workers, bots, p, n - 1, i);
      var from, mid := workers[n - 1], RelieveAll(workers, bots, p, n - 1);
      MoveAllTakes(workers, mid, from, Take(BotsOn(bots, from.id), Excess(from, mid.load)), workers[i].id);
    }
  }

  lemma {:induction false} AssignAllSided(workers: seq<Worker>, p: Projection, bots: seq<Bot>)
    requires DistinctWorkers(workers) && Good(workers, p, 0) && Sided(workers, p.recs)
    ensures Sided(workers, AssignAll(workers, p, bots).recs)
  {
    hide Good, Sided, LeastLoaded, Places, Spare, Moves, Assigns, Unassigned;
    if bots != [] {
      var front := bots[..|bots| - 1];
      AssignAllSided(workers, p, front);
      AssignAllFills(workers, p, front);
      var mid := AssignAll(workers, p, front);
      var t := AssignOneCases(workers, mid, bots[|bots| - 1]);
      var q := AssignOne(workers, mid, bots[|bots| - 1]);
      if q != mid {
        PlacementKeepsSided(workers, mid, q, t, None);
      }
    }
  }

  lemma {:induction false} MoveAllSided(workers: seq<Worker>, p: Projection, s: nat, bots: seq<Bot>)
    requires DistinctWorkers(workers) && s < |workers| && Good(workers, p, s + 1) && Sided(workers, p.recs)
    requires |bots| <= Excess(workers[s], p.load) || bots == []
    ensures Sided(workers, MoveAll(workers, p, workers[s], bots).recs)
  {
    hide Good, Sided, MoveOne, LeastLoaded, Places, Spare, Moves, Assigns, EffectiveMax;
    if bots != [] {
      var front := bots[..|bots| - 1];
      MoveAllSided(workers, p, s, front);
      MoveAllFills(workers, p, s, front);
      var mid := MoveAll(workers, p, workers[s], front);
      var t := MoveOneCases(workers, mid, s, bots[|bots| - 1]);
      var q := MoveOne(workers, mid, workers[s], bots[|bots| - 1]);
      if q != mid {
        PlacementKeepsSided(workers, mid, q, t, Some(s));
      }
    }
  }

  lemma RelieveOneSided(workers: seq<Worker>, bots: seq<Bot>, p: Projection, s: nat)
    requires DistinctWorkers(workers) && s < |workers| && Good(workers, p, s) && Sided(workers, p.recs)
    ensures Sided(workers, RelieveOne(workers, bots, p, workers[s]).recs)
  {
    hide Good, Sided, MoveAll, Demand, BotsOn, Take;
    OverflowIsDemand(workers, bots, p, s);
    MoveAllSided(workers, p, s, Take(BotsOn(bots, workers[s].id), Excess(workers[s], p.load)));
  }

  lemma {:induction false} RelieveAllSided(workers: seq<Worker>, bots: seq<Bot>, p: Projection, n: nat)
    requires DistinctWorkers(workers) && n <= |workers| && Good(workers, p, 0) && Sided(workers, p.recs)
    ensures Sided(workers, RelieveAll(workers, bots, p, n).recs)
  {
    hide Good, Sided, RelieveOne, Spare, TotalDemand, Moves, Assigns;
    if n > 0 {
      RelieveAllSided(workers, bots, p, n - 1);
      RelieveAllFills(workers, bots, p, n - 1);
      RelieveOneSided(workers, bots, RelieveAll(workers, bots, p, n - 1), n - 1);
    }
  }

  lemma ReceiversFit(workers: seq<Worker>, bots: seq<Bot>, p: Projection, i: nat)
    requires i < |workers| && Good(workers, p, |workers|) && Sided(workers, p.recs)
    requires OutOf(p.recs, workers[i].id) <= |BotsOn(bots, workers[i].id)|
    ensures Into(p.recs, workers[i].id) > 0 ==> workers[i].currentBots + Into(p.recs, workers[i].id) <= workers[i].maxBots
    ensures OutOf(p.recs, workers[i].id) <= Demand(workers[i], bots)
  {
    assert InRange(workers[i], p.load);
  }

  /** The greedy plan is itself feasible. */
  lemma PlanIsFeasible(workers: seq<Worker>, bots: seq<Bot>)
    requires DistinctWorkers(workers)
    ensures Feasible(workers, bots, Plan(workers, bots).recs)
  {
    var p0 := Projection([], InitialLoad(workers));
    var p1, q := AssignPhase(workers, bots), Plan(workers, bots);
    StartIsGood(workers);
    AssignAllFills(workers, p0, bots);
    AssignAllSided(workers, p0, bots);
    RelieveAllSided(workers, bots, p1, |workers|);
    PlanIsGood(workers, bots);
    forall i | 0 <= i < |workers|
      ensures Into(q.recs, workers[i].id) > 0 ==> workers[i].currentBots + Into(q.recs, workers[i].id) <= workers[i].maxBots
      ensures OutOf(q.recs, workers[i].id) <= Demand(workers[i], bots)
    {
      AssignAllTakesNone(workers, p0, bots, workers[i].id);
      RelieveAllTakes(workers, bots, p1, |workers|, i);
      ReceiversFit(workers, bots, q, i);
    }
  }
}
