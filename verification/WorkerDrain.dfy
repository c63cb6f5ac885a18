/** Draining a worker: the part of the rebalancing plan that leaves it, applied
    through setBotWorker (apps/control-plane/lib/workers/drain.ts). */
module WorkerDrain {
  import opened Wrappers
  import opened Rebalance
  import opened RebalanceTheorems
  import opened RebalanceMoves
  import opened WorkerPool

  /** The plan for a draining worker whose counter is right: the moves off it take
      its bots in order, each to a listed online worker with room, and if some
      bot is left over then every online worker is full in the projected load. */
  lemma DrainPlan(workers: seq<Worker>, bots: seq<Bot>, d: nat)
    requires DistinctWorkers(workers) && d < |workers|
    requires workers[d].status.Draining? && workers[d].currentBots == |BotsOn(bots, workers[d].id)|
    ensures var plan := Plan(workers, bots);
            var shed := Shed(plan.recs, workers[d].id);
            && TakesFirst(shed, BotsOn(bots, workers[d].id))
            && (forall i :: 0 <= i < |workers| && Into(shed, workers[i].id) > 0 ==>
                  workers[i].status.Online? && workers[i].currentBots + Into(shed, workers[i].id) <= workers[i].maxBots)
            && (forall k :: 0 <= k < |shed| ==> Named(workers, shed[k].to) && shed[k].to != workers[d].id)
            && Covers(workers, plan.load)
            && (|shed| < |BotsOn(bots, workers[d].id)| ==>
                  forall i :: 0 <= i < |workers| && workers[i].status.Online? ==> plan.load[workers[i].id] >= workers[i].maxBots)
  {
    hide Plan, BotsOn;
    var plan := Plan(workers, bots);
    var shed := Shed(plan.recs, workers[d].id);
    WhoLeaves(workers, bots, d);
    PlanIsFeasible(workers, bots);
    forall i | 0 <= i < |workers| ensures Into(shed, workers[i].id) <= Into(plan.recs, workers[i].id) {
      ShedInto(plan.recs, workers[d].id, workers[i].id);
    }
    forall k | 0 <= k < |shed| ensures Named(workers, shed[k].to) && shed[k].to != workers[d].id {
      var m :| 0 <= m < |plan.recs| && plan.recs[m] == shed[k];
      IntoPositive(plan.recs, m);
    }
  }

  lemma {:induction false} IntoPositive(recs: seq<Recommendation>, m: nat)
    requires m < |recs|
    ensures Into(recs, recs[m].to) > 0
  {
    if m < |recs| - 1 {
      IntoPositive(recs[..|recs| - 1], m);
    }
  }

  // ------------------------------------------------- applying the moves

  /** Where a bot is once some recommendations were applied in order. */
  function Relocated(b: Bot, recs: seq<Recommendation>): (r: Bot)
    ensures r.id == b.id && (r == b || exists k :: 0 <= k < |recs| && recs[k].bot == b.id && r.worker == Some(recs[k].to))
  {
    if recs == [] then b
    else if recs[|recs| - 1].bot == b.id then Bot(b.id, Some(recs[|recs| - 1].to))
    else Relocated(b, recs[..|recs| - 1])
  }

  /** Moves off worker d that the pool p can carry out. */
  ghost predicate Appliable(p: Pool, shed: seq<Recommendation>, d: nat)
    ensures Appliable(p, shed, d) ==> d < |p.workers|
  {
    && Agreement(p) && d < |p.workers|
    && TakesFirst(shed, BotsOn(p.bots, p.workers[d].id))
    && forall k :: 0 <= k < |shed| ==> Named(p.workers, shed[k].to) && shed[k].to != p.workers[d].id
  }

  /** The pool q after the first j of these moves. */
  ghost predicate Applied(p: Pool, shed: seq<Recommendation>, d: nat, q: Pool, j: nat)
    requires d < |p.workers| && j <= |shed|
  {
    && Agreement(q)
    && SameWorkers(p.workers, q.workers)
    && |q.bots| == |p.bots|
    && (forall i :: 0 <= i < |p.bots| ==> q.bots[i] == Relocated(p.bots[i], shed[..j]))
    && forall i :: 0 <= i < |p.workers| ==>
         q.workers[i].currentBots == p.workers[i].currentBots + Into(shed[..j], p.workers[i].id) - (if i == d then j else 0)
  }

  lemma {:induction false} BotsOnDistinct(bots: seq<Bot>, id: WorkerId)
    requires DistinctBots(bots)
    ensures DistinctBots(BotsOn(bots, id))
  {
    if bots != [] {
      var front := bots[..|bots| - 1];
      BotsOnDistinct(front, id);
      forall b | b in BotsOn(front, id) ensures b.id != bots[|bots| - 1].id {
        var i :| 0 <= i < |front| && front[i] == b;
      }
    }
  }

  lemma {:induction false} NotYetRelocated(b: Bot, recs: seq<Recommendation>)
    requires forall k :: 0 <= k < |recs| ==> recs[k].bot != b.id
    ensures Relocated(b, recs) == b
  {}

  lemma NotYetMoved(bots: seq<Bot>, id: WorkerId, shed: seq<Recommendation>, j: nat) returns (i: nat)
    requires DistinctBots(bots) && j < |shed| && TakesFirst(shed, BotsOn(bots, id))
    ensures i < |bots| && bots[i].id == shed[j].bot && bots[i].worker == Some(id)
    ensures Relocated(bots[i], shed[..j]) == bots[i]
  {
    var held := BotsOn(bots, id);
    assert held[j] in held;
    i :| 0 <= i < |bots| && bots[i] == held[j];
    BotsOnDistinct(bots, id);
    forall k | 0 <= k < |shed[..j]| ensures shed[..j][k].bot != bots[i].id {
      assert held[k].id != held[j].id;
    }
    NotYetRelocated(bots[i], shed[..j]);
  }

  lemma BotIndexIs(bots: seq<Bot>, i: nat)
    requires DistinctBots(bots) && i < |bots|
    ensures BotIndex(bots, bots[i].id) == Some(i)
  {}

  lemma AgreementDistinct(p: Pool)
    requires Agreement(p)
    ensures DistinctBots(p.bots) && DistinctWorkers(p.workers)
  {}

  /** The bot of the next move is still on worker d, so the move can be made. */
  lemma NextCommits(p: Pool, shed: seq<Recommendation>, d: nat, q: Pool, j: nat)
    requires Appliable(p, shed, d) && j < |shed| && Applied(p, shed, d, q, j)
    ensures var i := BotIndex(q.bots, shed[j].bot);
            i.Some? && q.bots[i.value].worker == Some(p.workers[d].id)
    ensures SetWorker(q, shed[j].bot, Some(shed[j].to)).Some?
  {
    hide BotsOn, Agreement, Relocated, Into;
    AgreementDistinct(p);
    AgreementDistinct(q);
    var i := NotYetMoved(p.bots, p.workers[d].id, shed, j);
    BotIndexIs(q.bots, i);
    var t :| 0 <= t < |p.workers| && p.workers[t].id == shed[j].to;
    assert Leaving(q, i).workers[t].id == shed[j].to;
  }

  lemma ApplyNext(p: Pool, shed: seq<Recommendation>, d: nat, q: Pool, j: nat)
    requires Appliable(p, shed, d) && j < |shed| && Applied(p, shed, d, q, j)
    ensures SetWorker(q, shed[j].bot, Some(shed[j].to)).Some?
    ensures Applied(p, shed, d, SetWorker(q, shed[j].bot, Some(shed[j].to)).value, j + 1)
  {
    hide BotsOn, Agreement, SetWorker, TakesFirst;
    NextCommits(p, shed, d, q, j);
    AgreementDistinct(p);
    assert shed[..j + 1][..j] == shed[..j];
    SetWorkerKeepsAgreement(q, shed[j].bot, Some(shed[j].to));
    SetWorkerShape(q, shed[j].bot, Some(shed[j].to));
    var r := SetWorker(q, shed[j].bot, Some(shed[j].to)).value;
    forall i | 0 <= i < |p.bots| ensures r.bots[i] == Relocated(p.bots[i], shed[..j + 1]) {
      assert q.bots[i].id == p.bots[i].id;
    }
    forall i | 0 <= i < |p.workers|
      ensures r.workers[i].currentBots
           == p.workers[i].currentBots + Into(shed[..j + 1], p.workers[i].id) - (if i == d then j + 1 else 0)
    {
      assert q.workers[i].id == p.workers[i].id;
      assert i != d ==> p.workers[i].id != p.workers[d].id;
    }
  }

  // ------------------------------------------------------------- the result

  function Ids(bots: seq<Bot>): (r: seq<BotId>)
    ensures |r| == |bots| && forall k :: 0 <= k < |r| ==> r[k] == bots[k].id
  {
    seq(|bots|, k requires 0 <= k < |bots| => bots[k].id)
  }

  function WithStatus(p: Pool, d: nat, status: WorkerStatus): Pool
    requires d < |p.workers|
  {
    p.(workers := p.workers[d := p.workers[d].(status := status)])
  }

  lemma RowsAgreeFrame(p: Pool, q: Pool)
    requires RowsAgree(p) && q.bots == p.bots && q.assignments == p.assignments
    ensures RowsAgree(q)
  {}

  lemma WithStatusKeepsAgreement(p: Pool, d: nat, status: WorkerStatus)
    requires Agreement(p) && d < |p.workers|
    ensures Agreement(WithStatus(p, d, status))
  {
    hide ActiveFor, BotsOn, RowsAgree;
    var q := WithStatus(p, d, status);
    assert RowsAgree(q) by { RowsAgreeFrame(p, q); }
    forall i | 0 <= i < |p.bots| && p.bots[i].worker.Some? ensures WorkerIndex(q.workers, p.bots[i].worker.value).Some? {
      var k := WorkerIndex(p.workers, p.bots[i].worker.value).value;
      assert q.workers[k].id == p.workers[k].id;
    }
  }

  /** Moved and stranded bots exactly partition the worker's bots; no other bot is touched. */
  ghost predicate BotsSplit(bots: seq<Bot>, id: WorkerId, after: seq<Bot>, moved: seq<BotId>, stranded: seq<BotId>) {
    && |after| == |bots| && |moved| + |stranded| == |BotsOn(bots, id)|
    && forall i :: 0 <= i < |bots| ==>
         && after[i].id == bots[i].id
         && (bots[i].worker != Some(id) ==> after[i] == bots[i] && bots[i].id !in moved && bots[i].id !in stranded)
         && (bots[i].worker == Some(id) ==> (bots[i].id in moved <==> bots[i].id !in stranded))
         && (bots[i].worker == Some(id) ==> (bots[i].id in stranded <==> after[i] == bots[i]))
  }

  /** The other workers keep their data, and those that gained bots are online
      and within capacity. */
  ghost predicate TargetsFit(workers: seq<Worker>, d: nat, after: seq<Worker>) {
    |after| == |workers| && forall i :: 0 <= i < |workers| && i != d ==>
      && after[i] == workers[i].(currentBots := after[i].currentBots)
      && after[i].currentBots >= workers[i].currentBots
      && (after[i].currentBots > workers[i].currentBots ==> after[i].status.Online? && after[i].currentBots <= after[i].maxBots)
  }

  /** Every online worker is full in a projected load. */
  ghost predicate AllFull(workers: seq<Worker>, load: Load) {
    forall i :: 0 <= i < |workers| && workers[i].status.Online? ==>
      workers[i].id in load && load[workers[i].id] >= workers[i].maxBots
  }

  /** What draining worker d of pool p promises about the pool q it leaves. */
  ghost predicate Drained(p: Pool, d: nat, q: Pool, moved: seq<BotId>, stranded: seq<BotId>) {
    && d < |p.workers| && |q.workers| == |p.workers|
    && BotsSplit(p.bots, p.workers[d].id, q.bots, moved, stranded)
    && TargetsFit(p.workers, d, q.workers)
    // the worker goes offline exactly when nothing is stranded
    && q.workers[d] == p.workers[d].(status := if stranded == [] then Offline else Draining, currentBots := |stranded|)
    && var draining := WithStatus(p, d, Draining).workers;
       stranded != [] ==> AllFull(draining, Plan(draining, p.bots).load)
  }

  lemma MovedWereHeld(bots: seq<Bot>, id: WorkerId, shed: seq<Recommendation>, k: nat, i: nat)
    requires DistinctBots(bots) && TakesFirst(shed, BotsOn(bots, id))
    requires k < |shed| && i < |bots| && shed[k].bot == bots[i].id
    ensures bots[i].worker == Some(id)
  {}

  /** Which bots end up elsewhere, once all moves off a worker were applied. */
  lemma FinalPointer(bots: seq<Bot>, id: WorkerId, shed: seq<Recommendation>, moved: seq<BotId>, i: nat)
    requires DistinctBots(bots) && TakesFirst(shed, BotsOn(bots, id)) && i < |bots|
    requires forall k :: 0 <= k < |shed| ==> shed[k].to != id
    requires IdsOf(moved, shed)
    ensures var b := Relocated(bots[i], shed);
            && (bots[i].worker == Some(id) ==> (bots[i].id in moved <==> b.worker != Some(id)))
            && (bots[i].worker != Some(id) ==> b == bots[i] && bots[i].id !in moved)
            && (b.worker == Some(id) ==> b == bots[i])
  {
    if k :| 0 <= k < |shed| && shed[k].bot == bots[i].id {
      MovedWereHeld(bots, id, shed, k, i);
      LastMoveWins(bots[i], shed);
      assert moved[k] == bots[i].id;
    } else {
      NotYetRelocated(bots[i], shed);
    }
  }

  lemma {:induction false} LastMoveWins(b: Bot, recs: seq<Recommendation>)
    requires exists k :: 0 <= k < |recs| && recs[k].bot == b.id
    ensures exists k :: 0 <= k < |recs| && Relocated(b, recs).worker == Some(recs[k].to)
  {
    var n := |recs| - 1;
    if recs[n].bot != b.id {
      var k :| 0 <= k < |recs| && recs[k].bot == b.id;
      assert recs[..n][k].bot == b.id;
      LastMoveWins(b, recs[..n]);
      var m :| 0 <= m < n && Relocated(b, recs[..n]).worker == Some(recs[..n][m].to);
      assert Relocated(b, recs).worker == Some(recs[m].to);
    }
  }

  ghost predicate IdsOf(ids: seq<BotId>, shed: seq<Recommendation>) {
    |ids| == |shed| && forall k :: 0 <= k < |shed| ==> ids[k] == shed[k].bot
  }

  lemma StrandedIs(bots: seq<Bot>, id: WorkerId, i: nat)
    requires DistinctBots(bots) && i < |bots|
    ensures bots[i].id in Ids(BotsOn(bots, id)) <==> bots[i].worker == Some(id)
  {}

  lemma DrainedBots(p: Pool, d: nat, shed: seq<Recommendation>, q: Pool, moved: seq<BotId>, i: nat)
    requires Appliable(p, shed, d) && Applied(p, shed, d, q, |shed|) && IdsOf(moved, shed) && i < |p.bots|
    ensures var id, stranded := p.workers[d].id, Ids(BotsOn(q.bots, p.workers[d].id));
            && q.bots[i].id == p.bots[i].id
            && (p.bots[i].worker != Some(id) ==> q.bots[i] == p.bots[i] && p.bots[i].id !in moved && p.bots[i].id !in stranded)
            && (p.bots[i].worker == Some(id) ==> (p.bots[i].id in moved <==> p.bots[i].id !in stranded))
            && (p.bots[i].worker == Some(id) ==> (p.bots[i].id in stranded <==> q.bots[i] == p.bots[i]))
  {
    hide Agreement, BotsOn, Relocated, TakesFirst;
    AgreementDistinct(p);
    AgreementDistinct(q);
    assert shed[..|shed|] == shed;
    FinalPointer(p.bots, p.workers[d].id, shed, moved, i);
    StrandedIs(q.bots, p.workers[d].id, i);
  }

  lemma DrainedWorkers(r: Pool, d: nat, shed: seq<Recommendation>, q: Pool)
    requires Appliable(r, shed, d) && Applied(r, shed, d, q, |shed|)
    requires forall i :: 0 <= i < |r.workers| && Into(shed, r.workers[i].id) > 0 ==>
               r.workers[i].status.Online? && r.workers[i].currentBots + Into(shed, r.workers[i].id) <= r.workers[i].maxBots
    ensures TargetsFit(r.workers, d, q.workers)
    ensures q.workers[d] == r.workers[d].(currentBots := |BotsOn(q.bots, r.workers[d].id)|)
    ensures |shed| + |BotsOn(q.bots, r.workers[d].id)| == |BotsOn(r.bots, r.workers[d].id)|
  {
    hide BotsOn, Relocated, RowsAgree, Referenced, TakesFirst;
    assert shed[..|shed|] == shed;
    NoIntoDrained(r.workers, shed, d);
    assert q.workers[d].id == r.workers[d].id;
  }

  lemma DrainedSplit(r: Pool, d: nat, shed: seq<Recommendation>, q: Pool, moved: seq<BotId>)
    requires Appliable(r, shed, d) && Applied(r, shed, d, q, |shed|) && IdsOf(moved, shed)
    requires |shed| + |BotsOn(q.bots, r.workers[d].id)| == |BotsOn(r.bots, r.workers[d].id)|
    ensures BotsSplit(r.bots, r.workers[d].id, q.bots, moved, Ids(BotsOn(q.bots, r.workers[d].id)))
  {
    hide BotsOn, Relocated, Agreement, TakesFirst, Into;
    var id, stranded := r.workers[d].id, Ids(BotsOn(q.bots, r.workers[d].id));
    forall i | 0 <= i < |r.bots|
      ensures q.bots[i].id == r.bots[i].id
      ensures r.bots[i].worker != Some(id) ==> q.bots[i] == r.bots[i] && r.bots[i].id !in moved && r.bots[i].id !in stranded
      ensures r.bots[i].worker == Some(id) ==> (r.bots[i].id in moved <==> r.bots[i].id !in stranded)
      ensures r.bots[i].worker == Some(id) ==> (r.bots[i].id in stranded <==> q.bots[i] == r.bots[i])
    {
      DrainedBots(r, d, shed, q, moved, i);
    }
  }

  lemma AppliableDrain(r: Pool, shed: seq<Recommendation>, d: nat)
    requires Appliable(r, shed, d)
    ensures DistinctWorkers(r.workers) && r.workers[d].currentBots == |BotsOn(r.bots, r.workers[d].id)|
  {
    hide BotsOn, RowsAgree, Referenced;
  }

  lemma DrainedPool(p: Pool, d: nat, shed: seq<Recommendation>, q: Pool, moved: seq<BotId>, stranded: seq<BotId>)
    requires d < |p.workers|
    requires var r := WithStatus(p, d, Draining);
             && Appliable(r, shed, d) && Applied(r, shed, d, q, |shed|)
             && shed == Shed(Plan(r.workers, r.bots).recs, p.workers[d].id)
    requires IdsOf(moved, shed) && stranded == Ids(BotsOn(q.bots, p.workers[d].id))
    ensures Drained(p, d, if stranded == [] then WithStatus(q, d, Offline) else q, moved, stranded)
  {
    hide BotsOn, Plan, Shed, Applied, BotsSplit, TakesFirst, Into, Agreement;
    var r := WithStatus(p, d, Draining);
    AppliableDrain(r, shed, d);
    DrainPlan(r.workers, r.bots, d);
    DrainedWorkers(r, d, shed, q);
    DrainedSplit(r, d, shed, q, moved);
  }

  lemma {:induction false} NoIntoDrained(workers: seq<Worker>, shed: seq<Recommendation>, d: nat)
    requires d < |workers| && forall k :: 0 <= k < |shed| ==> shed[k].to != workers[d].id
    ensures Into(shed, workers[d].id) == 0
  {
    if shed != [] {
      NoIntoDrained(workers, shed[..|shed| - 1], d);
    }
  }

  ghost predicate ListsBot(bots: seq<Bot>, id: BotId) { exists i :: 0 <= i < |bots| && bots[i].id == id }

  /** One pointer, wherever it was, is this worker now, and the others are as before. */
  ghost predicate Repointed(bots: seq<Bot>, after: seq<Bot>, id: BotId, worker: Option<WorkerId>) {
    |after| == |bots| && forall j :: 0 <= j < |bots| ==> after[j] == if bots[j].id == id then Bot(id, worker) else bots[j]
  }

  /** A committed transaction, in the columns. */
  lemma Committed(p: Pool, bot: BotId, worker: Option<WorkerId>)
    requires Agreement(p)
    ensures SetWorker(p, bot, worker).Some? <==> ListsBot(p.bots, bot) && (worker.Some? ==> Named(p.workers, worker.value))
    ensures SetWorker(p, bot, worker).Some? ==>
              var q := SetWorker(p, bot, worker).value; Agreement(q) && Repointed(p.bots, q.bots, bot, worker)
  {
    hide Agreement, SetWorker, ListsBot, Named;
    CommitsIffListed(p, bot, worker);
    if SetWorker(p, bot, worker).Some? {
      SetWorkerKeepsAgreement(p, bot, worker);
    }
  }

  /** The transaction commits exactly when the bot and the new worker, if any, exist. */
  lemma CommitsIffListed(p: Pool, bot: BotId, worker: Option<WorkerId>)
    requires Agreement(p)
    ensures SetWorker(p, bot, worker).Some? <==> ListsBot(p.bots, bot) && (worker.Some? ==> Named(p.workers, worker.value))
  {
    hide CountersAgree, RowsAgree, BotsOn, Deactivate, ActiveFor;
    var i := BotIndex(p.bots, bot);
    if i.Some? {
      var left := Leaving(p, i.value);
      if worker.Some? && Named(p.workers, worker.value) {
        var w :| 0 <= w < |p.workers| && p.workers[w].id == worker.value;
        assert left.workers[w].id == worker.value;
      }
      if p.bots[i.value].worker == worker && worker.Some? {
        assert WorkerIndex(p.workers, worker.value).Some?;
      } else if worker.Some? && WorkerIndex(left.workers, worker.value).Some? {
        assert p.workers[WorkerIndex(left.workers, worker.value).value].id == worker.value;
      }
    }
  }

  /** The worker tables. */
  class WorkerTables {
    var workers: seq<Worker>
    var bots: seq<Bot>
    var assignments: seq<Assignment>

    function View(): Pool
      reads this
    {
      Pool(workers, bots, assignments)
    }

    ghost predicate Valid()
      reads this
    {
      Agreement(View())
    }

    constructor ()
      ensures Valid() && View() == Pool([], [], [])
    {
      workers, bots, assignments := [], [], [];
    }

    /** A worker row is inserted with its counter at zero. */
    method AddWorker(id: WorkerId, maxBots: nat, status: WorkerStatus)
      requires Valid() && WorkerIndex(workers, id).None?
      modifies this
      ensures Valid() && View() == old(View()).(workers := old(workers) + [Worker(id, maxBots, 0, status)])
    {
      AddWorkerAgrees(View(), Worker(id, maxBots, 0, status));
      workers := workers + [Worker(id, maxBots, 0, status)];
    }

    /** A bot row is inserted without a worker. */
    method AddBot(id: BotId)
      requires Valid() && BotIndex(bots, id).None?
      modifies this
      ensures Valid() && View() == old(View()).(bots := old(bots) + [Bot(id, None)])
    {
      AddBotAgrees(View(), id);
      bots := bots + [Bot(id, None)];
    }

    /** First half of the transaction: the old worker's counter and row. */
    method LeaveOldWorker(i: nat)
      requires Valid() && i < |bots|
      modifies this
      ensures View() == Leaving(old(View()), i)
    {
      hide BotsOn, Deactivate, CountersAgree, RowsAgree, Referenced;
      var oldWorkerId := bots[i].worker;
      if oldWorkerId.Some? {
        HolderIsPositive(View(), i);
        var w := WorkerIndex(workers, oldWorkerId.value).value;
        workers := workers[w := workers[w].(currentBots := workers[w].currentBots - 1)];
        assignments := Deactivate(assignments, oldWorkerId.value, bots[i].id);
      }
    }

    /** The transaction of setBotWorker: a throw restores every table. */
    method SetBotWorker(botId: BotId, newWorkerId: Option<WorkerId>) returns (ok: bool)
      requires Valid()
      modifies this
      ensures Valid()
      ensures ok == SetWorker(old(View()), botId, newWorkerId).Some?
      ensures ok <==> ListsBot(old(bots), botId) && (newWorkerId.Some? ==> Named(old(workers), newWorkerId.value))
      ensures ok ==> Repointed(old(bots), bots, botId, newWorkerId)
      ensures View() == if ok then SetWorker(old(View()), botId, newWorkerId).value else old(View())
    {
      hide Agreement, Leaving, ListsBot, Named, Repointed;
      Committed(View(), botId, newWorkerId);
      var i := BotIndex(bots, botId);
      if i.None? {
        return false;
      }
      if bots[i.value].worker == newWorkerId {
        return true;
      }
      var savedWorkers, savedAssignments := workers, assignments;
      LeaveOldWorker(i.value);
      if newWorkerId.Some? {
        var w := WorkerIndex(workers, newWorkerId.value);
        if w.None? {
          workers, assignments := savedWorkers, savedAssignments;
          return false;
        }
        workers := workers[w.value := workers[w.value].(currentBots := workers[w.value].currentBots + 1)];
        assignments := assignments + [Assignment(newWorkerId.value, botId, true)];
      }
      bots := bots[i.value := Bot(botId, newWorkerId)];
      ok := true;
    }

    /** The loop applying the filtered recommendations. */
    method ApplyMoves(shed: seq<Recommendation>, ghost d: nat) returns (moved: seq<BotId>)
      requires Valid() && Appliable(View(), shed, d)
      modifies this
      ensures Valid() && Applied(old(View()), shed, d, View(), |shed|) && IdsOf(moved, shed)
    {
      hide Agreement, Applied, Appliable, SetWorker;
      StartApplied(View(), shed, d);
      moved := [];
      for j := 0 to |shed|
        invariant |moved| == j && forall k :: 0 <= k < j ==> moved[k] == shed[k].bot
        invariant Valid() && Applied(old(View()), shed, d, View(), j)
      {
        ApplyNext(old(View()), shed, d, View(), j);
        var ok := SetBotWorker(shed[j].bot, Some(shed[j].to));
        moved := moved + [shed[j].bot];
      }
    }

    /** Marks the worker draining, plans with it, applies the moves off it, and
        reports what moved and what could not. */
    method DrainWorker(workerId: WorkerId) returns (found: bool, moved: seq<BotId>, stranded: seq<BotId>)
      requires Valid()
      modifies this
      ensures Valid()
      ensures found == WorkerIndex(old(workers), workerId).Some?
      ensures !found ==> View() == old(View()) && moved == [] && stranded == []
      ensures found ==> Drained(old(View()), WorkerIndex(old(workers), workerId).value, View(), moved, stranded)
    {
      hide Agreement, Applied, Appliable, Drained, BotsOn, Plan, Shed, IdsOf;
      moved, stranded := [], [];
      var w := WorkerIndex(workers, workerId);
      if w.None? {
        return false, moved, stranded;
      }
      var d := w.value;
      WithStatusKeepsAgreement(View(), d, Draining);
      workers := workers[d := workers[d].(status := Draining)];
      ghost var start := View();
      var recommendations := ComputeRebalanceRecommendations(workers, bots);
      var shed := Shed(recommendations, workerId);
      PlanAppliable(start, shed, d);
      moved := ApplyMoves(shed, d);
      stranded := Ids(BotsOn(bots, workerId));
      DrainedPool(old(View()), d, shed, View(), moved, stranded);
      AppliedSize(start, shed, d, View());
      if |stranded| == 0 {
        WithStatusKeepsAgreement(View(), d, Offline);
        workers := workers[d := workers[d].(status := Offline)];
      }
      found := true;
    }
  }

  lemma AppliedSize(p: Pool, shed: seq<Recommendation>, d: nat, q: Pool)
    requires d < |p.workers| && Applied(p, shed, d, q, |shed|)
    ensures |q.workers| == |p.workers|
  {
    hide Agreement;
  }

  lemma HolderIsPositive(p: Pool, i: nat)
    requires Agreement(p) && i < |p.bots| && p.bots[i].worker.Some?
    ensures WorkerIndex(p.workers, p.bots[i].worker.value).Some?
    ensures p.workers[WorkerIndex(p.workers, p.bots[i].worker.value).value].currentBots > 0
  {
    assert p.bots[i] in BotsOn(p.bots, p.bots[i].worker.value);
  }

  lemma PlanAppliable(p: Pool, shed: seq<Recommendation>, d: nat)
    requires Agreement(p) && d < |p.workers| && p.workers[d].status.Draining?
    requires shed == Shed(Plan(p.workers, p.bots).recs, p.workers[d].id)
    ensures Appliable(p, shed, d)
  {
    hide ActiveFor, BotsOn, Plan, Shed;
    DrainPlan(p.workers, p.bots, d);
  }

  lemma StartApplied(p: Pool, shed: seq<Recommendation>, d: nat)
    requires Agreement(p) && d < |p.workers|
    ensures Applied(p, shed, d, p, 0)
  {
    hide Agreement;
    assert shed[..0] == [];
  }

  lemma {:induction false} EmptyOn(bots: seq<Bot>, id: WorkerId)
    requires forall i :: 0 <= i < |bots| ==> bots[i].worker != Some(id)
    ensures BotsOn(bots, id) == []
  {
    if bots != [] {
      EmptyOn(bots[..|bots| - 1], id);
    }
  }

  lemma AddWorkerAgrees(p: Pool, w: Worker)
    requires Agreement(p) && WorkerIndex(p.workers, w.id).None? && w.currentBots == 0
    ensures Agreement(p.(workers := p.workers + [w]))
  {
    hide BotsOn, RowsAgree;
    var q := p.(workers := p.workers + [w]);
    EmptyOn(p.bots, w.id);
    RowsAgreeFrame(p, q);
    forall i | 0 <= i < |p.bots| && p.bots[i].worker.Some? ensures WorkerIndex(q.workers, p.bots[i].worker.value).Some? {
      var k := WorkerIndex(p.workers, p.bots[i].worker.value).value;
      assert q.workers[k] == p.workers[k];
    }
  }

  lemma BotsOnSnoc(bots: seq<Bot>, b: Bot, id: WorkerId)
    requires b.worker.None?
    ensures BotsOn(bots + [b], id) == BotsOn(bots, id)
  {
    assert (bots + [b])[..|bots|] == bots;
  }

  lemma AddBotAgrees(p: Pool, id: BotId)
    requires Agreement(p) && BotIndex(p.bots, id).None?
    ensures Agreement(p.(bots := p.bots + [Bot(id, None)]))
  {
    hide BotsOn, ActiveFor;
    var q := p.(bots := p.bots + [Bot(id, None)]);
    assert CountersAgree(q) by {
      forall i | 0 <= i < |p.workers| ensures p.workers[i].currentBots == |BotsOn(q.bots, p.workers[i].id)| {
        BotsOnSnoc(p.bots, Bot(id, None), p.workers[i].id);
      }
    }
    assert RowsAgree(q) by {
      NoRowsFor(p, id, |p.assignments|);
      assert p.assignments[..|p.assignments|] == p.assignments;
    }
    forall k | 0 <= k < |p.assignments| ensures BotIndex(q.bots, p.assignments[k].bot).Some? {
      var b := BotIndex(p.bots, p.assignments[k].bot).value;
      assert q.bots[b] == p.bots[b];
    }
  }

  lemma {:induction false} NoRowsFor(p: Pool, id: BotId, n: nat)
    requires Agreement(p) && BotIndex(p.bots, id).None? && n <= |p.assignments|
    ensures ActiveFor(p.assignments[..n], id) == []
  {
    hide DistinctWorkers, DistinctBots, CountersAgree, RowsAgree;
    if n > 0 {
      NoRowsFor(p, id, n - 1);
      assert BotIndex(p.bots, p.assignments[n - 1].bot).Some?;
      assert p.assignments[..n][..n - 1] == p.assignments[..n - 1];
    }
  }
}
