/** Worker counters, the assignment table and bot pointers, which setBotWorker
    keeps in agreement (apps/control-plane/lib/worker-assignment.ts). */
module WorkerPool {
  import opened Wrappers
  import opened Rebalance

  datatype Assignment = Assignment(worker: WorkerId, bot: BotId, active: bool)

  datatype Pool = Pool(workers: seq<Worker>, bots: seq<Bot>, assignments: seq<Assignment>)

  // ------------------------------------------------------------- agreement

  /** The workers a bot's active assignment rows name, in row order. */
  function ActiveFor(assignments: seq<Assignment>, bot: BotId): seq<WorkerId> {
    if assignments == [] then []
    else
      var front, a := ActiveFor(assignments[..|assignments| - 1], bot), assignments[|assignments| - 1];
      if a.active && a.bot == bot then front + [a.worker] else front
  }

  ghost predicate DistinctBots(bots: seq<Bot>) {
    forall i, j :: 0 <= i < j < |bots| ==> bots[i].id != bots[j].id
  }

  /** A worker's counter is the number of bots pointing at it. */
  ghost predicate CountersAgree(p: Pool) {
    forall i :: 0 <= i < |p.workers| ==> p.workers[i].currentBots == |BotsOn(p.bots, p.workers[i].id)|
  }

  /** A bot has exactly one active assignment row, for its worker, or none if unassigned. */
  ghost predicate RowsAgree(p: Pool) {
    forall i :: 0 <= i < |p.bots| ==>
      ActiveFor(p.assignments, p.bots[i].id) == if p.bots[i].worker.None? then [] else [p.bots[i].worker.value]
  }

  /** Pointers and rows name existing workers and bots. */
  ghost predicate Referenced(p: Pool) {
    && (forall i :: 0 <= i < |p.bots| && p.bots[i].worker.Some? ==> WorkerIndex(p.workers, p.bots[i].worker.value).Some?)
    && (forall k :: 0 <= k < |p.assignments| ==> BotIndex(p.bots, p.assignments[k].bot).Some?)
  }

  /** The three copies of "which worker runs this bot" agree. */
  ghost predicate Agreement(p: Pool) {
    && DistinctWorkers(p.workers) && DistinctBots(p.bots)
    && CountersAgree(p) && RowsAgree(p) && Referenced(p)
  }

  // ------------------------------------------------------------ operations

  /** The last element of the list that satisfies the condition. */
  function IndexWhere<T>(s: seq<T>, condition: T -> bool): (r: Option<nat>)
    ensures r.Some? ==> r.value < |s| && condition(s[r.value])
    ensures r.None? ==> forall i :: 0 <= i < |s| ==> !condition(s[i])
  {
    if s == [] then None
    else if condition(s[|s| - 1]) then Some(|s| - 1)
    else IndexWhere(s[..|s| - 1], condition)
  }

  function WorkerIndex(workers: seq<Worker>, id: WorkerId): (r: Option<nat>)
    ensures r.Some? ==> r.value < |workers| && workers[r.value].id == id
    ensures r.None? ==> forall i :: 0 <= i < |workers| ==> workers[i].id != id
  {
    IndexWhere(workers, (w: Worker) => w.id == id)
  }

  function BotIndex(bots: seq<Bot>, id: BotId): (r: Option<nat>)
    ensures r.Some? ==> r.value < |bots| && bots[r.value].id == id
    ensures r.None? ==> forall i :: 0 <= i < |bots| ==> bots[i].id != id
  {
    IndexWhere(bots, (b: Bot) => b.id == id)
  }

  function Deactivate(assignments: seq<Assignment>, worker: WorkerId, bot: BotId): (r: seq<Assignment>)
    ensures |r| == |assignments|
    ensures forall k :: 0 <= k < |r| ==> r[k].bot == assignments[k].bot
  {
    if assignments == [] then []
    else
      var a := assignments[|assignments| - 1];
      Deactivate(assignments[..|assignments| - 1], worker, bot)
      + [if a.worker == worker && a.bot == bot then a.(active := false) else a]
  }

  /** The bot leaves worker number w: its counter drops and its row is removed. */
  function Leave(p: Pool, w: nat, bot: BotId): Pool
    requires w < |p.workers| && p.workers[w].currentBots > 0
  {
    p.(workers := p.workers[w := p.workers[w].(currentBots := p.workers[w].currentBots - 1)],
       assignments := Deactivate(p.assignments, p.workers[w].id, bot))
  }

  function Arrive(p: Pool, w: nat, bot: BotId): Pool
    requires w < |p.workers|
  {
    p.(workers := p.workers[w := p.workers[w].(currentBots := p.workers[w].currentBots + 1)],
       assignments := p.assignments + [Assignment(p.workers[w].id, bot, true)])
  }

  function Leaving(p: Pool, i: nat): (q: Pool)
    requires Agreement(p) && i < |p.bots|
    ensures |q.workers| == |p.workers| && q.bots == p.bots
    ensures forall j :: 0 <= j < |q.workers| ==> q.workers[j].id == p.workers[j].id
  {
    var at := p.bots[i].worker;
    if at.None? then p
    else
      assert p.bots[i] in BotsOn(p.bots, at.value);
      Leave(p, WorkerIndex(p.workers, at.value).value, p.bots[i].id)
  }

  /** The transaction; None when it throws and is rolled back, because the bot
      or the new worker does not exist. */
  function SetWorker(p: Pool, bot: BotId, worker: Option<WorkerId>): Option<Pool>
    requires Agreement(p)
  {
    var i := BotIndex(p.bots, bot);
    if i.None? then None
    else if p.bots[i.value].worker == worker then Some(p)
    else
      var left := Leaving(p, i.value);
      if worker.None? then
        Some(left.(bots := p.bots[i.value := Bot(bot, None)]))
      else match WorkerIndex(left.workers, worker.value)
        case None => None
        case Some(w) => Some(Arrive(left, w, bot).(bots := p.bots[i.value := Bot(bot, worker)]))
  }

  // ---------------------------------------------------- the transaction agrees

  lemma {:induction false} BotsOnUpdate(bots: seq<Bot>, i: nat, b: Bot, id: WorkerId)
    requires i < |bots|
    ensures |BotsOn(bots[i := b], id)|
         == |BotsOn(bots, id)| - (if bots[i].worker == Some(id) then 1 else 0) + (if b.worker == Some(id) then 1 else 0)
  {
    var n := |bots| - 1;
    if i < n {
      BotsOnUpdate(bots[..n], i, b, id);
      assert bots[i := b][..n] == bots[..n][i := b];
    } else {
      assert bots[i := b][..n] == bots[..n];
    }
  }

  function Without(ids: seq<WorkerId>, id: WorkerId): seq<WorkerId> {
    if ids == [] then []
    else
      var front, x := Without(ids[..|ids| - 1], id), ids[|ids| - 1];
      if x == id then front else front + [x]
  }

  lemma {:induction false} DeactivateActive(assignments: seq<Assignment>, worker: WorkerId, bot: BotId, other: BotId)
    ensures ActiveFor(Deactivate(assignments, worker, bot), other)
         == if other == bot then Without(ActiveFor(assignments, bot), worker) else ActiveFor(assignments, other)
  {
    if assignments != [] {
      var front := assignments[..|assignments| - 1];
      DeactivateActive(front, worker, bot, other);
      var d := Deactivate(assignments, worker, bot);
      assert d[..|assignments| - 1] == Deactivate(front, worker, bot);
    }
  }

  lemma AppendActive(assignments: seq<Assignment>, a: Assignment, bot: BotId)
    ensures ActiveFor(assignments + [a], bot)
         == if a.active && a.bot == bot then ActiveFor(assignments, bot) + [a.worker] else ActiveFor(assignments, bot)
  {
    assert (assignments + [a])[..|assignments|] == assignments;
  }

  /** After leaving, the bot has no active row and everybody else keeps theirs. */
  lemma LeavingActive(p: Pool, i: nat, j: nat)
    requires Agreement(p) && i < |p.bots| && j < |p.bots|
    ensures ActiveFor(Leaving(p, i).assignments, p.bots[j].id)
         == if i == j then [] else ActiveFor(p.assignments, p.bots[j].id)
  {
    if p.bots[i].worker.Some? {
      DeactivateActive(p.assignments, p.bots[i].worker.value, p.bots[i].id, p.bots[j].id);
    }
  }

  ghost predicate SameWorkers(ws: seq<Worker>, vs: seq<Worker>) {
    |ws| == |vs| && forall i :: 0 <= i < |ws| ==> vs[i] == ws[i].(currentBots := vs[i].currentBots)
  }

  /** What a committed transaction writes, apart from assignment rows. */
  lemma SetWorkerShape(p: Pool, bot: BotId, worker: Option<WorkerId>)
    requires Agreement(p) && SetWorker(p, bot, worker).Some?
    ensures BotIndex(p.bots, bot).Some?
    ensures var q := SetWorker(p, bot, worker).value;
            var i := BotIndex(p.bots, bot).value;
            && q.bots == p.bots[i := Bot(bot, worker)]
            && SameWorkers(p.workers, q.workers)
            && forall j :: 0 <= j < |q.workers| ==>
                 q.workers[j].currentBots == p.workers[j].currentBots
                   - (if p.bots[i].worker == Some(p.workers[j].id) then 1 else 0)
                   + (if worker == Some(p.workers[j].id) then 1 else 0)
  {
    hide ActiveFor, BotsOn, Deactivate, RowsAgree;
    var i := BotIndex(p.bots, bot).value;
    if p.bots[i].worker != worker && p.bots[i].worker.Some? {
      var w := WorkerIndex(p.workers, p.bots[i].worker.value).value;
      assert forall j :: 0 <= j < |p.workers| && j != w ==> p.workers[j].id != p.workers[w].id;
    }
  }

  lemma SetWorkerCounters(p: Pool, bot: BotId, worker: Option<WorkerId>)
    requires Agreement(p) && SetWorker(p, bot, worker).Some?
    ensures var q := SetWorker(p, bot, worker).value;
            forall i :: 0 <= i < |q.workers| ==> q.workers[i].currentBots == |BotsOn(q.bots, q.workers[i].id)|
  {
    hide SetWorker, BotsOn;
    SetWorkerShape(p, bot, worker);
    var q := SetWorker(p, bot, worker).value;
    var i := BotIndex(p.bots, bot).value;
    forall j | 0 <= j < |q.workers| ensures q.workers[j].currentBots == |BotsOn(q.bots, q.workers[j].id)| {
      BotsOnUpdate(p.bots, i, Bot(bot, worker), p.workers[j].id);
    }
  }

  lemma SetWorkerRows(p: Pool, bot: BotId, worker: Option<WorkerId>, j: nat)
    requires Agreement(p) && SetWorker(p, bot, worker).Some? && j < |p.bots|
    ensures var q := SetWorker(p, bot, worker).value;
            |q.bots| == |p.bots|
            && ActiveFor(q.assignments, q.bots[j].id) == if q.bots[j].worker.None? then [] else [q.bots[j].worker.value]
  {
    var i := BotIndex(p.bots, bot).value;
    if p.bots[i].worker != worker {
      LeavingActive(p, i, j);
      if worker.Some? {
        AppendActive(Leaving(p, i).assignments, Assignment(worker.value, bot, true), p.bots[j].id);
      }
    }
  }

  /** Every committed transaction keeps the agreement and moves exactly one pointer. */
  lemma SetWorkerKeepsAgreement(p: Pool, bot: BotId, worker: Option<WorkerId>)
    requires Agreement(p) && SetWorker(p, bot, worker).Some?
    ensures var q := SetWorker(p, bot, worker).value;
            && Agreement(q)
            && SameWorkers(p.workers, q.workers)
            && |q.bots| == |p.bots|
            && forall j :: 0 <= j < |p.bots| ==> q.bots[j] == if p.bots[j].id == bot then Bot(bot, worker) else p.bots[j]
  {
    hide SetWorker, ActiveFor, BotsOn;
    var q := SetWorker(p, bot, worker).value;
    SetWorkerShape(p, bot, worker);
    SetWorkerCounters(p, bot, worker);
    forall j | 0 <= j < |q.bots|
      ensures ActiveFor(q.assignments, q.bots[j].id) == if q.bots[j].worker.None? then [] else [q.bots[j].worker.value]
      ensures q.bots[j].worker.Some? ==> WorkerIndex(q.workers, q.bots[j].worker.value).Some?
    {
      SetWorkerRows(p, bot, worker, j);
      SetWorkerListed(p, bot, worker, j);
    }
    SetWorkerBots(p, bot, worker);
  }

  lemma SetWorkerListed(p: Pool, bot: BotId, worker: Option<WorkerId>, j: nat)
    requires Agreement(p) && SetWorker(p, bot, worker).Some? && j < |p.bots|
    ensures var q := SetWorker(p, bot, worker).value;
            |q.bots| == |p.bots| && (q.bots[j].worker.Some? ==> WorkerIndex(q.workers, q.bots[j].worker.value).Some?)
  {
    hide ActiveFor, BotsOn, Deactivate;
    SetWorkerShape(p, bot, worker);
    var q := SetWorker(p, bot, worker).value;
    if q.bots[j].worker.Some? {
      var i := BotIndex(p.bots, bot).value;
      var k := if p.bots[j].worker == q.bots[j].worker then WorkerIndex(p.workers, q.bots[j].worker.value).value
               else WorkerIndex(Leaving(p, i).workers, q.bots[j].worker.value).value;
      assert q.workers[k].id == q.bots[j].worker.value;
    }
  }

  lemma SetWorkerBots(p: Pool, bot: BotId, worker: Option<WorkerId>)
    requires Agreement(p) && SetWorker(p, bot, worker).Some?
    ensures var q := SetWorker(p, bot, worker).value;
            forall k :: 0 <= k < |q.assignments| ==> BotIndex(q.bots, q.assignments[k].bot).Some?
  {
    hide ActiveFor, BotsOn, RowsAgree, CountersAgree;
    SetWorkerShape(p, bot, worker);
    var q := SetWorker(p, bot, worker).value;
    var i := BotIndex(p.bots, bot).value;
    forall k | 0 <= k < |q.assignments| ensures BotIndex(q.bots, q.assignments[k].bot).Some? {
      var b := if k < |p.assignments| then BotIndex(p.bots, p.assignments[k].bot).value else i;
      assert q.bots[b].id == q.assignments[k].bot;
    }
  }
}
