/** The worker rebalancer: a two-phase greedy allocator over a projected load
    (apps/control-plane/lib/rebalance.ts). Load ratios are compared exactly,
    by cross-multiplication. */
module Rebalance {
  import opened Wrappers

  type WorkerId = nat
  type BotId = nat

  datatype WorkerStatus = Online | Offline | Overloaded | Failed | Draining

  datatype Worker = Worker(id: WorkerId, maxBots: nat, currentBots: nat, status: WorkerStatus)

  datatype Bot = Bot(id: BotId, worker: Option<WorkerId>)

  datatype Recommendation =
    | Assign(bot: BotId, to: WorkerId)
    | Move(bot: BotId, from: WorkerId, to: WorkerId)

  type Load = map<WorkerId, nat>

  /** The recommendations made so far and the load they project. */
  datatype Projection = Projection(recs: seq<Recommendation>, load: Load)

  ghost predicate DistinctWorkers(workers: seq<Worker>) {
    forall i, j :: 0 <= i < j < |workers| ==> workers[i].id != workers[j].id
  }

  predicate Covers(workers: seq<Worker>, load: Load) {
    forall i :: 0 <= i < |workers| ==> workers[i].id in load
  }

  // ---------------------------------------------------------------- targets

  function EffectiveMax(w: Worker): nat {
    if w.status.Draining? || w.status.Failed? then 0 else w.maxBots
  }

  predicate Eligible(w: Worker, load: Load, exclude: Option<WorkerId>)
    requires w.id in load
  {
    exclude != Some(w.id) && w.status.Online? && load[w.id] < EffectiveMax(w)
  }

  /** a is no fuller than b, as a fraction of its capacity. */
  predicate NoFuller(a: Worker, b: Worker, load: Load)
    requires a.id in load && b.id in load
  {
    load[a.id] * b.maxBots <= load[b.id] * a.maxBots
  }

  lemma NoFullerTransitive(a: Worker, b: Worker, c: Worker, load: Load)
    requires a.id in load && b.id in load && c.id in load
    requires NoFuller(a, b, load) && NoFuller(b, c, load) && b.maxBots > 0
    ensures NoFuller(a, c, load)
  {}

  /** The first of the least loaded eligible workers: what filtering, a stable
      sort by load ratio and taking the head give. */
  function LeastLoaded(workers: seq<Worker>, load: Load, exclude: Option<WorkerId>): (r: Option<Worker>)
    requires Covers(workers, load)
    ensures r.None? <==> forall i :: 0 <= i < |workers| ==> !Eligible(workers[i], load, exclude)
    ensures r.Some? ==> IsLeastLoaded(workers, load, exclude, r.value)
  {
    if workers == [] then None
    else
      var rest := LeastLoaded(workers[1..], load, exclude);
      if !Eligible(workers[0], load, exclude) then
        rest
      else if rest.None? then
        Some(workers[0])
      else if NoFuller(workers[0], rest.value, load) then
        assert IsLeastLoaded(workers, load, exclude, workers[0]) by {
          HeadIsLeast(workers, load, exclude, rest.value);
        }
        Some(workers[0])
      else
        rest
  }

  ghost predicate IsLeastLoaded(workers: seq<Worker>, load: Load, exclude: Option<WorkerId>, w: Worker)
    requires Covers(workers, load)
  {
    exists i :: 0 <= i < |workers| && workers[i] == w && Eligible(w, load, exclude)
      && (forall j :: 0 <= j < |workers| && Eligible(workers[j], load, exclude) ==> NoFuller(w, workers[j], load))
      && (forall j :: 0 <= j < i && Eligible(workers[j], load, exclude) ==> !NoFuller(workers[j], w, load))
  }

  lemma HeadIsLeast(workers: seq<Worker>, load: Load, exclude: Option<WorkerId>, w: Worker)
    requires workers != [] && Covers(workers, load)
    requires IsLeastLoaded(workers[1..], load, exclude, w)
    requires Eligible(workers[0], load, exclude) && NoFuller(workers[0], w, load)
    ensures IsLeastLoaded(workers, load, exclude, workers[0])
  {
    forall j | 0 <= j < |workers| && Eligible(workers[j], load, exclude)
      ensures NoFuller(workers[0], workers[j], load)
    {
      if j > 0 {
        assert workers[j] == workers[1..][j - 1];
        NoFullerTransitive(workers[0], w, workers[j], load);
      }
    }
  }

  /** A target is an online worker with room, and not the worker the bot leaves. */
  lemma TargetIsAvailable(workers: seq<Worker>, load: Load, exclude: Option<WorkerId>)
    requires Covers(workers, load) && LeastLoaded(workers, load, exclude).Some?
    ensures var w := LeastLoaded(workers, load, exclude).value;
            w in workers && w.status == Online && exclude != Some(w.id) && w.id in load && load[w.id] < w.maxBots
  {
    hide LeastLoaded, NoFuller;
    assert IsLeastLoaded(workers, load, exclude, LeastLoaded(workers, load, exclude).value);
  }

  // ------------------------------------------------------------ the greedy plan

  function InitialLoad(workers: seq<Worker>): (load: Load)
    ensures Covers(workers, load)
  {
    if workers == [] then map[]
    else
      var w := workers[|workers| - 1];
      InitialLoad(workers[..|workers| - 1])[w.id := w.currentBots]
  }

  /** Phase 1, one bot: an unassigned bot goes to the least loaded worker. */
  function AssignOne(workers: seq<Worker>, p: Projection, bot: Bot): (q: Projection)
    requires Covers(workers, p.load)
    ensures Covers(workers, q.load)
  {
    if bot.worker.Some? then p
    else match LeastLoaded(workers, p.load, None)
      case None => p
      case Some(t) => Projection(p.recs + [Assign(bot.id, t.id)], p.load[t.id := p.load[t.id] + 1])
  }

  function AssignAll(workers: seq<Worker>, p: Projection, bots: seq<Bot>): (q: Projection)
    requires Covers(workers, p.load)
    ensures Covers(workers, q.load)
  {
    if bots == [] then p
    else AssignOne(workers, AssignAll(workers, p, bots[..|bots| - 1]), bots[|bots| - 1])
  }

  /** Phase 2, one bot: a bot of an overfull worker goes to the least loaded other worker. */
  function MoveOne(workers: seq<Worker>, p: Projection, from: Worker, bot: Bot): (q: Projection)
    requires Covers(workers, p.load) && from.id in p.load
    ensures Covers(workers, q.load) && from.id in q.load
  {
    match LeastLoaded(workers, p.load, Some(from.id))
    case None => p
    case Some(t) =>
      var lighter := p.load[from.id := if p.load[from.id] > 0 then p.load[from.id] - 1 else 0];
      Projection(p.recs + [Move(bot.id, from.id, t.id)], lighter[t.id := lighter[t.id] + 1])
  }

  function MoveAll(workers: seq<Worker>, p: Projection, from: Worker, bots: seq<Bot>): (q: Projection)
    requires Covers(workers, p.load) && from.id in p.load
    ensures Covers(workers, q.load) && from.id in q.load
  {
    if bots == [] then p
    else MoveOne(workers, MoveAll(workers, p, from, bots[..|bots| - 1]), from, bots[|bots| - 1])
  }

  function BotsOn(bots: seq<Bot>, id: WorkerId): (r: seq<Bot>)
    ensures forall b :: b in r <==> b in bots && b.worker == Some(id)
  {
    if bots == [] then []
    else
      var front := BotsOn(bots[..|bots| - 1], id);
      if bots[|bots| - 1].worker == Some(id) then front + [bots[|bots| - 1]] else front
  }

  function Take<T>(s: seq<T>, n: int): seq<T> {
    if n <= 0 then [] else if n >= |s| then s else s[..n]
  }

  function Excess(w: Worker, load: Load): int
    requires w.id in load
  {
    load[w.id] - EffectiveMax(w)
  }

  /** Phase 2, one worker: as many of its bots as exceed its effective capacity. */
  function RelieveOne(workers: seq<Worker>, bots: seq<Bot>, p: Projection, from: Worker): (q: Projection)
    requires Covers(workers, p.load) && from.id in p.load
    ensures Covers(workers, q.load)
  {
    MoveAll(workers, p, from, Take(BotsOn(bots, from.id), Excess(from, p.load)))
  }

  /** Phase 2 over the first n workers. */
  function RelieveAll(workers: seq<Worker>, bots: seq<Bot>, p: Projection, n: nat): (q: Projection)
    requires Covers(workers, p.load) && n <= |workers|
    ensures Covers(workers, q.load)
  {
    if n == 0 then p
    else RelieveOne(workers, bots, RelieveAll(workers, bots, p, n - 1), workers[n - 1])
  }

  function AssignPhase(workers: seq<Worker>, bots: seq<Bot>): (q: Projection)
    ensures Covers(workers, q.load)
  {
    AssignAll(workers, Projection([], InitialLoad(workers)), bots)
  }

  function Plan(workers: seq<Worker>, bots: seq<Bot>): Projection {
    RelieveAll(workers, bots, AssignPhase(workers, bots), |workers|)
  }

  /** The assigning loop: pushes recommendations and mutates the load map. */
  method AssignUnassigned(workers: seq<Worker>, bots: seq<Bot>, start: Load)
    returns (recommendations: seq<Recommendation>, load: Load)
    requires Covers(workers, start)
    ensures Projection(recommendations, load) == AssignAll(workers, Projection([], start), bots)
  {
    recommendations, load := [], start;
    for i := 0 to |bots|
      invariant Covers(workers, load)
      invariant Projection(recommendations, load) == AssignAll(workers, Projection([], start), bots[..i])
    {
      assert bots[..i + 1][..i] == bots[..i];
      if bots[i].worker.Some? {
        continue;
      }
      var target := LeastLoaded(workers, load, None);
      if target.None? {
        continue;
      }
      recommendations := recommendations + [Assign(bots[i].id, target.value.id)];
      load := load[target.value.id := load[target.value.id] + 1];
    }
    assert bots[..|bots|] == bots;
  }

  /** The inner moving loop, for one overfull worker. */
  method MoveOverflow(workers: seq<Worker>, p: Projection, from: Worker, overflow: seq<Bot>)
    returns (recommendations: seq<Recommendation>, load: Load)
    requires Covers(workers, p.load) && from.id in p.load
    ensures Projection(recommendations, load) == MoveAll(workers, p, from, overflow)
  {
    recommendations, load := p.recs, p.load;
    for i := 0 to |overflow|
      invariant Covers(workers, load) && from.id in load
      invariant Projection(recommendations, load) == MoveAll(workers, p, from, overflow[..i])
    {
      ghost var before := Projection(recommendations, load);
      assert MoveAll(workers, p, from, overflow[..i + 1]) == MoveOne(workers, before, from, overflow[i]) by {
        assert overflow[..i + 1][..i] == overflow[..i];
      }
      var target := LeastLoaded(workers, load, Some(from.id));
      if target.None? {
        continue;
      }
      recommendations := recommendations + [Move(overflow[i].id, from.id, target.value.id)];
      load := load[from.id := if load[from.id] > 0 then load[from.id] - 1 else 0];
      load := load[target.value.id := load[target.value.id] + 1];
    }
    assert overflow[..|overflow|] == overflow;
  }

  method ComputeRebalanceRecommendations(workers: seq<Worker>, bots: seq<Bot>)
    returns (recommendations: seq<Recommendation>)
    ensures recommendations == Plan(workers, bots).recs
  {
    var load: Load := InitialLoad(workers);
    recommendations, load := AssignUnassigned(workers, bots, load);
    for n := 0 to |workers|
      invariant Covers(workers, load)
      invariant Projection(recommendations, load)
             == RelieveAll(workers, bots, AssignPhase(workers, bots), n)
    {
      var excess := Excess(workers[n], load);
      if excess <= 0 {
        continue;
      }
      var overflow := Take(BotsOn(bots, workers[n].id), excess);
      recommendations, load := MoveOverflow(workers, Projection(recommendations, load), workers[n], overflow);
    }
  }
}
