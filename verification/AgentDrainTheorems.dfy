/** What a drain of an agent does, whatever order its workloads are read in. */
module AgentDrainTheorems {
  import opened Wrappers
  import opened Plane
  import opened ControlPlane
  import opened AgentDrain
  import T = SchedulerTheorems

  ghost predicate DistinctIds(rows: seq<AgentRow>) {
    forall i, j :: 0 <= i < j < |rows| ==> rows[i].id != rows[j].id
  }

  /** The agent could host the specification: what is left of eligibility when no
      agent has a workload limit and no workload names an environment. */
  predicate Suits(a: AgentRow, spec: Spec) {
    && a.status.Online?
    && (S.Present(spec.capability) ==> spec.capability.value in a.capabilities)
    && (forall i :: 0 <= i < |spec.requiredLabels| ==>
          spec.requiredLabels[i].0 in a.labels && a.labels[spec.requiredLabels[i].0] == spec.requiredLabels[i].1)
    && (spec.memoryMb.Some? && a.availableMemoryMb.Some? ==> spec.memoryMb.value <= a.availableMemoryMb.value)
  }

  ghost predicate HostFor(rows: seq<AgentRow>, drained: AgentId, spec: Spec, agent: AgentId) {
    agent != drained && exists i :: 0 <= i < |rows| && rows[i].id == agent && Suits(rows[i], spec)
  }

  predicate HasHost(rows: seq<AgentRow>, drained: AgentId, spec: Spec) {
    exists i :: 0 <= i < |rows| && rows[i].id != drained && Suits(rows[i], spec)
  }

  // ------------------------------------------------------- the choice of target

  lemma SuitsIffEligible(t: Tables, a: AgentRow, w: WorkloadId, row: Workload, now: int)
    ensures S.Eligible(SchedulerAgentFor(t, a, w, now), ToSchedulerWorkload(w, row)) <==> Suits(a, row.spec)
  {}

  /** The scheduler's view of an agent row other than the drained agent's. */
  ghost predicate ViewOfOther(t: Tables, rows: seq<AgentRow>, drained: AgentId, w: WorkloadId, now: int, a: S.Agent) {
    exists i :: 0 <= i < |rows| && rows[i].id != drained && a == SchedulerAgentFor(t, rows[i], w, now)
  }

  lemma ViewsSnoc(t: Tables, rows: seq<AgentRow>, drained: AgentId, w: WorkloadId, now: int, a: S.Agent)
    requires rows != []
    ensures var n := |rows| - 1;
            ViewOfOther(t, rows, drained, w, now, a) <==>
            ViewOfOther(t, rows[..n], drained, w, now, a) || (rows[n].id != drained && a == SchedulerAgentFor(t, rows[n], w, now))
  {
    hide SchedulerAgentFor;
  }

  /** The scheduler's list holds the other agents' rows. */
  lemma {:induction false} OthersAreTheRest(t: Tables, rows: seq<AgentRow>, drained: AgentId, w: WorkloadId, now: int, a: S.Agent)
    ensures a in Others(t, rows, drained, w, now) <==> ViewOfOther(t, rows, drained, w, now, a)
  {
    hide SchedulerAgentFor, ViewOfOther;
    if rows == [] {
      assert !ViewOfOther(t, rows, drained, w, now, a) by { NoViews(t, drained, w, now, a); }
    } else {
      ViewsSnoc(t, rows, drained, w, now, a);
      OthersAreTheRest(t, rows[..|rows| - 1], drained, w, now, a);
    }
  }

  lemma NoViews(t: Tables, drained: AgentId, w: WorkloadId, now: int, a: S.Agent)
    ensures !ViewOfOther(t, [], drained, w, now, a)
  {}

  lemma {:induction false} OthersAreDistinct(t: Tables, rows: seq<AgentRow>, drained: AgentId, w: WorkloadId, now: int)
    requires DistinctIds(rows)
    ensures T.DistinctAgents(Others(t, rows, drained, w, now))
  {
    if rows != [] {
      var n := |rows| - 1;
      OthersAreDistinct(t, rows[..n], drained, w, now);
      var front := Others(t, rows[..n], drained, w, now);
      forall j | 0 <= j < |front| ensures front[j].id != rows[n].id {
        OthersAreTheRest(t, rows[..n], drained, w, now, front[j]);
        var i :| 0 <= i < n && front[j] == SchedulerAgentFor(t, rows[..n][i], w, now);
        assert rows[..n][i].id == rows[i].id;
      }
    }
  }

  /** A command counts against an agent from when it was created until an hour later,
      and then never again. */
  lemma FailuresOfTheLastHour(t: Tables, agent: AgentId, now: int, later: int)
    requires now <= later
    ensures forall k :: k in RecentFailures(t, agent, now) <==>
              k in t.rows && t.rows[k].status == Failed && t.rows[k].message.agent == agent
              && now - t.rows[k].createdAt < 3_600_000
    ensures RecentFailures(t, agent, later) <= RecentFailures(t, agent, now)
  {}

  /** What the scheduler is told of an agent, of where customers' bots are, and of the
      workload: the workload itself is counted nowhere. */
  lemma ContextInColumns(t: Tables, a: AgentRow, w: WorkloadId, row: Workload, now: int, customer: CustomerId, agent: AgentId)
    ensures var view := SchedulerAgentFor(t, a, w, now);
            && view.id == a.id && view.status == a.status && view.region == a.region && view.environment == a.environment
            && view.capabilities == a.capabilities && view.labels == a.labels
            && view.totalMemoryMb == a.totalMemoryMb && view.availableMemoryMb == a.availableMemoryMb
            && view.currentWorkloadCount == |set x | x in t.workloads && x != w && t.workloads[x].owner == Some(a.id)|
            && view.maxWorkloads == None && view.recentFailureCount == Some(|RecentFailures(t, a.id, now)|)
    ensures S.CustomerPlacement(customer, agent) in Placements(t, w) <==>
              exists x :: x in t.workloads && x != w && t.workloads[x].owner == Some(agent) && t.workloads[x].customer == customer
    ensures ToSchedulerWorkload(w, row) == S.Workload(w, row.customer, row.spec.capability, row.spec.memoryMb, None,
              row.spec.requiredLabels, row.spec.preferredLabels, None, row.owner)
  {
    var mine := set x | x in t.workloads && x != w && t.workloads[x].owner == Some(a.id);
    assert mine == AssignedTo(t, a.id) - {w};
  }

  /** Setting a status changes that column of that agent's row. */
  lemma StatusInColumns(t: Tables, agent: AgentId, status: S.AgentStatus)
    ensures var u := SetStatus(t, agent, status);
            && u == t.(agents := u.agents) && |u.agents| == |t.agents|
            && forall i :: 0 <= i < |t.agents| ==>
                 u.agents[i] == t.agents[i].(status := if t.agents[i].id == agent then status else t.agents[i].status)
  {}

  /** A target is found exactly when some other agent could host the workload, and it
      is such an agent; counts and failures only decide which. */
  lemma TargetIsAHost(t: Tables, drained: AgentId, w: WorkloadId, row: Workload, now: int)
    requires DistinctIds(t.agents)
    ensures var target := Target(t, drained, w, row, now);
            && (target.Some? <==> HasHost(t.agents, drained, row.spec))
            && (target.Some? ==> HostFor(t.agents, drained, row.spec, target.value) && HasAgent(t, target.value))
  {
    hide Others, Placements, AssignedTo, RecentFailures, S.ScheduleWorkload, S.Eligible, Suits, T.Beats, ToSchedulerWorkload;
    var others, sw := Others(t, t.agents, drained, w, now), ToSchedulerWorkload(w, row);
    OthersAreDistinct(t, t.agents, drained, w, now);
    var j := T.SelectionIsBest(sw, others, Placements(t, w));
    if Target(t, drained, w, row, now).Some? {
      OthersAreTheRest(t, t.agents, drained, w, now, others[j]);
      var i :| 0 <= i < |t.agents| && t.agents[i].id != drained && others[j] == SchedulerAgentFor(t, t.agents[i], w, now);
      SuitsIffEligible(t, t.agents[i], w, row, now);
    }
    if HasHost(t.agents, drained, row.spec) {
      var i :| 0 <= i < |t.agents| && t.agents[i].id != drained && Suits(t.agents[i], row.spec);
      SuitsIffEligible(t, t.agents[i], w, row, now);
      OthersAreTheRest(t, t.agents, drained, w, now, SchedulerAgentFor(t, t.agents[i], w, now));
    }
  }

  /** And no other host is worth more, or worth the same with a smaller id. */
  lemma TargetIsTheBestHost(t: Tables, drained: AgentId, w: WorkloadId, row: Workload, now: int, b: AgentRow) returns (a: AgentRow)
    requires DistinctIds(t.agents) && b in t.agents && b.id != drained && Suits(b, row.spec)
    ensures a in t.agents && Target(t, drained, w, row, now) == Some(a.id)
    ensures var (sw, placements, load) := (ToSchedulerWorkload(w, row), Placements(t, w), S.LoadOf(Others(t, t.agents, drained, w, now)));
            var mine := S.Worth(SchedulerAgentFor(t, a, w, now), sw, placements, load);
            var other := S.Worth(SchedulerAgentFor(t, b, w, now), sw, placements, load);
            mine > other || (mine == other && a.id <= b.id)
  {
    hide Others, Placements, AssignedTo, RecentFailures, S.ScheduleWorkload, S.Eligible, Suits, ToSchedulerWorkload, S.Worth, S.Breakdown;
    var others, sw, placements := Others(t, t.agents, drained, w, now), ToSchedulerWorkload(w, row), Placements(t, w);
    OthersAreDistinct(t, t.agents, drained, w, now);
    OthersAreTheRest(t, t.agents, drained, w, now, SchedulerAgentFor(t, b, w, now));
    var ib :| 0 <= ib < |t.agents| && t.agents[ib] == b;
    SuitsIffEligible(t, b, w, row, now);
    var k :| 0 <= k < |others| && others[k] == SchedulerAgentFor(t, b, w, now);
    var j := T.SelectionIsBest(sw, others, placements);
    OthersAreTheRest(t, t.agents, drained, w, now, others[j]);
    var i :| 0 <= i < |t.agents| && t.agents[i].id != drained && others[j] == SchedulerAgentFor(t, t.agents[i], w, now);
    a := t.agents[i];
    assert T.Beats(sw, others, placements, j, k);
    S.ScoreIsWorth(others[j], sw, placements, S.LoadOf(others));
    S.ScoreIsWorth(others[k], sw, placements, S.LoadOf(others));
  }

  // ------------------------------------------------------------- one relocation

  function MovedRow(row: Workload, target: AgentId): Workload {
    row.(owner := Some(target), generation := row.generation + 1)
  }

  /** The commands that moving a workload takes, in order: the new owner's
      specification, its start if the workload should run, and one stop for the
      drained agent at the generation it had. */
  function MoveCommands(drained: AgentId, w: WorkloadId, row: Workload, target: AgentId): seq<(Message, Origin)> {
    [(Message(target, w, Update(row.spec), row.generation + 1), Admin)]
    + (if row.desired.ShouldRun? then [(Message(target, w, Start, row.generation + 1), Admin)] else [])
    + [(Message(drained, w, Stop, row.generation), Draining)]
  }

  /** From t to u exactly these commands were issued, in this order, and no row of t
      changed. */
  ghost predicate Added(t: Tables, u: Tables, commands: seq<(Message, Origin)>) {
    && u.nextKey == t.nextKey + |commands|
    && FreshKeys(u)
    && (forall k :: k in t.rows ==> k in u.rows && u.rows[k] == t.rows[k])
    && forall k :: t.nextKey <= k < u.nextKey ==>
         && k in u.rows && u.rows[k].message == commands[k - t.nextKey].0
         && u.rows[k].origin == commands[k - t.nextKey].1 && u.rows[k].status.Pending?
  }

  lemma IssueAdds(t: Tables, m: Message, origin: Origin, now: int)
    requires FreshKeys(t)
    ensures var u := Issue(t, m, origin, now);
            Added(t, u, [(m, origin)]) && u.workloads == t.workloads && u.agents == t.agents
  {}

  lemma AddedConcat(t: Tables, u: Tables, v: Tables, x: seq<(Message, Origin)>, y: seq<(Message, Origin)>)
    requires Added(t, u, x) && Added(u, v, y)
    ensures Added(t, v, x + y)
  {}

  lemma StartAdds(t: Tables, w: WorkloadId, row: Workload, target: AgentId, now: int)
    requires FreshKeys(t) && w in t.workloads && t.workloads[w] == MovedRow(row, target)
    ensures var u := StartMoved(t, w, row, now);
            && u.agents == t.agents && u.workloads == t.workloads
            && Added(t, u, if row.desired.ShouldRun? then [(Message(target, w, Start, row.generation + 1), Admin)] else [])
  {}

  /** A relocation changes one workload row, and issues its commands. */
  lemma RelocationMoves(p: Progress, drained: AgentId, w: WorkloadId, row: Workload, now: int)
    requires FreshKeys(p.tables) && DistinctIds(p.tables.agents) && w in p.tables.workloads && p.tables.workloads[w] == row
    requires HasHost(p.tables.agents, drained, row.spec)
    ensures var q := DrainOne(p, drained, w, row, now);
            |q.relocated| == |p.relocated| + 1 &&
            var target := q.relocated[|p.relocated|].1;
            && HostFor(p.tables.agents, drained, row.spec, target)
            && q == Progress(q.tables, p.relocated + [(w, target)], p.stranded)
            && q.tables.agents == p.tables.agents
            && q.tables.workloads == p.tables.workloads[w := MovedRow(row, target)]
            && Added(p.tables, q.tables, MoveCommands(drained, w, row, target))
  {
    hide Target, Issue, StartMoved, HasHost, HostFor, FreshKeys, Added;
    var t := p.tables;
    TargetIsAHost(t, drained, w, row, now);
    var target := Target(t, drained, w, row, now).value;
    AssignmentAdds(t, w, row, target, now);
    var t1 := AssignWorkload(t, w, target, now).value;
    StartAdds(t1, w, row, target, now);
    var t2 := StartMoved(t1, w, row, now);
    AddedIsFresh(t1, t2, if row.desired.ShouldRun? then [(Message(target, w, Start, row.generation + 1), Admin)] else []);
    IssueAdds(t2, OldStop(drained, w, row), Draining, now);
    var t3 := Issue(t2, OldStop(drained, w, row), Draining, now);
    var x := [(Message(target, w, Update(row.spec), row.generation + 1), Admin)];
    var y := if row.desired.ShouldRun? then [(Message(target, w, Start, row.generation + 1), Admin)] else [];
    AddedConcat(t, t1, t2, x, y);
    AddedConcat(t, t2, t3, x + y, [(OldStop(drained, w, row), Draining)]);
  }

  lemma AddedIsFresh(t: Tables, u: Tables, x: seq<(Message, Origin)>)
    requires Added(t, u, x)
    ensures FreshKeys(u)
  {}

  lemma AssignmentAdds(t: Tables, w: WorkloadId, row: Workload, target: AgentId, now: int)
    requires FreshKeys(t) && w in t.workloads && t.workloads[w] == row && HasAgent(t, target)
    ensures AssignWorkload(t, w, target, now).Some?
    ensures var u := AssignWorkload(t, w, target, now).value;
            && FreshKeys(u) && u.agents == t.agents && u.workloads == t.workloads[w := MovedRow(row, target)]
            && Added(t, u, [(Message(target, w, Update(row.spec), row.generation + 1), Admin)])
  {}

  lemma CountAfterMove(t: Tables, u: Tables, w: WorkloadId, drained: AgentId, target: AgentId, next: WorkloadId, agent: AgentId)
    requires w in t.workloads && t.workloads[w].owner == Some(drained) && target != drained && next != w
    requires u.workloads == t.workloads[w := MovedRow(t.workloads[w], target)]
    ensures |AssignedTo(u, agent) - {next}|
         == |AssignedTo(t, agent) - {next}| + (if agent == target then 1 else 0) - (if agent == drained then 1 else 0)
  {
    if agent == target {
      assert AssignedTo(u, agent) - {next} == AssignedTo(t, agent) - {next} + {w};
    } else if agent == drained {
      assert AssignedTo(t, agent) - {next} == AssignedTo(u, agent) - {next} + {w};
    } else {
      assert AssignedTo(u, agent) == AssignedTo(t, agent);
    }
  }

  /** What the next round's scoring sees of a relocation: one workload more on the
      target, one less on the drained agent, and no other agent's count changed. */
  lemma CountsFollowMoves(p: Progress, drained: AgentId, w: WorkloadId, row: Workload, now: int, next: WorkloadId, agent: AgentId)
    requires FreshKeys(p.tables) && DistinctIds(p.tables.agents) && w in p.tables.workloads && p.tables.workloads[w] == row
    requires HasHost(p.tables.agents, drained, row.spec) && row.owner == Some(drained) && next != w
    ensures var q := DrainOne(p, drained, w, row, now);
            && |q.relocated| == |p.relocated| + 1
            && |AssignedTo(q.tables, agent) - {next}|
               == |AssignedTo(p.tables, agent) - {next}|
                  + (if agent == q.relocated[|p.relocated|].1 then 1 else 0) - (if agent == drained then 1 else 0)
  {
    hide DrainOne, HasHost, FreshKeys, DistinctIds, Added, MoveCommands, Suits, AssignedTo;
    RelocationMoves(p, drained, w, row, now);
    var q := DrainOne(p, drained, w, row, now);
    CountAfterMove(p.tables, q.tables, w, drained, q.relocated[|p.relocated|].1, next, agent);
  }

  // ---------------------------------------------------------------- the whole drain

  /** The listed workloads that some other agent could host, and those that none could. */
  function Movable(t: Tables, drained: AgentId, ids: seq<WorkloadId>): seq<WorkloadId>
    requires forall w :: w in ids ==> w in t.workloads
  {
    if ids == [] then []
    else
      var front, w := Movable(t, drained, ids[..|ids| - 1]), ids[|ids| - 1];
      if HasHost(t.agents, drained, t.workloads[w].spec) then front + [w] else front
  }

  function Stuck(t: Tables, drained: AgentId, ids: seq<WorkloadId>): seq<WorkloadId>
    requires forall w :: w in ids ==> w in t.workloads
  {
    if ids == [] then []
    else
      var front, w := Stuck(t, drained, ids[..|ids| - 1]), ids[|ids| - 1];
      if HasHost(t.agents, drained, t.workloads[w].spec) then front else front + [w]
  }

  function Workloads(moves: seq<(WorkloadId, AgentId)>): seq<WorkloadId> {
    seq(|moves|, i requires 0 <= i < |moves| => moves[i].0)
  }

  function AllCommands(t: Tables, drained: AgentId, moves: seq<(WorkloadId, AgentId)>): seq<(Message, Origin)>
    requires forall i :: 0 <= i < |moves| ==> moves[i].0 in t.workloads
  {
    if moves == [] then []
    else
      var last := moves[|moves| - 1];
      AllCommands(t, drained, moves[..|moves| - 1]) + MoveCommands(drained, last.0, t.workloads[last.0], last.1)
  }

  ghost predicate GoodMoves(t: Tables, u: Tables, drained: AgentId, moves: seq<(WorkloadId, AgentId)>) {
    forall i :: 0 <= i < |moves| ==>
      && moves[i].0 in t.workloads && moves[i].0 in u.workloads
      && HostFor(t.agents, drained, t.workloads[moves[i].0].spec, moves[i].1)
      && u.workloads[moves[i].0] == MovedRow(t.workloads[moves[i].0], moves[i].1)
  }

  /** What the drain has done after the listed workloads. */
  ghost predicate DrainedSoFar(t: Tables, drained: AgentId, ids: seq<WorkloadId>, p: Progress) {
    && (forall w :: w in ids ==> w in t.workloads)
    && p.stranded == Stuck(t, drained, ids) && Workloads(p.relocated) == Movable(t, drained, ids)
    && p.tables.agents == t.agents && p.tables.workloads.Keys == t.workloads.Keys
    && GoodMoves(t, p.tables, drained, p.relocated)
    && (forall w :: w in t.workloads && w !in Movable(t, drained, ids) ==> p.tables.workloads[w] == t.workloads[w])
    && Added(t, p.tables, AllCommands(t, drained, p.relocated))
  }

  lemma {:induction false} SplitMembers(t: Tables, drained: AgentId, ids: seq<WorkloadId>, w: WorkloadId)
    requires forall x :: x in ids ==> x in t.workloads
    ensures w in Movable(t, drained, ids) <==> w in ids && HasHost(t.agents, drained, t.workloads[w].spec)
    ensures w in Stuck(t, drained, ids) <==> w in ids && !HasHost(t.agents, drained, t.workloads[w].spec)
  {
    hide HasHost;
    if ids != [] {
      SplitMembers(t, drained, ids[..|ids| - 1], w);
    }
  }

  lemma OneMoreMove(t: Tables, u: Tables, v: Tables, drained: AgentId, moves: seq<(WorkloadId, AgentId)>, w: WorkloadId, target: AgentId)
    requires GoodMoves(t, u, drained, moves) && w in t.workloads && w !in Workloads(moves)
    requires HostFor(t.agents, drained, t.workloads[w].spec, target)
    requires v.workloads == u.workloads[w := MovedRow(t.workloads[w], target)]
    ensures GoodMoves(t, v, drained, moves + [(w, target)])
    ensures Workloads(moves + [(w, target)]) == Workloads(moves) + [w]
    ensures AllCommands(t, drained, moves + [(w, target)])
            == AllCommands(t, drained, moves) + MoveCommands(drained, w, t.workloads[w], target)
  {
    hide HostFor, MoveCommands;
    assert (moves + [(w, target)])[..|moves|] == moves;
    forall i | 0 <= i < |moves| ensures moves[i].0 != w {
      assert Workloads(moves)[i] == moves[i].0;
    }
  }

  lemma RoundKeepsDrained(t: Tables, drained: AgentId, ids: seq<WorkloadId>, w: WorkloadId, p: Progress, now: int)
    requires DistinctIds(t.agents) && DrainedSoFar(t, drained, ids, p) && w in t.workloads && w !in ids
    ensures DrainedSoFar(t, drained, ids + [w], DrainOne(p, drained, w, t.workloads[w], now))
  {
    hide DrainOne, HasHost, HostFor, MoveCommands, Added, FreshKeys, DistinctIds, Workloads, AllCommands;
    var row, q := t.workloads[w], DrainOne(p, drained, w, t.workloads[w], now);
    assert (ids + [w])[..|ids|] == ids;
    SplitMembers(t, drained, ids, w);
    if HasHost(t.agents, drained, row.spec) {
      AddedIsFresh(t, p.tables, AllCommands(t, drained, p.relocated));
      RelocationMoves(p, drained, w, row, now);
      var target := q.relocated[|p.relocated|].1;
      OneMoreMove(t, p.tables, q.tables, drained, p.relocated, w, target);
      AddedConcat(t, p.tables, q.tables, AllCommands(t, drained, p.relocated), MoveCommands(drained, w, row, target));
    } else {
      StrandingStays(p, drained, w, row, now);
    }
  }

  lemma StrandingStays(p: Progress, drained: AgentId, w: WorkloadId, row: Workload, now: int)
    requires DistinctIds(p.tables.agents) && !HasHost(p.tables.agents, drained, row.spec)
    ensures DrainOne(p, drained, w, row, now) == p.(stranded := p.stranded + [w])
  {
    TargetIsAHost(p.tables, drained, w, row, now);
  }

  lemma {:induction false} DrainKeepsDrained(t: Tables, drained: AgentId, ids: seq<WorkloadId>, clock: nat -> int)
    requires DistinctIds(t.agents) && FreshKeys(t) && (forall w :: w in ids ==> w in t.workloads)
    requires forall i, j :: 0 <= i < j < |ids| ==> ids[i] != ids[j]
    ensures DrainedSoFar(t, drained, ids, DrainAll(t, drained, ids, t.workloads, clock))
  {
    hide DrainOne, DistinctIds;
    if ids == [] {
      NothingDrained(t, drained);
    } else {
      var n := |ids| - 1;
      DrainKeepsDrained(t, drained, ids[..n], clock);
      hide DrainedSoFar;
      RoundKeepsDrained(t, drained, ids[..n], ids[n], DrainAll(t, drained, ids[..n], t.workloads, clock), clock(n));
      assert ids == ids[..n] + [ids[n]];
    }
  }

  lemma NothingDrained(t: Tables, drained: AgentId)
    requires FreshKeys(t)
    ensures DrainedSoFar(t, drained, [], Progress(t, [], []))
  {}

  /** With nothing else going on, and whatever the order and the clock: every workload
      of the agent is relocated or stranded, not both; it is stranded exactly when no
      other online agent has its capability, labels and memory; a relocated one is on
      such an agent, one generation up and otherwise as it was; nothing else changes;
      the agent is left with exactly the stranded ones; and the commands issued are,
      in order, those of the moves: per move one stop, to the drained agent at the
      generation it had. */
  lemma DrainConservesWorkloads(t: Tables, drained: AgentId, ids: seq<WorkloadId>, clock: nat -> int)
    requires DistinctIds(t.agents) && FreshKeys(t) && Lists(ids, AssignedTo(t, drained))
    ensures var p := DrainAll(t, drained, ids, t.workloads, clock);
            && (forall w :: w in Workloads(p.relocated) <==> w in AssignedTo(t, drained) && HasHost(t.agents, drained, t.workloads[w].spec))
            && (forall w :: w in p.stranded <==> w in AssignedTo(t, drained) && !HasHost(t.agents, drained, t.workloads[w].spec))
            && |p.relocated| + |p.stranded| == |ids|
            && GoodMoves(t, p.tables, drained, p.relocated)
            && p.tables.workloads.Keys == t.workloads.Keys
            && (forall w :: w in t.workloads && w !in Workloads(p.relocated) ==> p.tables.workloads[w] == t.workloads[w])
            && (forall w :: w in AssignedTo(p.tables, drained) <==> w in p.stranded)
            && Added(t, p.tables, AllCommands(t, drained, p.relocated))
  {
    hide HasHost, HostFor, DrainAll, Added, FreshKeys, DistinctIds, AllCommands;
    DrainKeepsDrained(t, drained, ids, clock);
    SplitSizes(t, drained, ids);
    var p := DrainAll(t, drained, ids, t.workloads, clock);
    forall w ensures w in Movable(t, drained, ids) <==> w in ids && HasHost(t.agents, drained, t.workloads[w].spec)
      ensures w in Stuck(t, drained, ids) <==> w in ids && !HasHost(t.agents, drained, t.workloads[w].spec)
    {
      SplitMembers(t, drained, ids, w);
    }
    LeftBehind(t, drained, ids, p);
  }

  lemma LeftBehind(t: Tables, drained: AgentId, ids: seq<WorkloadId>, p: Progress)
    requires DrainedSoFar(t, drained, ids, p) && Lists(ids, AssignedTo(t, drained))
    ensures forall w :: w in AssignedTo(p.tables, drained) <==> w in p.stranded
  {
    hide HasHost, Added, FreshKeys, AllCommands;
    forall w ensures w in AssignedTo(p.tables, drained) <==> w in p.stranded {
      SplitMembers(t, drained, ids, w);
      if w in Movable(t, drained, ids) {
        var i :| 0 <= i < |p.relocated| && Workloads(p.relocated)[i] == w;
        assert p.relocated[i].0 == w;
        assert p.tables.workloads[w] == MovedRow(t.workloads[w], p.relocated[i].1);
      }
    }
  }

  lemma {:induction false} SplitSizes(t: Tables, drained: AgentId, ids: seq<WorkloadId>)
    requires forall w :: w in ids ==> w in t.workloads
    ensures |Movable(t, drained, ids)| + |Stuck(t, drained, ids)| == |ids|
  {
    hide HasHost;
    if ids != [] {
      SplitSizes(t, drained, ids[..|ids| - 1]);
    }
  }

  /** The drain is complete exactly when nothing is stranded. */
  lemma FullyDrainedIffNoneStranded(t: Tables, drained: AgentId, ids: seq<WorkloadId>, clock: nat -> int)
    requires DistinctIds(t.agents) && FreshKeys(t) && Lists(ids, AssignedTo(t, drained))
    ensures var p := DrainAll(t, drained, ids, t.workloads, clock);
            AssignedTo(p.tables, drained) == {} <==> p.stranded == []
  {
    hide HasHost, HostFor, DrainAll, Added, FreshKeys, DistinctIds, AllCommands, GoodMoves;
    DrainConservesWorkloads(t, drained, ids, clock);
    var p := DrainAll(t, drained, ids, t.workloads, clock);
    if p.stranded != [] {
      assert p.stranded[0] in AssignedTo(p.tables, drained);
    }
  }

  /** Which workloads move and which are stranded does not depend on the order in
      which they are visited or on the clock. */
  lemma OrderDecidesOnlyTargets(t: Tables, drained: AgentId, x: seq<WorkloadId>, y: seq<WorkloadId>,
                                early: nat -> int, late: nat -> int)
    requires DistinctIds(t.agents) && FreshKeys(t)
    requires Lists(x, AssignedTo(t, drained)) && Lists(y, AssignedTo(t, drained))
    ensures var (p, q) := (DrainAll(t, drained, x, t.workloads, early), DrainAll(t, drained, y, t.workloads, late));
            forall w :: (w in p.stranded <==> w in q.stranded) && (w in Workloads(p.relocated) <==> w in Workloads(q.relocated))
  {
    hide HasHost, HostFor, DrainAll, Added, FreshKeys, DistinctIds, AllCommands, GoodMoves, AssignedTo, Workloads, Lists;
    DrainConservesWorkloads(t, drained, x, early);
    DrainConservesWorkloads(t, drained, y, late);
  }

  function OldStops(drained: AgentId, w: WorkloadId, commands: seq<(Message, Origin)>): nat {
    if commands == [] then 0
    else
      var (m, _) := commands[|commands| - 1];
      OldStops(drained, w, commands[..|commands| - 1])
      + if m.kind.Stop? && m.agent == drained && m.workload == w then 1 else 0
  }

  lemma {:induction false} OldStopsConcat(drained: AgentId, w: WorkloadId, x: seq<(Message, Origin)>, y: seq<(Message, Origin)>)
    ensures OldStops(drained, w, x + y) == OldStops(drained, w, x) + OldStops(drained, w, y)
  {
    if y == [] {
      assert x + y == x;
    } else {
      OldStopsConcat(drained, w, x, y[..|y| - 1]);
      assert (x + y)[..|x + y| - 1] == x + y[..|y| - 1];
    }
  }

  lemma MoveStopsOnce(drained: AgentId, x: WorkloadId, row: Workload, target: AgentId, w: WorkloadId)
    ensures OldStops(drained, w, MoveCommands(drained, x, row, target)) == if w == x then 1 else 0
  {
    var update := [(Message(target, x, Update(row.spec), row.generation + 1), Admin)];
    var start := if row.desired.ShouldRun? then [(Message(target, x, Start, row.generation + 1), Admin)] else [];
    var stop := [(Message(drained, x, Stop, row.generation), Draining)];
    OldStopsConcat(drained, w, update + start, stop);
    OldStopsConcat(drained, w, update, start);
    assert update[..0] == [] && stop[..0] == [] && (start != [] ==> start[..0] == []);
  }

  function CountOf(w: WorkloadId, moves: seq<(WorkloadId, AgentId)>): nat {
    if moves == [] then 0
    else CountOf(w, moves[..|moves| - 1]) + if moves[|moves| - 1].0 == w then 1 else 0
  }

  /** The drained agent is sent one stop per relocation of a workload, no more. */
  lemma {:induction false} OneStopPerMove(t: Tables, drained: AgentId, moves: seq<(WorkloadId, AgentId)>, w: WorkloadId)
    requires forall i :: 0 <= i < |moves| ==> moves[i].0 in t.workloads
    ensures OldStops(drained, w, AllCommands(t, drained, moves)) == CountOf(w, moves)
  {
    hide MoveCommands;
    if moves != [] {
      var n := |moves| - 1;
      OneStopPerMove(t, drained, moves[..n], w);
      var x, target := moves[n].0, moves[n].1;
      OldStopsConcat(drained, w, AllCommands(t, drained, moves[..n]), MoveCommands(drained, x, t.workloads[x], target));
      MoveStopsOnce(drained, x, t.workloads[x], target, w);
    }
  }

  /** And every workload is relocated at most once. */
  lemma {:induction false} MovedAtMostOnce(t: Tables, drained: AgentId, ids: seq<WorkloadId>,
                                           moves: seq<(WorkloadId, AgentId)>, w: WorkloadId)
    requires forall x :: x in ids ==> x in t.workloads
    requires forall i, j :: 0 <= i < j < |ids| ==> ids[i] != ids[j]
    requires Workloads(moves) == Movable(t, drained, ids)
    ensures CountOf(w, moves) == if w in Movable(t, drained, ids) then 1 else 0
  {
    hide HasHost;
    if ids != [] {
      var n, x := |ids| - 1, ids[|ids| - 1];
      if HasHost(t.agents, drained, t.workloads[x].spec) {
        var m := |moves| - 1;
        assert Movable(t, drained, ids) == Movable(t, drained, ids[..n]) + [x];
        assert Workloads(moves[..m]) == Workloads(moves)[..m] == Movable(t, drained, ids[..n]);
        assert moves[m].0 == Workloads(moves)[m] == x;
        MovedAtMostOnce(t, drained, ids[..n], moves[..m], w);
        SplitMembers(t, drained, ids[..n], x);
      } else {
        MovedAtMostOnce(t, drained, ids[..n], moves, w);
      }
    }
  }

  /** Exactly one stop to the drained agent for each relocated workload. */
  lemma ExactlyOneStop(t: Tables, drained: AgentId, ids: seq<WorkloadId>, clock: nat -> int, w: WorkloadId)
    requires DistinctIds(t.agents) && FreshKeys(t) && Lists(ids, AssignedTo(t, drained))
    ensures var p := DrainAll(t, drained, ids, t.workloads, clock);
            && (forall i :: 0 <= i < |p.relocated| ==> p.relocated[i].0 in t.workloads)
            && OldStops(drained, w, AllCommands(t, drained, p.relocated)) == if w in Workloads(p.relocated) then 1 else 0
  {
    hide HasHost, HostFor, DrainAll, Added, FreshKeys, DistinctIds, AllCommands;
    DrainKeepsDrained(t, drained, ids, clock);
    var p := DrainAll(t, drained, ids, t.workloads, clock);
    OneStopPerMove(t, drained, p.relocated, w);
    MovedAtMostOnce(t, drained, ids, p.relocated, w);
  }
}
