/** Draining an agent: its workloads move, one at a time, to where the scheduler
    puts them (apps/control-plane/lib/agents/drain.ts, lib/scheduling.ts). One drain
    on its own; other calls during a drain are in Fleet. */
module AgentDrain {
  import opened Wrappers
  import opened Plane
  import opened ControlPlane
  import S = Scheduler

  const RECENT_FAILURE_WINDOW_MS := 60 * 60 * 1000

  // ------------------------------------------------- what the scheduler is told

  function AssignedTo(t: Tables, agent: AgentId): set<WorkloadId> {
    set w | w in t.workloads && t.workloads[w].owner == Some(agent)
  }

  function RecentFailures(t: Tables, agent: AgentId, now: int): set<Key> {
    set k | k in t.rows && t.rows[k].status.Failed? && t.rows[k].message.agent == agent
            && t.rows[k].createdAt > now - RECENT_FAILURE_WINDOW_MS
  }

  function SchedulerAgentFor(t: Tables, row: AgentRow, exclude: WorkloadId, now: int): S.Agent {
    S.Agent(row.id, row.status, row.region, row.environment, row.capabilities, row.labels, row.totalMemoryMb,
            row.availableMemoryMb, |AssignedTo(t, row.id) - {exclude}|, None, Some(|RecentFailures(t, row.id, now)|))
  }

  /** The agents of the scheduler's context, without the one being drained. */
  function Others(t: Tables, rows: seq<AgentRow>, drained: AgentId, exclude: WorkloadId, now: int): seq<S.Agent> {
    if rows == [] then []
    else
      var front, row := Others(t, rows[..|rows| - 1], drained, exclude, now), rows[|rows| - 1];
      if row.id != drained then front + [SchedulerAgentFor(t, row, exclude, now)] else front
  }

  function Placements(t: Tables, exclude: WorkloadId): set<S.CustomerPlacement> {
    set w | w in t.workloads && w != exclude && t.workloads[w].owner.Some? ::
      S.CustomerPlacement(t.workloads[w].customer, t.workloads[w].owner.value)
  }

  function ToSchedulerWorkload(w: WorkloadId, row: Workload): S.Workload {
    S.Workload(w, row.customer, row.spec.capability, row.spec.memoryMb, None, row.spec.requiredLabels,
               row.spec.preferredLabels, None, row.owner)
  }

  function Target(t: Tables, drained: AgentId, w: WorkloadId, row: Workload, now: int): Option<AgentId> {
    S.ScheduleWorkload(ToSchedulerWorkload(w, row), Others(t, t.agents, drained, w, now), Placements(t, w)).selectedAgentId
  }

  // ------------------------------------------------------------------ the drain

  function SetStatus(t: Tables, agent: AgentId, status: S.AgentStatus): Tables {
    t.(agents := seq(|t.agents|, i requires 0 <= i < |t.agents| =>
         if t.agents[i].id == agent then t.agents[i].(status := status) else t.agents[i]))
  }

  datatype Progress = Progress(tables: Tables, relocated: seq<(WorkloadId, AgentId)>, stranded: seq<WorkloadId>)

  /** A start of the moved workload if it should run; the outcome is not looked at. */
  function StartMoved(t: Tables, w: WorkloadId, row: Workload, now: int): Tables {
    if !row.desired.ShouldRun? then t
    else
      var sent := SendCommand(t, w, Start, Admin, now);
      if sent.None? then t else sent.value
  }

  function OldStop(drained: AgentId, w: WorkloadId, row: Workload): Message {
    Message(drained, w, Stop, row.generation)
  }

  /** One round: the row is the one read before the drain began. */
  function DrainOne(p: Progress, drained: AgentId, w: WorkloadId, row: Workload, now: int): Progress {
    var target := Target(p.tables, drained, w, row, now);
    var moved := if target.None? then None else AssignWorkload(p.tables, w, target.value, now);
    if moved.None? then p.(stranded := p.stranded + [w])
    else
      Progress(Issue(StartMoved(moved.value, w, row, now), OldStop(drained, w, row), Draining, now),
               p.relocated + [(w, target.value)], p.stranded)
  }

  function DrainAll(t: Tables, drained: AgentId, ids: seq<WorkloadId>, rows: Snapshot, clock: nat -> int): Progress
    requires forall w :: w in ids ==> w in rows
  {
    if ids == [] then Progress(t, [], [])
    else
      var n := |ids| - 1;
      DrainOne(DrainAll(t, drained, ids[..n], rows, clock), drained, ids[n], rows[ids[n]], clock(n))
  }

  ghost predicate Lists(ids: seq<WorkloadId>, s: set<WorkloadId>) {
    && (forall w :: w in ids <==> w in s)
    && forall i, j :: 0 <= i < j < |ids| ==> ids[i] != ids[j]
  }

  /** The workloads of an agent, in any order. */
  method WorkloadsOf(db: ControlPlaneDb, agent: AgentId) returns (ids: seq<WorkloadId>)
    ensures Lists(ids, AssignedTo(db.View(), agent))
  {
    ids := [];
    var todo := AssignedTo(db.View(), agent);
    while todo != {}
      invariant forall w :: w in AssignedTo(db.View(), agent) <==> w in todo || w in ids
      invariant forall w :: w in todo ==> w !in ids
      invariant forall i, j :: 0 <= i < j < |ids| ==> ids[i] != ids[j]
      decreases todo
    {
      var w :| w in todo;
      todo := todo - {w};
      ids := ids + [w];
    }
  }

  method WriteStatus(db: ControlPlaneDb, agent: AgentId, status: S.AgentStatus)
    modifies db
    ensures db.View() == SetStatus(old(db.View()), agent, status)
  {
    db.agents := SetStatus(db.View(), agent, status).agents;
  }

  datatype DrainResult =
    | AgentNotFound
    | Drained(relocated: seq<(WorkloadId, AgentId)>, stranded: seq<WorkloadId>, fullyDrained: bool)

  /** drainAgent. The clock is read once for each workload; order is the order the
      workloads were read in. */
  method DrainAgent(db: ControlPlaneDb, agent: AgentId, clock: nat -> int)
    returns (result: DrainResult, ghost order: seq<WorkloadId>)
    modifies db
    ensures result.AgentNotFound? <==> !HasAgent(old(db.View()), agent)
    ensures result.AgentNotFound? ==> db.View() == old(db.View())
    ensures result.Drained? ==>
              var before := SetStatus(old(db.View()), agent, S.Draining);
              && Lists(order, AssignedTo(before, agent))
              && var p := DrainAll(before, agent, order, before.workloads, clock);
                 && result == Drained(p.relocated, p.stranded, AssignedTo(p.tables, agent) == {})
                 && db.View() == if result.fullyDrained then SetStatus(p.tables, agent, S.Disabled) else p.tables
  {
    hide Target, AssignWorkload, SendCommand, Issue, SetStatus;
    order := [];
    if !HasAgent(db.View(), agent) {
      return AgentNotFound, [];
    }
    WriteStatus(db, agent, S.Draining);
    ghost var before := db.View();
    var ids := WorkloadsOf(db, agent);
    order := ids;
    var snapshot := db.workloads;
    var relocated, stranded := [], [];
    for i := 0 to |ids|
      invariant forall w :: w in ids ==> w in snapshot
      invariant Progress(db.View(), relocated, stranded) == DrainAll(before, agent, ids[..i], snapshot, clock)
    {
      assert ids[..i + 1][..i] == ids[..i];
      var w, workload, now := ids[i], snapshot[ids[i]], clock(i);
      var selected := Target(db.View(), agent, w, workload, now);
      if selected.None? {
        stranded := stranded + [w];
        continue;
      }
      var ok := db.AssignWorkloadToAgent(w, selected.value, now);
      if !ok {
        stranded := stranded + [w];
        continue;
      }
      if workload.desired.ShouldRun? {
        var _ := db.SendWorkloadCommand(w, Start, Admin, now);
      }
      db.RecordAndEnqueueCommand(OldStop(agent, w, workload), Draining, now);
      relocated := relocated + [(w, selected.value)];
    }
    assert ids[..|ids|] == ids;
    var stillAssigned := |AssignedTo(db.View(), agent)|;
    var fullyDrained := stillAssigned == 0;
    if fullyDrained {
      WriteStatus(db, agent, S.Disabled);
    }
    result := Drained(relocated, stranded, fullyDrained);
  }
}
