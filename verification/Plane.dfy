/** The control plane's tables and the atomic updates made on them
    (apps/control-plane/lib/workloads.ts, lib/agent-gateway/command-outcomes.ts,
    lib/reconciliation.ts, and the inventory handler of lib/agent-gateway/server.ts). */
module Plane {
  import opened Wrappers
  import Scheduler

  type AgentId = Scheduler.AgentId
  type CustomerId = Scheduler.CustomerId
  type WorkloadId = nat

  /** An idempotency key; fresh ones come from a counter instead of random UUIDs. */
  type Key = nat

  /** The parts of a workload specification that any modelled code looks at:
      whether it parses, whether its runtime is node, and its placement wishes. */
  datatype Spec = Spec(
    valid: bool, nodeRuntime: bool, capability: Option<string>, memoryMb: Option<nat>,
    requiredLabels: seq<(string, string)>, preferredLabels: seq<(string, string)>)

  datatype Desired = ShouldRun | ShouldStop

  /** The observed states the code ever writes, and the column's default. */
  datatype Observed = Unknown | Running | Stopped | Broken

  datatype Kind = Update(spec: Spec) | Start | Stop | Restart

  datatype Status = Pending | Accepted | Succeeded | Failed

  /** Which caller issued a command. */
  datatype Origin = Admin | Reconciler | Fencing | Draining

  datatype Message = Message(agent: AgentId, workload: WorkloadId, kind: Kind, generation: nat)

  /** An AgentCommand row. */
  datatype Row = Row(message: Message, status: Status, origin: Origin, createdAt: int)

  datatype Workload = Workload(
    customer: CustomerId, spec: Spec, desired: Desired, observed: Observed,
    owner: Option<AgentId>, generation: nat, observedGeneration: nat,
    attempts: nat, nextAttemptAt: Option<int>, suspendedAt: Option<int>, lastTransitionAt: Option<int>)

  /** How far a command has got: its addressee and generation are fixed in a
      message, its row is written, it is in the queue, it is on the agent's socket. */
  datatype Stage = Built | Recorded | Queued | Sent

  datatype Packet = Packet(message: Message, origin: Origin, stage: Stage)

  datatype AgentRow = AgentRow(
    id: AgentId, status: Scheduler.AgentStatus, region: Option<string>, environment: Option<string>,
    capabilities: seq<string>, labels: map<string, string>, totalMemoryMb: Option<nat>, availableMemoryMb: Option<nat>)

  datatype Tables = Tables(
    agents: seq<AgentRow>, workloads: map<WorkloadId, Workload>, rows: map<Key, Row>,
    transit: map<Key, Packet>, nextKey: Key)

  const MAX_RECONCILE_ATTEMPTS := 5
  const BASE_BACKOFF_MS := 30_000
  const MAX_BACKOFF_MS := 30 * 60_000

  // ---------------------------------------------------------- issuing commands

  function NewWorkload(customer: CustomerId, spec: Spec): Workload {
    Workload(customer, spec, ShouldStop, Unknown, None, 1, 0, 0, None, None, None)
  }

  function CreateRow(t: Tables, w: WorkloadId, customer: CustomerId, spec: Spec): Tables {
    t.(workloads := t.workloads[w := NewWorkload(customer, spec)])
  }

  function Build(t: Tables, message: Message, origin: Origin): Tables {
    t.(transit := t.transit[t.nextKey := Packet(message, origin, Built)], nextKey := t.nextKey + 1)
  }

  function Record(t: Tables, k: Key, now: int): Tables
    requires k in t.transit
  {
    var p := t.transit[k];
    t.(rows := t.rows[k := Row(p.message, Pending, p.origin, now)], transit := t.transit[k := p.(stage := Recorded)])
  }

  function MoveTo(t: Tables, k: Key, stage: Stage): Tables
    requires k in t.transit
  {
    t.(transit := t.transit[k := t.transit[k].(stage := stage)])
  }

  /** The packet is consumed or lost. */
  function Discard(t: Tables, k: Key): Tables {
    t.(transit := t.transit - {k})
  }

  /** recordAndEnqueueCommand for a message just built. */
  function Issue(t: Tables, message: Message, origin: Origin, now: int): Tables {
    MoveTo(Record(Build(t, message, origin), t.nextKey, now), t.nextKey, Queued)
  }

  /** The atomic UPDATE of an assignment; the message is built from its result. */
  function AssignUpdate(t: Tables, w: WorkloadId, agent: AgentId): Tables
    requires w in t.workloads
  {
    var row := t.workloads[w].(owner := Some(agent), generation := t.workloads[w].generation + 1);
    Build(t.(workloads := t.workloads[w := row]), Message(agent, w, Update(row.spec), row.generation), Admin)
  }

  predicate HasAgent(t: Tables, agent: AgentId) {
    exists i :: 0 <= i < |t.agents| && t.agents[i].id == agent
  }

  /** None: no such workload or agent. */
  function AssignWorkload(t: Tables, w: WorkloadId, agent: AgentId, now: int): Option<Tables> {
    if w !in t.workloads || !HasAgent(t, agent) then None
    else Some(MoveTo(Record(AssignUpdate(t, w, agent), t.nextKey, now), t.nextKey, Queued))
  }

  predicate Sendable(t: Tables, w: WorkloadId) { w in t.workloads && t.workloads[w].owner.Some? }

  /** A command for the current owner at the current generation, from one read. */
  function CommandFor(t: Tables, w: WorkloadId, kind: Kind): Message
    requires Sendable(t, w)
  {
    Message(t.workloads[w].owner.value, w, kind, t.workloads[w].generation)
  }

  function DesiredAfter(kind: Kind): Desired { if kind.Stop? then ShouldStop else ShouldRun }

  function SetDesired(t: Tables, w: WorkloadId, desired: Desired): Tables
    requires w in t.workloads
  {
    t.(workloads := t.workloads[w := t.workloads[w].(desired := desired)])
  }

  /** None: no such workload, or it has no assigned agent. */
  function SendCommand(t: Tables, w: WorkloadId, kind: Kind, origin: Origin, now: int): Option<Tables> {
    if !Sendable(t, w) then None
    else Some(SetDesired(Issue(t, CommandFor(t, w, kind), origin, now), w, DesiredAfter(kind)))
  }

  /** One inventory entry of an authenticated agent. */
  datatype Report = Report(agent: AgentId, workload: WorkloadId, generation: nat)

  predicate Stale(t: Tables, r: Report) {
    r.workload in t.workloads && t.workloads[r.workload].owner != Some(r.agent)
  }

  function FenceStop(r: Report): Message { Message(r.agent, r.workload, Stop, r.generation) }

  /** The inventory handler: a stop for every entry the agent does not own. */
  function FenceAll(t: Tables, reports: seq<Report>, now: int): Tables {
    if reports == [] then t
    else
      var before, r := FenceAll(t, reports[..|reports| - 1], now), reports[|reports| - 1];
      if Stale(before, r) then Issue(before, FenceStop(r), Fencing, now) else before
  }

  // ----------------------------------------------------------------- outcomes

  function Pow2(n: nat): nat { if n == 0 then 1 else 2 * Pow2(n - 1) }

  function ReconcileBackoffMs(attempts: nat): nat {
    var ms := BASE_BACKOFF_MS * Pow2(attempts);
    if ms > MAX_BACKOFF_MS then MAX_BACKOFF_MS else ms
  }

  /** The observed state a result implies, if any. */
  function ObservedStateFor(kind: Kind, succeeded: bool): Option<Observed> {
    if kind.Update? then None
    else if !succeeded then Some(Broken)
    else if kind.Stop? then Some(Stopped)
    else Some(Running)
  }

  function AfterSuccess(w: Workload, observed: Observed, now: int): Workload {
    w.(observed := observed, observedGeneration := w.generation, lastTransitionAt := Some(now),
       attempts := 0, nextAttemptAt := None)
  }

  function AfterFailure(w: Workload, observed: Observed, now: int): Workload {
    var attempts := w.attempts + 1;
    var suspended := attempts >= MAX_RECONCILE_ATTEMPTS;
    w.(observed := observed, lastTransitionAt := Some(now), attempts := attempts,
       nextAttemptAt := if suspended then None else Some(now + ReconcileBackoffMs(attempts)),
       suspendedAt := if suspended then Some(now) else None)
  }

  /** An outcome reaches the workload row: the command is a start, stop or restart
      of an existing workload, and its agent is the current owner. */
  predicate Authoritative(t: Tables, m: Message) {
    !m.kind.Update? && m.workload in t.workloads && t.workloads[m.workload].owner == Some(m.agent)
  }

  function MarkOutcome(t: Tables, k: Key, succeeded: bool, now: int): Tables {
    if k !in t.rows then t
    else
      var m := t.rows[k].message;
      var marked := t.(rows := t.rows[k := t.rows[k].(status := if succeeded then Succeeded else Failed)]);
      if !Authoritative(t, m) then marked
      else
        var w, observed := t.workloads[m.workload], ObservedStateFor(m.kind, succeeded).value;
        marked.(workloads := t.workloads[m.workload :=
          if succeeded then AfterSuccess(w, observed, now) else AfterFailure(w, observed, now)])
  }

  function Ack(t: Tables, k: Key): Tables {
    if k in t.rows && t.rows[k].status.Pending? then t.(rows := t.rows[k := t.rows[k].(status := Accepted)]) else t
  }

  // ------------------------------------------------------------ reconciliation

  predicate Unfinished(r: Row) { r.status.Pending? || r.status.Accepted? }

  predicate InFlight(t: Tables, w: WorkloadId) {
    exists k :: k in t.rows && t.rows[k].message.workload == w && Unfinished(t.rows[k])
  }

  datatype Verdict = InSync | Suspended | BackingOff | AlreadyInFlight | Unsendable | Triggered

  /** A snapshot row asks for a command at the time of the tick. */
  function SnapshotVerdict(row: Workload, tickNow: int): Verdict {
    if row.suspendedAt.Some? then Suspended
    else if row.nextAttemptAt.Some? && row.nextAttemptAt.value > tickNow then BackingOff
    else if row.desired.ShouldRun? <==> row.observed.Running? then InSync
    else Triggered
  }

  /** One round of the tick's loop: the row comes from the snapshot read when the
      tick began; the in-flight check and the command use the tables as they are now. */
  function ReconcileVerdict(t: Tables, w: WorkloadId, row: Workload, tickNow: int): Verdict {
    var verdict := SnapshotVerdict(row, tickNow);
    if !verdict.Triggered? then verdict
    else if InFlight(t, w) then AlreadyInFlight
    else if !Sendable(t, w) then Unsendable
    else Triggered
  }

  function ReconcileKind(row: Workload): Kind { if row.desired.ShouldRun? then Start else Stop }

  function ReconcileOne(t: Tables, w: WorkloadId, row: Workload, tickNow: int, now: int): Tables {
    if ReconcileVerdict(t, w, row, tickNow).Triggered? then
      SendCommand(t, w, ReconcileKind(row), Reconciler, now).value
    else t
  }

  type Snapshot = map<WorkloadId, Workload>

  function Assigned(t: Tables): Snapshot {
    map w | w in t.workloads && t.workloads[w].owner.Some? :: t.workloads[w]
  }

  /** The loop over the workloads listed, in order. */
  function ReconcileAll(t: Tables, ids: seq<WorkloadId>, rows: Snapshot, tickNow: int): Tables
    requires forall w :: w in ids ==> w in rows
  {
    if ids == [] then t
    else
      var w := ids[|ids| - 1];
      ReconcileOne(ReconcileAll(t, ids[..|ids| - 1], rows, tickNow), w, rows[w], tickNow, tickNow)
  }

  /** The workloads the loop lists as skipped, with its reasons. */
  function SkippedIn(t: Tables, ids: seq<WorkloadId>, rows: Snapshot, tickNow: int): seq<(WorkloadId, Verdict)>
    requires forall w :: w in ids ==> w in rows
  {
    if ids == [] then []
    else
      var w, before := ids[|ids| - 1], ids[..|ids| - 1];
      var verdict := ReconcileVerdict(ReconcileAll(t, before, rows, tickNow), w, rows[w], tickNow);
      SkippedIn(t, before, rows, tickNow) + if verdict.InSync? || verdict.Triggered? then [] else [(w, verdict)]
  }

  function ClearFailure(t: Tables, w: WorkloadId): Tables
    requires w in t.workloads
  {
    t.(workloads := t.workloads[w := t.workloads[w].(attempts := 0, nextAttemptAt := None, suspendedAt := None)])
  }
}
