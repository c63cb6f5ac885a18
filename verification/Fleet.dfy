/** The workload ownership protocol as a step system: control-plane calls, the
    queue and sockets, agents, inventories, drains and the reconciliation tick,
    interleaved in any order. A call that reads a row and later writes or sends
    something is split at those points. */
module Fleet {
  import opened Wrappers
  import opened Plane
  import opened Runner

  datatype Slot = Slot(agent: AgentId, workload: WorkloadId)

  datatype Term = Term(workload: WorkloadId, generation: nat)

  /** A tick in progress holds the lock, the time and rows it read when it began,
      and the workloads its loop has not visited. */
  datatype Tick = Tick(now: int, rows: Snapshot, todo: set<WorkloadId>)

  /** Inventory entries and acks, once sent, may arrive any number of times or
      never. A held entry is the row a running drain read before reassigning.
      chosen is the record of assignments (the workload.assign audit entries):
      which agent was chosen when a workload reached a generation. */
  datatype Fleet = Fleet(
    clock: int, tables: Tables, connected: set<AgentId>,
    acks: set<Key>, results: map<Key, bool>,
    entries: map<Slot, Entry>, reports: set<Report>, held: set<Report>,
    tick: Option<Tick>, chosen: map<Term, AgentId>)

  /** Pieces of control-plane calls, between which anything can happen. */
  datatype Call =
    | Create(workload: WorkloadId, customer: CustomerId, spec: Spec)
    | Assign(workload: WorkloadId, agent: AgentId)
    | ReadForSend(workload: WorkloadId, kind: Kind)
    | RecordRow(key: Key)
    | EnqueueJob(key: Key)
    | WriteDesired(key: Key)
    | ReceiveReport(report: Report)
    | HoldForDrain(workload: WorkloadId)
    | StopHeld(report: Report)
    | Clear(workload: WorkloadId)

  /** What happens to a command after it is queued, and to its ack and result. */
  datatype Delivery =
    | Deliver(key: Key)
    | FailDispatch(key: Key)
    | LoseSent(key: Key)
    | ExecuteSent(key: Key)
    | ReceiveAck(key: Key)
    | ReceiveResult(key: Key)
    | LoseResult(key: Key)

  datatype AgentEvent =
    | Elapse(ms: nat)
    | Connect(agent: AgentId)
    | Disconnect(agent: AgentId)
    | Exit(slot: Slot)
    | ReportRunning(slot: Slot)

  datatype TickPart = BeginTick | TickBody(workload: WorkloadId) | EndTick

  datatype Step = Control(call: Call) | Network(delivery: Delivery) | AgentSide(event: AgentEvent) | Reconciling(part: TickPart)

  function Init(agents: seq<AgentRow>, clock: int): Fleet {
    Fleet(clock, Tables(agents, map[], map[], map[], 0), {}, {}, map[], map[], {}, {}, None, map[])
  }

  predicate At(f: Fleet, k: Key, stage: Stage) { k in f.tables.transit && f.tables.transit[k].stage == stage }

  function EntryAt(f: Fleet, s: Slot): Option<Entry> { if s in f.entries then Some(f.entries[s]) else None }

  predicate CallEnabled(f: Fleet, c: Call) {
    var t := f.tables;
    match c
    case Create(w, _, spec) => w !in t.workloads && spec.valid
    case Assign(w, a) => w in t.workloads && HasAgent(t, a)
    case ReadForSend(w, kind) => Sendable(t, w) && !kind.Update?
    case RecordRow(k) => At(f, k, Built)
    case EnqueueJob(k) => At(f, k, Recorded)
    case WriteDesired(k) =>
      k in t.rows && t.rows[k].origin.Admin? && !t.rows[k].message.kind.Update? && t.rows[k].message.workload in t.workloads
    case ReceiveReport(r) => r in f.reports
    case HoldForDrain(w) => Sendable(t, w)
    case StopHeld(r) => r in f.held
    case Clear(w) => w in t.workloads
  }

  predicate DeliveryEnabled(f: Fleet, d: Delivery) {
    match d
    case Deliver(k) => At(f, k, Queued) && f.tables.transit[k].message.agent in f.connected
    case FailDispatch(k) => At(f, k, Queued) && f.tables.transit[k].message.agent !in f.connected
    case LoseSent(k) => At(f, k, Sent)
    case ExecuteSent(k) => At(f, k, Sent)
    case ReceiveAck(k) => k in f.acks
    case ReceiveResult(k) => k in f.results
    case LoseResult(k) => k in f.results
  }

  predicate EventEnabled(f: Fleet, e: AgentEvent) {
    match e
    case Exit(slot) => slot in f.entries && f.entries[slot].running
    case ReportRunning(slot) => slot in f.entries && f.entries[slot].running && slot.agent in f.connected
    case _ => true
  }

  predicate TickEnabled(f: Fleet, p: TickPart) {
    match p
    case BeginTick => f.tick.None?
    case TickBody(w) => f.tick.Some? && w in f.tick.value.todo && w in f.tick.value.rows
    case EndTick => f.tick.Some?
  }

  predicate Enabled(f: Fleet, s: Step) {
    match s
    case Control(c) => CallEnabled(f, c)
    case Network(d) => DeliveryEnabled(f, d)
    case AgentSide(e) => EventEnabled(f, e)
    case Reconciling(p) => TickEnabled(f, p)
  }

  function Executed(f: Fleet, k: Key): Fleet
    requires k in f.tables.transit
  {
    var m := f.tables.transit[k].message;
    var slot := Slot(m.agent, m.workload);
    var (entry, ok) := Execute(EntryAt(f, slot), m.kind, m.generation);
    f.(tables := Discard(f.tables, k),
       entries := if entry.Some? then f.entries[slot := entry.value] else f.entries,
       acks := f.acks + {k}, results := f.results[k := ok])
  }

  function ApplyCall(f: Fleet, c: Call): Fleet
    requires CallEnabled(f, c)
  {
    var t := f.tables;
    match c
    case Create(w, customer, spec) => f.(tables := CreateRow(t, w, customer, spec))
    case Assign(w, a) =>
      f.(tables := AssignUpdate(t, w, a), chosen := f.chosen[Term(w, t.workloads[w].generation + 1) := a])
    case ReadForSend(w, kind) => f.(tables := Build(t, CommandFor(t, w, kind), Admin))
    case RecordRow(k) => f.(tables := Record(t, k, f.clock))
    case EnqueueJob(k) => f.(tables := MoveTo(t, k, Queued))
    case WriteDesired(k) =>
      f.(tables := SetDesired(t, t.rows[k].message.workload, DesiredAfter(t.rows[k].message.kind)))
    case ReceiveReport(r) => if Stale(t, r) then f.(tables := Build(t, FenceStop(r), Fencing)) else f
    case HoldForDrain(w) => f.(held := f.held + {Report(t.workloads[w].owner.value, w, t.workloads[w].generation)})
    case StopHeld(r) => f.(tables := Build(t, FenceStop(r), Draining), held := f.held - {r})
    case Clear(w) => f.(tables := ClearFailure(t, w))
  }

  function ApplyDelivery(f: Fleet, d: Delivery): Fleet
    requires DeliveryEnabled(f, d)
  {
    var t := f.tables;
    match d
    case Deliver(k) => f.(tables := MoveTo(t, k, Sent))
    case FailDispatch(k) => f.(tables := MarkOutcome(Discard(t, k), k, false, f.clock))
    case LoseSent(k) => f.(tables := Discard(t, k))
    case ExecuteSent(k) => Executed(f, k)
    case ReceiveAck(k) => f.(tables := Ack(t, k))
    case ReceiveResult(k) => f.(tables := MarkOutcome(t, k, f.results[k], f.clock), results := f.results - {k})
    case LoseResult(k) => f.(results := f.results - {k})
  }

  function ApplyEvent(f: Fleet, e: AgentEvent): Fleet
    requires EventEnabled(f, e)
  {
    match e
    case Elapse(ms) => f.(clock := f.clock + ms)
    case Connect(a) => f.(connected := f.connected + {a})
    case Disconnect(a) => f.(connected := f.connected - {a})
    case Exit(slot) => f.(entries := f.entries[slot := f.entries[slot].(running := false)])
    case ReportRunning(slot) =>
      f.(reports := f.reports + {Report(slot.agent, slot.workload, f.entries[slot].generation)})
  }

  function ApplyTick(f: Fleet, p: TickPart): Fleet
    requires TickEnabled(f, p)
  {
    var t := f.tables;
    match p
    case BeginTick => f.(tick := Some(Tick(f.clock, Assigned(t), Assigned(t).Keys)))
    case TickBody(w) =>
      var tick := f.tick.value;
      f.(tables := ReconcileOne(t, w, tick.rows[w], tick.now, f.clock), tick := Some(tick.(todo := tick.todo - {w})))
    case EndTick => f.(tick := None)
  }

  function Apply(f: Fleet, s: Step): Fleet
    requires Enabled(f, s)
  {
    match s
    case Control(c) => ApplyCall(f, c)
    case Network(d) => ApplyDelivery(f, d)
    case AgentSide(e) => ApplyEvent(f, e)
    case Reconciling(p) => ApplyTick(f, p)
  }

  /** A run: every step is enabled when it is taken. */
  predicate Runs(f: Fleet, steps: seq<Step>)
    decreases |steps|
  {
    steps == [] || (Enabled(f, steps[0]) && Runs(Apply(f, steps[0]), steps[1..]))
  }

  function End(f: Fleet, steps: seq<Step>): Fleet
    requires Runs(f, steps)
    decreases |steps|
  {
    if steps == [] then f else End(Apply(f, steps[0]), steps[1..])
  }

  lemma NoSteps(f: Fleet)
    ensures Runs(f, []) && End(f, []) == f
  {}

  lemma Chain(f: Fleet, s: Step, rest: seq<Step>)
    requires Enabled(f, s) && Runs(Apply(f, s), rest)
    ensures Runs(f, [s] + rest) && End(f, [s] + rest) == End(Apply(f, s), rest)
  {
    hide Enabled, Apply;
    assert ([s] + rest)[1..] == rest;
  }

  lemma Alone(f: Fleet, s: Step)
    requires Enabled(f, s)
    ensures Runs(f, [s]) && End(f, [s]) == Apply(f, s)
  {
    hide Enabled, Apply;
    NoSteps(Apply(f, s));
    Chain(f, s, []);
    assert [s] + [] == [s];
  }

  lemma Two(f: Fleet, s0: Step, s1: Step)
    requires Enabled(f, s0) && Enabled(Apply(f, s0), s1)
    ensures Runs(f, [s0, s1]) && End(f, [s0, s1]) == Apply(Apply(f, s0), s1)
  {
    hide Enabled, Apply;
    var g := Apply(f, s0);
    NoSteps(Apply(g, s1));
    Chain(g, s1, []);
    Chain(f, s0, [s1] + []);
    assert [s0, s1] == [s0] + ([s1] + []);
  }

  lemma ThreeSteps(f: Fleet, s0: Step, g: Fleet, s1: Step, h: Fleet, s2: Step)
    requires Enabled(f, s0) && Apply(f, s0) == g && Enabled(g, s1) && Apply(g, s1) == h && Enabled(h, s2)
    ensures Runs(f, [s0, s1, s2]) && End(f, [s0, s1, s2]) == Apply(h, s2)
  {
    hide Enabled, Apply;
    var last := Apply(h, s2);
    NoSteps(last);
    Chain(h, s2, []);
    Chain(g, s1, [s2] + []);
    Chain(f, s0, [s1] + ([s2] + []));
    assert [s0, s1, s2] == [s0] + ([s1] + ([s2] + []));
  }

  lemma {:induction false} RunsConcat(f: Fleet, x: seq<Step>, y: seq<Step>)
    requires Runs(f, x) && Runs(End(f, x), y)
    ensures Runs(f, x + y) && End(f, x + y) == End(End(f, x), y)
    decreases |x|
  {
    if x == [] {
      assert x + y == y;
    } else {
      hide Enabled, Apply;
      RunsConcat(Apply(f, x[0]), x[1..], y);
      assert (x + y)[1..] == x[1..] + y;
    }
  }
}
