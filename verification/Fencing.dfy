/** The generation is a fencing token, in every reachable state of the protocol. */
module Fencing {
  import opened Wrappers
  import opened Plane
  import opened Runner
  import opened Fleet

  type Chosen = map<Term, AgentId>

  /** The agent was chosen when the workload reached the generation. */
  predicate Owns(chosen: Chosen, agent: AgentId, w: WorkloadId, generation: nat) {
    Term(w, generation) in chosen && chosen[Term(w, generation)] == agent
  }

  predicate OwnsMessage(chosen: Chosen, m: Message) { Owns(chosen, m.agent, m.workload, m.generation) }

  /** Messages in transit and command rows carry generations of their addressee;
      a workload's owner is the agent chosen for its current generation, and no
      chosen generation is above its workload's. */
  ghost predicate FencedTables(t: Tables, chosen: Chosen) {
    && (forall k :: k in t.transit ==> OwnsMessage(chosen, t.transit[k].message))
    && (forall k :: k in t.rows ==> OwnsMessage(chosen, t.rows[k].message))
    && (forall w :: w in t.workloads && t.workloads[w].owner.Some? ==>
          Owns(chosen, t.workloads[w].owner.value, w, t.workloads[w].generation))
    && (forall x :: x in chosen ==> x.workload in t.workloads && x.generation <= t.workloads[x.workload].generation)
  }

  ghost predicate FencedReports(reports: set<Report>, chosen: Chosen) {
    forall r :: r in reports ==> Owns(chosen, r.agent, r.workload, r.generation)
  }

  /** Agents cache only generations they were chosen for. */
  ghost predicate FencedEntries(entries: map<Slot, Entry>, chosen: Chosen) {
    forall s :: s in entries ==> Owns(chosen, s.agent, s.workload, entries[s].generation)
  }

  ghost predicate Fenced(f: Fleet) {
    && FencedTables(f.tables, f.chosen)
    && FencedEntries(f.entries, f.chosen)
    && FencedReports(f.reports, f.chosen)
    && FencedReports(f.held, f.chosen)
  }

  // ----------------------------------------------------------- table updates

  lemma BuildFenced(t: Tables, chosen: Chosen, m: Message, origin: Origin)
    requires FencedTables(t, chosen) && OwnsMessage(chosen, m)
    ensures FencedTables(Build(t, m, origin), chosen)
  {}

  lemma RecordFenced(t: Tables, chosen: Chosen, k: Key, now: int)
    requires FencedTables(t, chosen) && k in t.transit
    ensures FencedTables(Record(t, k, now), chosen)
  {}

  lemma TransitFenced(t: Tables, chosen: Chosen, k: Key, stage: Stage)
    requires FencedTables(t, chosen)
    ensures FencedTables(Discard(t, k), chosen)
    ensures k in t.transit ==> FencedTables(MoveTo(t, k, stage), chosen)
  {}

  lemma OutcomeFenced(t: Tables, chosen: Chosen, k: Key, succeeded: bool, now: int)
    requires FencedTables(t, chosen)
    ensures FencedTables(MarkOutcome(t, k, succeeded, now), chosen)
    ensures FencedTables(Ack(t, k), chosen)
  {}

  lemma RowFenced(t: Tables, chosen: Chosen, w: WorkloadId, desired: Desired)
    requires FencedTables(t, chosen) && w in t.workloads
    ensures FencedTables(SetDesired(t, w, desired), chosen)
    ensures FencedTables(ClearFailure(t, w), chosen)
  {}

  lemma ReconcileFenced(t: Tables, chosen: Chosen, w: WorkloadId, row: Workload, tickNow: int, now: int)
    requires FencedTables(t, chosen)
    ensures FencedTables(ReconcileOne(t, w, row, tickNow, now), chosen)
  {}

  /** A new generation is a new term: nobody else was ever chosen for it. */
  lemma AssignFenced(t: Tables, chosen: Chosen, w: WorkloadId, agent: AgentId)
    requires FencedTables(t, chosen) && w in t.workloads
    ensures var next := Term(w, t.workloads[w].generation + 1);
            next !in chosen && FencedTables(AssignUpdate(t, w, agent), chosen[next := agent])
  {}

  lemma CreateFenced(t: Tables, chosen: Chosen, w: WorkloadId, customer: CustomerId, spec: Spec)
    requires FencedTables(t, chosen) && w !in t.workloads
    ensures FencedTables(CreateRow(t, w, customer, spec), chosen)
  {}

  // ------------------------------------------------------------ other updates

  lemma CommandFenced(t: Tables, chosen: Chosen, w: WorkloadId, kind: Kind)
    requires FencedTables(t, chosen) && Sendable(t, w)
    ensures OwnsMessage(chosen, CommandFor(t, w, kind))
  {}

  lemma ReportFenced(reports: set<Report>, chosen: Chosen, r: Report)
    requires FencedReports(reports, chosen)
    ensures r in reports ==> OwnsMessage(chosen, FenceStop(r))
    ensures Owns(chosen, r.agent, r.workload, r.generation) ==> FencedReports(reports + {r}, chosen)
    ensures FencedReports(reports - {r}, chosen)
  {}

  lemma EntryFenced(entries: map<Slot, Entry>, chosen: Chosen, s: Slot, e: Entry)
    requires FencedEntries(entries, chosen)
    ensures s in entries ==> Owns(chosen, s.agent, s.workload, entries[s].generation)
    ensures Owns(chosen, s.agent, s.workload, e.generation) ==> FencedEntries(entries[s := e], chosen)
  {}

  lemma ChosenGrows(f: Fleet, next: Term, agent: AgentId)
    requires Fenced(f) && next !in f.chosen
    ensures var chosen := f.chosen[next := agent];
            FencedEntries(f.entries, chosen) && FencedReports(f.reports, chosen) && FencedReports(f.held, chosen)
  {
    hide FencedTables;
  }

  lemma ExecuteFenced(f: Fleet, k: Key)
    requires Fenced(f) && k in f.tables.transit
    ensures Fenced(Executed(f, k))
  {
    hide FencedEntries, Execute, Discard, FencedReports;
    TransitFenced(f.tables, f.chosen, k, Sent);
    var m := f.tables.transit[k].message;
    var slot := Slot(m.agent, m.workload);
    assert OwnsMessage(f.chosen, m);
    ExecuteGeneration(EntryAt(f, slot), m.kind, m.generation);
    var after := Execute(EntryAt(f, slot), m.kind, m.generation).0;
    if after.Some? {
      EntryFenced(f.entries, f.chosen, slot, after.value);
    }
  }

  // ------------------------------------------------------------ every step

  lemma CallKeepsFenced(f: Fleet, c: Call)
    requires Fenced(f) && CallEnabled(f, c)
    ensures Fenced(ApplyCall(f, c))
  {
    hide Build, Record, MoveTo, SetDesired, ClearFailure, AssignUpdate, CreateRow;
    hide FencedTables, FencedEntries, FencedReports, OwnsMessage;
    var t, chosen := f.tables, f.chosen;
    match c
    case Create(w, customer, spec) => CreateFenced(t, chosen, w, customer, spec);
    case Assign(w, a) =>
      AssignFenced(t, chosen, w, a);
      ChosenGrows(f, Term(w, t.workloads[w].generation + 1), a);
    case ReadForSend(w, kind) =>
      CommandFenced(t, chosen, w, kind);
      BuildFenced(t, chosen, CommandFor(t, w, kind), Admin);
    case RecordRow(k) => RecordFenced(t, chosen, k, f.clock);
    case EnqueueJob(k) => TransitFenced(t, chosen, k, Queued);
    case WriteDesired(k) => RowFenced(t, chosen, t.rows[k].message.workload, DesiredAfter(t.rows[k].message.kind));
    case ReceiveReport(r) =>
      ReportFenced(f.reports, chosen, r);
      if Stale(t, r) {
        BuildFenced(t, chosen, FenceStop(r), Origin.Fencing);
      }
    case HoldForDrain(w) =>
      CommandFenced(t, chosen, w, Start);
      OwnsCommand(t, chosen, w);
      ReportFenced(f.held, chosen, Report(t.workloads[w].owner.value, w, t.workloads[w].generation));
    case StopHeld(r) =>
      ReportFenced(f.held, chosen, r);
      BuildFenced(t, chosen, FenceStop(r), Draining);
    case Clear(w) => RowFenced(t, chosen, w, ShouldStop);
  }

  lemma DeliveryKeepsFenced(f: Fleet, d: Delivery)
    requires Fenced(f) && DeliveryEnabled(f, d)
    ensures Fenced(ApplyDelivery(f, d))
  {
    hide MoveTo, Discard, MarkOutcome, Ack, Executed;
    hide FencedTables, FencedEntries, FencedReports, OwnsMessage;
    var t, chosen := f.tables, f.chosen;
    match d
    case Deliver(k) => TransitFenced(t, chosen, k, Sent);
    case FailDispatch(k) =>
      TransitFenced(t, chosen, k, Sent);
      OutcomeFenced(Discard(t, k), chosen, k, false, f.clock);
    case LoseSent(k) => TransitFenced(t, chosen, k, Sent);
    case ExecuteSent(k) => ExecuteFenced(f, k);
    case ReceiveAck(k) => OutcomeFenced(t, chosen, k, false, f.clock);
    case ReceiveResult(k) => OutcomeFenced(t, chosen, k, f.results[k], f.clock);
    case _ =>
  }

  lemma EventKeepsFenced(f: Fleet, e: AgentEvent)
    requires Fenced(f) && EventEnabled(f, e)
    ensures Fenced(ApplyEvent(f, e))
  {
    hide FencedTables, FencedEntries, FencedReports, OwnsMessage;
    var t, chosen := f.tables, f.chosen;
    match e
    case Exit(slot) => EntryFenced(f.entries, chosen, slot, f.entries[slot].(running := false));
    case ReportRunning(slot) =>
      EntryFenced(f.entries, chosen, slot, f.entries[slot]);
      ReportFenced(f.reports, chosen, Report(slot.agent, slot.workload, f.entries[slot].generation));
    case _ =>
  }

  lemma TickKeepsFenced(f: Fleet, p: TickPart)
    requires Fenced(f) && TickEnabled(f, p)
    ensures Fenced(ApplyTick(f, p))
  {
    hide ReconcileOne, Assigned;
    hide FencedTables, FencedEntries, FencedReports, OwnsMessage;
    var t, chosen := f.tables, f.chosen;
    match p
    case TickBody(w) => ReconcileFenced(t, chosen, w, f.tick.value.rows[w], f.tick.value.now, f.clock);
    case _ =>
  }

  lemma StepKeepsFenced(f: Fleet, s: Step)
    requires Fenced(f) && Enabled(f, s)
    ensures Fenced(Apply(f, s))
  {
    hide Fenced, CallEnabled, DeliveryEnabled, EventEnabled, TickEnabled, ApplyCall, ApplyDelivery, ApplyEvent, ApplyTick;
    match s
    case Control(c) => CallKeepsFenced(f, c);
    case Network(d) => DeliveryKeepsFenced(f, d);
    case AgentSide(e) => EventKeepsFenced(f, e);
    case Reconciling(p) => TickKeepsFenced(f, p);
  }

  lemma OwnsCommand(t: Tables, chosen: Chosen, w: WorkloadId)
    requires Sendable(t, w) && OwnsMessage(chosen, CommandFor(t, w, Start))
    ensures Owns(chosen, t.workloads[w].owner.value, w, t.workloads[w].generation)
  {}

  /** Over every run from the empty system: whatever carries generation g for
      workload w belongs to the agent chosen when w reached g, and g is at most
      w's current generation. Drain and fence stops at old generations included. */
  lemma {:induction false} ReachableIsFenced(f: Fleet, steps: seq<Step>)
    requires Fenced(f) && Runs(f, steps)
    ensures Fenced(End(f, steps))
    decreases |steps|
  {
    hide Fenced, Enabled, Apply;
    if steps != [] {
      StepKeepsFenced(f, steps[0]);
      ReachableIsFenced(Apply(f, steps[0]), steps[1..]);
    }
  }

  /** Two agents never hold the same generation of a workload. */
  lemma GenerationNamesOneAgent(f: Fleet, s: Slot, x: Slot)
    requires Fenced(f) && s in f.entries && x in f.entries && s.workload == x.workload
    requires f.entries[s].generation == f.entries[x].generation
    ensures s == x
  {}

  /** An agent whose cached generation is the current one is the owner. */
  lemma CurrentGenerationIsOwner(f: Fleet, s: Slot)
    requires Fenced(f) && s in f.entries
    ensures s.workload in f.tables.workloads
    ensures var w := f.tables.workloads[s.workload];
            && f.entries[s].generation <= w.generation
            && (w.owner.Some? && f.entries[s].generation == w.generation ==> w.owner == Some(s.agent))
  {
    assert Owns(f.chosen, s.agent, s.workload, f.entries[s].generation);
  }
}
