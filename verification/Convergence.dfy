/** Split brain heals: while a workload is not reassigned, what could still start or
    keep it running on an agent that does not own it only ever shrinks. */
module Convergence {
  import opened Wrappers
  import opened Plane
  import opened Runner
  import opened Fleet
  import opened Fencing
  import opened Outcomes
  import opened Confirmation

  function OwnerOf(t: Tables, w: WorkloadId): Option<AgentId> {
    if w in t.workloads then t.workloads[w].owner else None
  }

  predicate Starts(kind: Kind) { kind.Start? || kind.Restart? }

  predicate StaleStart(t: Tables, k: Key, w: WorkloadId) {
    && k in t.transit && t.transit[k].message.workload == w && Starts(t.transit[k].message.kind)
    && OwnerOf(t, w) != Some(t.transit[k].message.agent)
  }

  predicate StaleRunner(f: Fleet, s: Slot, w: WorkloadId) {
    s in f.entries && s.workload == w && f.entries[s].running && OwnerOf(f.tables, w) != Some(s.agent)
  }

  /** Starts and restarts of w on their way to agents that do not own it. */
  function StaleStarts(t: Tables, w: WorkloadId): set<Key> { set k | k in t.transit && StaleStart(t, k, w) }

  /** Agents that run w without owning it. */
  function StaleRunners(f: Fleet, w: WorkloadId): set<Slot> { set s | s in f.entries && StaleRunner(f, s, w) }

  /** How far w is from having no runner but its owner. */
  function Divergence(f: Fleet, w: WorkloadId): nat { 2 * |StaleStarts(f.tables, w)| + |StaleRunners(f, w)| }

  predicate Assigns(s: Step, w: WorkloadId) { s.Control? && s.call.Assign? && s.call.workload == w }

  /** The step takes the command out of transit for good. */
  predicate Consumes(s: Step, k: Key) {
    s == Network(FailDispatch(k)) || s == Network(LoseSent(k)) || s == Network(ExecuteSent(k))
  }

  /** The stale start that the step executes, loses or fails to dispatch. */
  function ConsumedStart(f: Fleet, s: Step, w: WorkloadId): set<Key> {
    if s.Network? && Consumes(s, s.delivery.key) && StaleStart(f.tables, s.delivery.key, w) then {s.delivery.key} else {}
  }

  predicate Executes(f: Fleet, s: Step, x: Slot) {
    && s.Network? && s.delivery.ExecuteSent? && s.delivery.key in f.tables.transit
    && Slot(f.tables.transit[s.delivery.key].message.agent, f.tables.transit[s.delivery.key].message.workload) == x
  }

  /** The stale runner that exits or executes a stop in the step. */
  function StoppedRunner(f: Fleet, s: Step, w: WorkloadId): set<Slot> {
    set x | x in f.entries && StaleRunner(f, x, w)
            && (s == AgentSide(Exit(x)) || (Executes(f, s, x) && f.tables.transit[s.delivery.key].message.kind.Stop?))
  }

  /** The steps that bring w closer: a stale start is executed, lost or fails to be
      dispatched; a stale runner exits, or executes a stop. */
  predicate Heals(f: Fleet, s: Step, w: WorkloadId) { ConsumedStart(f, s, w) != {} || StoppedRunner(f, s, w) != {} }

  lemma {:induction false} SubsetSize<T>(a: set<T>, b: set<T>)
    requires a <= b
    ensures |a| <= |b|
    decreases a
  {
    if a != {} {
      var x :| x in a;
      SubsetSize(a - {x}, b - {x});
    }
  }

  // ------------------------------------------------- what a step can add

  /** No step but an assignment of w changes w's owner. */
  lemma OwnerStays(f: Fleet, s: Step, w: WorkloadId)
    requires Enabled(f, s) && !Assigns(s, w)
    ensures OwnerOf(Apply(f, s).tables, w) == OwnerOf(f.tables, w)
  {
    hide Enabled, Apply, OutcomeFor;
    if w in f.tables.workloads {
      StepOnRow(f, s, w);
    } else if w in Apply(f, s).tables.workloads {
      NewRowIsCreated(f, s, w);
    }
  }

  lemma CallAddsNoStaleStart(f: Fleet, c: Call, k: Key, w: WorkloadId)
    requires CallEnabled(f, c) && !Assigns(Control(c), w) && Tokens(f) && StaleStart(ApplyCall(f, c).tables, k, w)
    ensures StaleStart(f.tables, k, w)
  {}

  lemma DeliveryAddsNoStaleStart(f: Fleet, d: Delivery, k: Key, w: WorkloadId)
    requires DeliveryEnabled(f, d) && StaleStart(ApplyDelivery(f, d).tables, k, w)
    requires OwnerOf(ApplyDelivery(f, d).tables, w) == OwnerOf(f.tables, w)
    ensures StaleStart(f.tables, k, w) && !Consumes(Network(d), k)
  {}

  lemma TickAddsNoStaleStart(f: Fleet, p: TickPart, k: Key, w: WorkloadId)
    requires TickEnabled(f, p) && Tokens(f) && StaleStart(ApplyTick(f, p).tables, k, w)
    ensures StaleStart(f.tables, k, w)
  {
    hide InFlight, SnapshotVerdict, Assigned;
  }

  /** Commands are only ever sent to the owner of the moment, and fence and drain
      stops start nothing. */
  lemma NoNewStaleStart(f: Fleet, s: Step, k: Key, w: WorkloadId)
    requires Tokens(f) && Enabled(f, s) && !Assigns(s, w) && StaleStart(Apply(f, s).tables, k, w)
    ensures StaleStart(f.tables, k, w) && !Consumes(s, k)
  {
    hide Tokens, CallEnabled, DeliveryEnabled, EventEnabled, TickEnabled;
    hide ApplyCall, ApplyDelivery, ApplyEvent, ApplyTick, StaleStart, OwnerOf, Assigns;
    match s
    case Control(c) => CallAddsNoStaleStart(f, c, k, w);
    case Network(d) =>
      OwnerStays(f, s, w);
      DeliveryAddsNoStaleStart(f, d, k, w);
    case AgentSide(e) => EventKeepsTables(f, e);
    case Reconciling(p) => TickAddsNoStaleStart(f, p, k, w);
  }

  lemma EventKeepsTables(f: Fleet, e: AgentEvent)
    requires EventEnabled(f, e)
    ensures ApplyEvent(f, e).tables == f.tables
  {}

  /** Only the execution of a start or restart can set a process running. */
  lemma ExecuteRuns(e: Option<Entry>, kind: Kind, generation: nat)
    ensures var after := Execute(e, kind, generation).0;
            && (after.Some? && after.value.running ==> Starts(kind) || (e.Some? && e.value.running))
            && (kind.Stop? && after.Some? ==> !after.value.running)
            && (e.Some? ==> after.Some?)
  {}

  lemma NewRunner(f: Fleet, s: Step, x: Slot)
    requires Enabled(f, s) && x in Apply(f, s).entries && Apply(f, s).entries[x].running
    ensures if Executes(f, s, x) then
              var kind := f.tables.transit[s.delivery.key].message.kind;
              !kind.Stop? && (Starts(kind) || (x in f.entries && f.entries[x].running))
            else x in f.entries && f.entries[x].running && s != AgentSide(Exit(x))
  {
    hide CallEnabled, Execute, MarkOutcome, ReconcileOne, Build, Record, AssignUpdate;
    if s.Network? && s.delivery.ExecuteSent? {
      var m := f.tables.transit[s.delivery.key].message;
      ExecuteRuns(EntryAt(f, Slot(m.agent, m.workload)), m.kind, m.generation);
    }
  }

  // -------------------------------------------------------------- every step

  lemma StartsShrink(f: Fleet, s: Step, w: WorkloadId)
    requires Tokens(f) && Enabled(f, s) && !Assigns(s, w)
    ensures ConsumedStart(f, s, w) <= StaleStarts(f.tables, w)
    ensures StaleStarts(Apply(f, s).tables, w) <= StaleStarts(f.tables, w) - ConsumedStart(f, s, w)
  {
    hide Tokens, Enabled, Apply, Assigns;
    forall k | k in StaleStarts(Apply(f, s).tables, w) ensures k in StaleStarts(f.tables, w) && !Consumes(s, k) {
      NoNewStaleStart(f, s, k, w);
    }
  }

  lemma OldRunner(f: Fleet, s: Step, x: Slot, w: WorkloadId)
    requires Enabled(f, s) && !Assigns(s, w) && StaleRunner(Apply(f, s), x, w)
    ensures if Executes(f, s, x) && ConsumedStart(f, s, w) != {} then true
            else StaleRunner(f, x, w) && x !in StoppedRunner(f, s, w)
  {
    hide Enabled, Apply;
    OwnerStays(f, s, w);
    NewRunner(f, s, x);
  }

  /** The runner that a stale start leaves behind when it is executed. */
  function StartedRunner(f: Fleet, s: Step, w: WorkloadId): set<Slot> {
    set k | k in f.tables.transit && k in ConsumedStart(f, s, w) :: Slot(f.tables.transit[k].message.agent, w)
  }

  lemma RunnersShrink(f: Fleet, s: Step, w: WorkloadId)
    requires Enabled(f, s) && !Assigns(s, w)
    ensures StoppedRunner(f, s, w) <= StaleRunners(f, w)
    ensures StaleRunners(Apply(f, s), w) <= StaleRunners(f, w) - StoppedRunner(f, s, w) + StartedRunner(f, s, w)
    ensures |StartedRunner(f, s, w)| <= |ConsumedStart(f, s, w)|
  {
    hide Enabled, Apply, Assigns, OwnerOf;
    forall x | x in StaleRunners(Apply(f, s), w)
      ensures x in StaleRunners(f, w) - StoppedRunner(f, s, w) + StartedRunner(f, s, w)
    {
      OldRunner(f, s, x, w);
    }
    if ConsumedStart(f, s, w) == {} {
      assert StartedRunner(f, s, w) == {};
    } else {
      var k := s.delivery.key;
      assert StartedRunner(f, s, w) == {Slot(f.tables.transit[k].message.agent, w)};
    }
  }

  /** While w is not reassigned no step lets it diverge further, and every healing
      step brings it closer. */
  lemma DivergenceNeverRises(f: Fleet, s: Step, w: WorkloadId)
    requires Tokens(f) && Enabled(f, s) && !Assigns(s, w)
    ensures Divergence(Apply(f, s), w) + (if Heals(f, s, w) then 1 else 0) <= Divergence(f, w)
  {
    hide Tokens, Enabled, Apply, Assigns, StaleStarts, StaleRunners, ConsumedStart, StoppedRunner, StartedRunner;
    StartsShrink(f, s, w);
    RunnersShrink(f, s, w);
    var starts, runners := StaleStarts(f.tables, w), StaleRunners(f, w);
    SubsetSize(StaleStarts(Apply(f, s).tables, w), starts - ConsumedStart(f, s, w));
    SubsetSize(StaleRunners(Apply(f, s), w), runners - StoppedRunner(f, s, w) + StartedRunner(f, s, w));
  }

  // --------------------------------------------------------------- over runs

  /** No step of the run reassigns w. */
  predicate Unassigned(steps: seq<Step>, w: WorkloadId) {
    forall i :: 0 <= i < |steps| ==> !Assigns(steps[i], w)
  }

  function HealingSteps(f: Fleet, steps: seq<Step>, w: WorkloadId): nat
    requires Runs(f, steps)
    decreases |steps|
  {
    if steps == [] then 0
    else (if Heals(f, steps[0], w) then 1 else 0) + HealingSteps(Apply(f, steps[0]), steps[1..], w)
  }

  /** Over every run that does not reassign w, its divergence ends at least as many
      below its start as there were healing steps; so there are only so many. */
  lemma {:induction false} RunsConverge(f: Fleet, steps: seq<Step>, w: WorkloadId)
    requires Tokens(f) && Runs(f, steps) && Unassigned(steps, w)
    ensures Divergence(End(f, steps), w) + HealingSteps(f, steps, w) <= Divergence(f, w)
    decreases |steps|
  {
    hide Tokens, Enabled, Apply, Assigns, Divergence, Heals;
    if steps != [] {
      assert !Assigns(steps[0], w);
      DivergenceNeverRises(f, steps[0], w);
      StepKeepsTokens(f, steps[0]);
      RunsConverge(Apply(f, steps[0]), steps[1..], w);
    }
  }

  /** Nobody but w's owner runs it, or is about to be told to. */
  predicate OnlyOwner(f: Fleet, w: WorkloadId) {
    && (forall x :: x in f.entries && x.workload == w && f.entries[x].running ==> OwnerOf(f.tables, w) == Some(x.agent))
    && (forall k :: k in f.tables.transit && f.tables.transit[k].message.workload == w && Starts(f.tables.transit[k].message.kind)
          ==> OwnerOf(f.tables, w) == Some(f.tables.transit[k].message.agent))
  }

  /** Zero divergence is exactly that. */
  lemma ConvergedIffOnlyOwner(f: Fleet, w: WorkloadId)
    ensures Divergence(f, w) == 0 <==> OnlyOwner(f, w)
  {
    if Divergence(f, w) == 0 {
      forall x | x in f.entries && x.workload == w && f.entries[x].running ensures OwnerOf(f.tables, w) == Some(x.agent) {
        assert x !in StaleRunners(f, w);
      }
      forall k | k in f.tables.transit && f.tables.transit[k].message.workload == w && Starts(f.tables.transit[k].message.kind)
        ensures OwnerOf(f.tables, w) == Some(f.tables.transit[k].message.agent)
      {
        assert k !in StaleStarts(f.tables, w);
      }
    }
    if OnlyOwner(f, w) {
      assert StaleStarts(f.tables, w) == {} && StaleRunners(f, w) == {};
    }
  }

  /** Once only the owner runs w, only the owner does, until w is reassigned. */
  lemma OnlyOwnerStays(f: Fleet, steps: seq<Step>, w: WorkloadId)
    requires Tokens(f) && Runs(f, steps) && Unassigned(steps, w) && OnlyOwner(f, w)
    ensures OnlyOwner(End(f, steps), w)
  {
    hide Tokens, Runs, End, Divergence, OnlyOwner, HealingSteps;
    ConvergedIffOnlyOwner(f, w);
    RunsConverge(f, steps, w);
    ConvergedIffOnlyOwner(End(f, steps), w);
  }

  // ----------------------------------------------------- convergence happens

  /** A run that does not reassign w and has at least n healing steps. */
  ghost predicate HealsBy(f: Fleet, steps: seq<Step>, w: WorkloadId, n: nat) {
    Runs(f, steps) && Unassigned(steps, w) && HealingSteps(f, steps, w) >= n
  }

  lemma Then(f: Fleet, s: Step, rest: seq<Step>, w: WorkloadId, n: nat)
    requires Enabled(f, s) && !Assigns(s, w) && HealsBy(Apply(f, s), rest, w, n)
    ensures HealsBy(f, [s] + rest, w, n)
    ensures Heals(f, s, w) ==> HealsBy(f, [s] + rest, w, n + 1)
  {
    hide Enabled, Apply, Heals, Assigns;
    assert ([s] + rest)[1..] == rest;
  }

  lemma HealsByNothing(f: Fleet, w: WorkloadId)
    ensures HealsBy(f, [], w, 0)
  {}

  /** A stale start goes on to be executed, or fails to be dispatched. */
  lemma {:induction false} StaleStartRunsOut(f: Fleet, k: Key, w: WorkloadId) returns (steps: seq<Step>)
    requires StaleStart(f.tables, k, w)
    ensures HealsBy(f, steps, w, 1)
    decreases match f.tables.transit[k].stage case Built => 3 case Recorded => 2 case Queued => 1 case Sent => 0
  {
    hide Heals, HealsBy, MarkOutcome, Executed;
    var p := f.tables.transit[k];
    match p.stage
    case Built =>
      var rest := StaleStartRunsOut(Apply(f, Control(RecordRow(k))), k, w);
      Then(f, Control(RecordRow(k)), rest, w, 1);
      steps := [Control(RecordRow(k))] + rest;
    case Recorded =>
      var rest := StaleStartRunsOut(Apply(f, Control(EnqueueJob(k))), k, w);
      Then(f, Control(EnqueueJob(k)), rest, w, 1);
      steps := [Control(EnqueueJob(k))] + rest;
    case Queued =>
      if p.message.agent in f.connected {
        var rest := StaleStartRunsOut(Apply(f, Network(Deliver(k))), k, w);
        Then(f, Network(Deliver(k)), rest, w, 1);
        steps := [Network(Deliver(k))] + rest;
      } else {
        HealsByNothing(Apply(f, Network(FailDispatch(k))), w);
        ConsumingHeals(f, Network(FailDispatch(k)), k, w);
        Then(f, Network(FailDispatch(k)), [], w, 0);
        steps := [Network(FailDispatch(k))] + [];
      }
    case Sent =>
      HealsByNothing(Apply(f, Network(ExecuteSent(k))), w);
      ConsumingHeals(f, Network(ExecuteSent(k)), k, w);
      Then(f, Network(ExecuteSent(k)), [], w, 0);
      steps := [Network(ExecuteSent(k))] + [];
  }

  lemma ConsumingHeals(f: Fleet, s: Step, k: Key, w: WorkloadId)
    requires StaleStart(f.tables, k, w) && Consumes(s, k)
    ensures Heals(f, s, w)
  {
    assert k in ConsumedStart(f, s, w);
  }

  /** A stale runner that connects and reports is sent a stop, and executes it. */
  lemma StaleRunnerIsFenced(f: Fleet, x: Slot, w: WorkloadId, k: Key) returns (steps: seq<Step>)
    requires StaleRunner(f, x, w) && w in f.tables.workloads && k == f.tables.nextKey
    ensures HealsBy(f, steps, w, 1)
  {
    hide Heals, HealsBy, StaleRunner;
    var f1 := Apply(f, AgentSide(Connect(x.agent)));
    var f2, r := Reported(f, f1, x, w);
    var f3 := Apply(f2, Control(ReceiveReport(r)));
    StopOnItsWay(f2, f3, x, w, r);
    var rest := StopRunsOut(f3, x, w, k);
    Then(f2, Control(ReceiveReport(r)), rest, w, 1);
    Then(f1, AgentSide(ReportRunning(x)), [Control(ReceiveReport(r))] + rest, w, 1);
    var tail := [AgentSide(ReportRunning(x))] + ([Control(ReceiveReport(r))] + rest);
    Then(f, AgentSide(Connect(x.agent)), tail, w, 1);
    steps := [AgentSide(Connect(x.agent))] + tail;
  }

  lemma Reported(f: Fleet, f1: Fleet, x: Slot, w: WorkloadId) returns (f2: Fleet, r: Report)
    requires StaleRunner(f, x, w) && f1 == Apply(f, AgentSide(Connect(x.agent)))
    ensures Enabled(f1, AgentSide(ReportRunning(x))) && f2 == Apply(f1, AgentSide(ReportRunning(x)))
    ensures r in f2.reports && r.agent == x.agent && r.workload == w
    ensures f2 == f.(connected := f2.connected, reports := f2.reports) && x.agent in f2.connected
    ensures StaleRunner(f2, x, w)
  {
    f2 := Apply(f1, AgentSide(ReportRunning(x)));
    r := Report(x.agent, x.workload, f.entries[x].generation);
  }

  /** A stop of w for the stale runner x is in transit, and x is connected. */
  predicate StopFor(f: Fleet, x: Slot, w: WorkloadId, k: Key) {
    && k in f.tables.transit && f.tables.transit[k].message.kind.Stop? && f.tables.transit[k].message.agent == x.agent
    && f.tables.transit[k].message.workload == w && x.agent in f.connected
  }

  lemma StopOnItsWay(f: Fleet, g: Fleet, x: Slot, w: WorkloadId, r: Report)
    requires StaleRunner(f, x, w) && w in f.tables.workloads && x.agent in f.connected
    requires r in f.reports && r.agent == x.agent && r.workload == w && g == Apply(f, Control(ReceiveReport(r)))
    ensures StaleRunner(g, x, w) && StopFor(g, x, w, f.tables.nextKey)
  {}

  lemma {:induction false} StopRunsOut(f: Fleet, x: Slot, w: WorkloadId, k: Key) returns (steps: seq<Step>)
    requires StaleRunner(f, x, w) && StopFor(f, x, w, k)
    ensures HealsBy(f, steps, w, 1)
    decreases match f.tables.transit[k].stage case Built => 3 case Recorded => 2 case Queued => 1 case Sent => 0
  {
    hide Heals, HealsBy, Executed;
    match f.tables.transit[k].stage
    case Built =>
      var rest := StopRunsOut(Apply(f, Control(RecordRow(k))), x, w, k);
      Then(f, Control(RecordRow(k)), rest, w, 1);
      steps := [Control(RecordRow(k))] + rest;
    case Recorded =>
      var rest := StopRunsOut(Apply(f, Control(EnqueueJob(k))), x, w, k);
      Then(f, Control(EnqueueJob(k)), rest, w, 1);
      steps := [Control(EnqueueJob(k))] + rest;
    case Queued =>
      var rest := StopRunsOut(Apply(f, Network(Deliver(k))), x, w, k);
      Then(f, Network(Deliver(k)), rest, w, 1);
      steps := [Network(Deliver(k))] + rest;
    case Sent =>
      HealsByNothing(Apply(f, Network(ExecuteSent(k))), w);
      StoppingHeals(f, x, w, k);
      Then(f, Network(ExecuteSent(k)), [], w, 0);
      steps := [Network(ExecuteSent(k))] + [];
  }

  lemma StoppingHeals(f: Fleet, x: Slot, w: WorkloadId, k: Key)
    requires StaleRunner(f, x, w) && StopFor(f, x, w, k)
    ensures Heals(f, Network(ExecuteSent(k)), w)
  {
    assert x in StoppedRunner(f, Network(ExecuteSent(k)), w);
  }

  /** In a fenced state a runner's workload exists. */
  lemma RunnerHasWorkload(f: Fleet, x: Slot, w: WorkloadId)
    requires Fenced(f) && StaleRunner(f, x, w)
    ensures w in f.tables.workloads
  {
    CurrentGenerationIsOwner(f, x);
  }

  /** From every sound state whose divergence is not zero a healing run exists. */
  lemma HealingIsPossible(f: Fleet, w: WorkloadId) returns (steps: seq<Step>)
    requires Fenced(f) && !OnlyOwner(f, w)
    ensures HealsBy(f, steps, w, 1)
  {
    hide Fenced, HealsBy, OwnerOf;
    if x :| x in f.entries && StaleRunner(f, x, w) {
      RunnerHasWorkload(f, x, w);
      steps := StaleRunnerIsFenced(f, x, w, f.tables.nextKey);
    } else {
      var k :| k in f.tables.transit && StaleStart(f.tables, k, w);
      steps := StaleStartRunsOut(f, k, w);
    }
  }

  lemma NoneAssigns(w: WorkloadId)
    ensures Unassigned([], w)
  {}

  lemma UnassignedConcat(x: seq<Step>, y: seq<Step>, w: WorkloadId)
    requires Unassigned(x, w) && Unassigned(y, w)
    ensures Unassigned(x + y, w)
  {
    hide Assigns;
  }

  /** From every sound state the inventories, fence stops and deliveries of a run that
      does not reassign w can leave only w's owner running it. */
  lemma {:induction false} ConvergenceIsReachable(f: Fleet, w: WorkloadId) returns (steps: seq<Step>)
    requires Sound(f)
    ensures Runs(f, steps) && Unassigned(steps, w) && OnlyOwner(End(f, steps), w)
    decreases Divergence(f, w)
  {
    hide Fenced, Tokens, Confirmed, Runs, End, Unassigned, Divergence, OnlyOwner, HealingSteps;
    if OnlyOwner(f, w) {
      steps := [];
      NoSteps(f);
      assert Unassigned([], w) by { NoneAssigns(w); }
    } else {
      var first := HealingIsPossible(f, w);
      ReachableIsSound(f, first);
      RunsConverge(f, first, w);
      var rest := ConvergenceIsReachable(End(f, first), w);
      RunsConcat(f, first, rest);
      UnassignedConcat(first, rest, w);
      steps := first + rest;
    }
  }
}
