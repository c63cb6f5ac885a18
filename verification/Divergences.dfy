/** Where the code does less than its documentation says: runs that show it, and
    exactly when it happens. */
module Divergences {
  import opened Wrappers
  import opened Plane
  import opened Fleet
  import opened Outcomes
  import opened Confirmation
  import opened Retry
  import opened RetryWitness
  import opened Calls

  // ------------------------------------------------ a tick undoes a newer wish

  /** The rest of a tick in which no command of w is written: no new tick, and no
      other write of w's desired state. */
  predicate RestOfTick(f: Fleet, steps: seq<Step>, w: WorkloadId)
    requires Runs(f, steps)
    decreases |steps|
  {
    steps == [] ||
    (steps[0] != Reconciling(BeginTick) && !WritesDesired(f, steps[0], w) && RestOfTick(Apply(f, steps[0]), steps[1..], w))
  }

  /** The running tick, if any, has read w's row as this. */
  predicate HasRead(f: Fleet, w: WorkloadId, read: Workload) {
    f.tick.Some? && w in f.tick.value.rows ==> f.tick.value.rows[w] == read
  }

  lemma StepKeepsReading(f: Fleet, s: Step, w: WorkloadId, read: Workload)
    requires Enabled(f, s) && HasRead(f, w, read) && s != Reconciling(BeginTick)
    ensures HasRead(Apply(f, s), w, read)
  {
    hide CallEnabled, DeliveryEnabled, EventEnabled, ApplyCall, ApplyDelivery, ApplyEvent, ReconcileOne;
    if !s.Reconciling? {
      OnlyTicksTouchTheTick(f, s);
    }
  }

  lemma DesiredAfterStep(f: Fleet, s: Step, w: WorkloadId)
    requires Enabled(f, s) && w in f.tables.workloads && !WritesDesired(f, s, w)
    ensures w in Apply(f, s).tables.workloads
    ensures Apply(f, s).tables.workloads[w].desired
         == if Issues(f, s, w) then f.tick.value.rows[w].desired else f.tables.workloads[w].desired
  {
    hide Enabled, Apply, OutcomeFor, Issues, WritesDesired;
    StepOnRow(f, s, w);
    IssuesIff(f, s, w);
    OutcomeIsNoIssue(f, s, w);
  }

  lemma OutcomeIsNoIssue(f: Fleet, s: Step, w: WorkloadId)
    ensures OutcomeFor(f, s, w, true) || OutcomeFor(f, s, w, false) ==> !Issues(f, s, w)
  {}

  /** A desired state written while a tick runs ends the tick as it was written if the
      tick issues nothing for w, and otherwise as the tick had read it. */
  lemma {:induction false} DesiredAtTheEnd(f: Fleet, steps: seq<Step>, w: WorkloadId, read: Workload)
    requires Runs(f, steps) && RestOfTick(f, steps, w) && w in f.tables.workloads && HasRead(f, w, read)
    ensures w in End(f, steps).tables.workloads
    ensures End(f, steps).tables.workloads[w].desired
         == if Issued(f, steps, w) > 0 then read.desired else f.tables.workloads[w].desired
    decreases |steps|
  {
    hide Enabled, Apply, WritesDesired;
    if steps != [] {
      DesiredAfterStep(f, steps[0], w);
      StepKeepsReading(f, steps[0], w, read);
      DesiredAtTheEnd(Apply(f, steps[0]), steps[1..], w, read);
    }
  }

  /** So a wish written during a tick survives the rest of it exactly when the tick
      issues no command for w, or had read that very wish. */
  lemma WishSurvivesIff(f: Fleet, steps: seq<Step>, w: WorkloadId)
    requires Runs(f, steps) && RestOfTick(f, steps, w) && w in f.tables.workloads
    requires f.tick.Some? && w in f.tick.value.rows
    ensures w in End(f, steps).tables.workloads
    ensures End(f, steps).tables.workloads[w].desired == f.tables.workloads[w].desired
       <==> Issued(f, steps, w) == 0 || f.tick.value.rows[w].desired == f.tables.workloads[w].desired
  {
    hide Runs, End, RestOfTick, Issued;
    DesiredAtTheEnd(f, steps, w, f.tick.value.rows[w]);
  }

  /** A stop sent during a tick to an agent that is away fails at dispatch, and the
      desired state is stopped; the tick still issues what it had read. */
  lemma StopDuringTick(f: Fleet, w: WorkloadId, agent: AgentId)
    requires Tokens(f) && Due(f, w, agent) && Ready(f, w) && !InFlight(f.tables, w)
    ensures var steps := UndeliveredSteps(f, w, Stop);
            && Runs(f, steps)
            && var g := End(f, steps);
               && g.tick == f.tick && w in g.tables.workloads && g.tables.workloads[w].desired.ShouldStop?
               && Issues(g, Reconciling(TickBody(w)), w)
  {
    hide Runs, End, Tokens, UndeliveredSteps;
    UndeliveredFails(f, w, Stop);
    var g := End(f, UndeliveredSteps(f, w, Stop));
    forall k | k in g.tables.rows && g.tables.rows[k].message.workload == w ensures !Unfinished(g.tables.rows[k]) {}
  }

  function LostStop(f: Fleet, w: WorkloadId): seq<Step> {
    [Reconciling(BeginTick)] + (UndeliveredSteps(f, w, Stop) + [Reconciling(TickBody(w))])
  }

  /** An administrator's stop is undone: from every idle state a run in which the
      desired state has become stopped ends with it running again, without any
      start from an administrator. */
  lemma AdminStopIsUndone(f: Fleet, w: WorkloadId, agent: AgentId)
    requires Tokens(f) && Idle(f, w, agent)
    ensures var steps, n := LostStop(f, w), |LostStop(f, w)| - 1;
            && Runs(f, steps) && Runs(f, steps[..n])
            && w in End(f, steps[..n]).tables.workloads && End(f, steps[..n]).tables.workloads[w].desired.ShouldStop?
            && w in End(f, steps).tables.workloads && End(f, steps).tables.workloads[w].desired.ShouldRun?
  {
    hide Runs, End, InFlight, UndeliveredSteps, Apply, Issues, Tokens;
    var s0, s2, mid := Reconciling(BeginTick), Reconciling(TickBody(w)), UndeliveredSteps(f, w, Stop);
    TickBegins(f, w, agent);
    StepKeepsTokens(f, s0);
    var f1 := Apply(f, s0);
    SameSend(f, f1, w, Stop);
    StopDuringTick(f1, w, agent);
    var f2 := End(f1, mid);
    TickBodyRestores(f1, mid, f2, w);
    Chain(f, s0, mid);
    Alone(f2, s2);
    RunsConcat(f1, mid, [s2]);
    Chain(f, s0, mid + [s2]);
    assert LostStop(f, w)[..|LostStop(f, w)| - 1] == [s0] + mid;
  }

  lemma SameSend(f: Fleet, g: Fleet, w: WorkloadId, kind: Kind)
    requires g.tables == f.tables
    ensures UndeliveredSteps(g, w, kind) == UndeliveredSteps(f, w, kind)
  {}

  lemma TickBodyRestores(f: Fleet, mid: seq<Step>, g: Fleet, w: WorkloadId)
    requires Runs(f, mid) && g == End(f, mid) && w in g.tables.workloads && Issues(g, Reconciling(TickBody(w)), w)
    requires g.tick == f.tick && f.tick.Some? && w in f.tick.value.rows && f.tick.value.rows[w].desired.ShouldRun?
    ensures Enabled(g, Reconciling(TickBody(w)))
    ensures var u := Apply(g, Reconciling(TickBody(w))).tables;
            w in u.workloads && u.workloads[w].desired.ShouldRun?
  {
    hide Apply, Runs, End, OutcomeFor;
    IssuesIff(g, Reconciling(TickBody(w)), w);
    DesiredAfterStep(g, Reconciling(TickBody(w)), w);
  }

  /** Such a state is reached from the empty system. */
  lemma AdminStopIsUndoneFromTheStart(agents: seq<AgentRow>, clock: int, agent: AgentId, customer: CustomerId, spec: Spec)
    returns (before: seq<Step>, wished: Fleet, after: Fleet)
    requires HasAgent(Init(agents, clock).tables, agent) && spec.valid
    ensures Runs(Init(agents, clock), before) && End(Init(agents, clock), before) == wished
    ensures 0 in wished.tables.workloads && wished.tables.workloads[0].desired.ShouldStop?
    ensures Enabled(wished, Reconciling(TickBody(0))) && Apply(wished, Reconciling(TickBody(0))) == after
    ensures 0 in after.tables.workloads && after.tables.workloads[0].desired.ShouldRun?
  {
    hide Runs, End, Idle, LostStop, Enabled, Apply, Tokens;
    var steps, f := IdleIsReachable(agents, clock, agent, customer, spec);
    InitTokens(agents, clock);
    ReachableKeepsTokens(Init(agents, clock), steps);
    AdminStopIsUndone(f, 0, agent);
    var all, n := LostStop(f, 0), |LostStop(f, 0)| - 1;
    LostStopShape(f, 0);
    SplitLast(f, all);
    wished, after := End(f, all[..n]), End(f, all);
    RunsConcat(Init(agents, clock), steps, all[..n]);
    before := steps + all[..n];
  }

  lemma InitTokens(agents: seq<AgentRow>, clock: int)
    ensures Tokens(Init(agents, clock))
  {}

  lemma LostStopShape(f: Fleet, w: WorkloadId)
    ensures var all := LostStop(f, w); all != [] && all[|all| - 1] == Reconciling(TickBody(w))
  {}

  lemma {:induction false} SplitLast(f: Fleet, steps: seq<Step>)
    requires Runs(f, steps) && steps != []
    ensures var n := |steps| - 1;
            && Runs(f, steps[..n]) && Enabled(End(f, steps[..n]), steps[n])
            && End(f, steps) == Apply(End(f, steps[..n]), steps[n])
    decreases |steps|
  {
    hide Enabled, Apply;
    var n := |steps| - 1;
    if n == 0 {
      NoSteps(f);
      NoSteps(Apply(f, steps[0]));
      assert steps[1..] == [];
    } else {
      SplitLast(Apply(f, steps[0]), steps[1..]);
      assert steps[..n][1..] == steps[1..][..n - 1];
    }
  }

  // ------------------------------------ a suspension ends without anybody's clear

  predicate NoClear(steps: seq<Step>, w: WorkloadId) {
    forall i :: 0 <= i < |steps| ==> steps[i] != Control(Clear(w))
  }

  lemma NoClearConcat(x: seq<Step>, y: seq<Step>, w: WorkloadId)
    requires NoClear(x, w) && NoClear(y, w)
    ensures NoClear(x + y, w)
  {}

  lemma SendsClearNothing(f: Fleet, w: WorkloadId, kind: Kind)
    ensures NoClear(UndeliveredSteps(f, w, kind), w) && NoClear(DeliveredSteps(f, w, kind), w)
  {}

  /** The agent owns w, and has its node specification cached with no process running. */
  predicate Deployed(f: Fleet, w: WorkloadId, agent: AgentId) {
    && w in f.tables.workloads && f.tables.workloads[w].owner == Some(agent)
    && Slot(agent, w) in f.entries && !f.entries[Slot(agent, w)].running && f.entries[Slot(agent, w)].spec.nodeRuntime
  }

  lemma FailureRow(row: Workload, desired: Desired, now: int)
    ensures var after := AfterFailure(row.(desired := desired), Broken, now);
            && after.attempts == row.attempts + 1 && after.owner == row.owner
            && (after.suspendedAt.Some? <==> row.attempts + 1 >= MAX_RECONCILE_ATTEMPTS)
  {
    hide ReconcileBackoffMs;
  }

  lemma SuccessRow(row: Workload, desired: Desired, observed: Observed, now: int)
    ensures var after := AfterSuccess(row.(desired := desired), observed, now);
            after.attempts == 0 && after.owner == row.owner && after.suspendedAt == row.suspendedAt
  {}

  /** Failing starts until the count is five: suspended. */
  lemma {:induction false} FailsUntilSuspended(f: Fleet, w: WorkloadId, agent: AgentId) returns (steps: seq<Step>, g: Fleet)
    requires Tokens(f) && Deployed(f, w, agent) && agent !in f.connected
    requires f.tables.workloads[w].attempts < MAX_RECONCILE_ATTEMPTS
    ensures Runs(f, steps) && End(f, steps) == g && NoClear(steps, w)
    ensures Deployed(g, w, agent) && agent !in g.connected
    ensures g.tables.workloads[w].suspendedAt.Some? && g.tables.workloads[w].attempts == MAX_RECONCILE_ATTEMPTS
    decreases MAX_RECONCILE_ATTEMPTS - f.tables.workloads[w].attempts
  {
    hide Runs, End, Tokens, NoClear, UndeliveredSteps, AfterFailure;
    steps := UndeliveredSteps(f, w, Start);
    UndeliveredFails(f, w, Start);
    SendsClearNothing(f, w, Start);
    FailureRow(f.tables.workloads[w], ShouldRun, f.clock);
    ReachableKeepsTokens(f, steps);
    g := End(f, steps);
    if g.tables.workloads[w].attempts < MAX_RECONCILE_ATTEMPTS {
      var rest;
      rest, g := FailsUntilSuspended(g, w, agent);
      RunsConcat(f, steps, rest);
      NoClearConcat(steps, rest, w);
      steps := steps + rest;
    }
  }

  /** One success and one failure later the suspension is gone. */
  lemma SuccessAndFailureLift(f: Fleet, w: WorkloadId, agent: AgentId) returns (steps: seq<Step>)
    requires Tokens(f) && Deployed(f, w, agent) && f.tables.workloads[w].suspendedAt.Some?
    ensures Runs(f, steps) && NoClear(steps, w)
    ensures w in End(f, steps).tables.workloads && End(f, steps).tables.workloads[w].suspendedAt.None?
  {
    hide Runs, End, Tokens, NoClear, UndeliveredSteps, DeliveredSteps, AfterFailure, AfterSuccess, Enabled;
    var s0, s2 := AgentSide(Connect(agent)), AgentSide(Disconnect(agent));
    AgentStep(f, s0);
    var f1 := Apply(f, s0);
    var row := f.tables.workloads[w];
    var e := f.entries[Slot(agent, w)].(generation := row.generation, running := true);
    var x := DeliveredSteps(f1, w, Start);
    DeliveredSucceeds(f1, w, Start, e);
    SendsClearNothing(f1, w, Start);
    SuccessRow(row, ShouldRun, Running, f.clock);
    ReachableKeepsTokens(f1, x);
    var f2 := End(f1, x);
    AgentStep(f2, s2);
    var f3 := Apply(f2, s2);
    var y := UndeliveredSteps(f3, w, Stop);
    UndeliveredFails(f3, w, Stop);
    SendsClearNothing(f3, w, Stop);
    FailureRow(f3.tables.workloads[w], ShouldStop, f3.clock);
    Chain(f2, s2, y);
    RunsConcat(f1, x, [s2] + y);
    Chain(f, s0, x + ([s2] + y));
    steps := [s0] + (x + ([s2] + y));
    NoClearHere(s0, x, s2, y, w);
  }

  lemma AgentStep(f: Fleet, s: Step)
    requires Tokens(f) && s.AgentSide? && (s.event.Connect? || s.event.Disconnect?)
    ensures Enabled(f, s) && Tokens(Apply(f, s))
    ensures var g := Apply(f, s);
            g == f.(connected := if s.event.Connect? then f.connected + {s.event.agent} else f.connected - {s.event.agent})
  {
    hide Tokens;
    StepKeepsTokens(f, s);
  }

  lemma NoClearHere(s0: Step, x: seq<Step>, s2: Step, y: seq<Step>, w: WorkloadId)
    requires s0.AgentSide? && s2.AgentSide? && NoClear(x, w) && NoClear(y, w)
    ensures NoClear([s0] + (x + ([s2] + y)), w)
  {}

  lemma DeliverUpdate(f: Fleet, agent: AgentId, row: Workload, spec: Spec) returns (steps: seq<Step>, g: Fleet)
    requires Outstanding(f, agent, row, 0, Update(spec)) && f.entries == map[] && spec.valid && spec.nodeRuntime
    ensures Runs(f, steps) && End(f, steps) == g && NoClear(steps, 0)
    ensures Deployed(g, 0, agent) && agent in g.connected
    ensures g.tables.workloads == f.tables.workloads && g.tables.agents == f.tables.agents
  {
    hide Runs, End;
    var s0, s1 := Control(EnqueueJob(0)), AgentSide(Connect(agent));
    var s2, s3 := Network(Deliver(0)), Network(ExecuteSent(0));
    var f1 := Apply(f, s0);
    var f2 := Apply(f1, s1);
    var f3 := Apply(f2, s2);
    ThreeSteps(f, s0, f1, s1, f2, s2);
    Alone(f3, s3);
    RunsConcat(f, [s0, s1, s2], [s3]);
    steps, g := [s0, s1, s2] + [s3], Apply(f3, s3);
  }

  /** A workload deployed to a connected agent is reached from the empty system. */
  lemma DeploymentIsReachable(agents: seq<AgentRow>, clock: int, agent: AgentId, customer: CustomerId, spec: Spec)
    returns (steps: seq<Step>, f: Fleet)
    requires HasAgent(Init(agents, clock).tables, agent) && spec.valid && spec.nodeRuntime
    ensures Runs(Init(agents, clock), steps) && End(Init(agents, clock), steps) == f && Tokens(f) && NoClear(steps, 0)
    ensures Deployed(f, 0, agent) && agent in f.connected && f.tables.agents == agents
    ensures f.tables.workloads[0].attempts == 0
  {
    hide Runs, End, Tokens, Outstanding;
    var row := NewWorkload(customer, spec).(owner := Some(agent), generation := 2);
    var x, f1 := AssignmentRecorded(agents, clock, agent, customer, spec);
    var y;
    y, f := DeliverUpdate(f1, agent, row, spec);
    RunsConcat(Init(agents, clock), x, y);
    steps := x + y;
    InitTokens(agents, clock);
    ReachableKeepsTokens(Init(agents, clock), steps);
    assert NoClear(x, 0) by { NoClearAssigned(x, 0); }
    NoClearConcat(x, y, 0);
    OutstandingTables(f1, agent, row, 0, Update(spec));
  }

  lemma NoClearAssigned(steps: seq<Step>, w: WorkloadId)
    requires forall i :: 0 <= i < |steps| ==> steps[i].Control? && !steps[i].call.Clear?
    ensures NoClear(steps, w)
  {}

  lemma OutstandingTables(f: Fleet, agent: AgentId, row: Workload, k: Key, kind: Kind)
    requires Outstanding(f, agent, row, k, kind)
    ensures f.tables.workloads == map[0 := row]
  {}

  /** From the empty system: five failures suspend a workload, and a success and one
      more failure later it is not suspended, without a clear anywhere. */
  lemma SuspensionEndsWithoutClear(agents: seq<AgentRow>, clock: int, agent: AgentId, customer: CustomerId, spec: Spec)
    returns (steps: seq<Step>, f: Fleet, more: seq<Step>)
    requires HasAgent(Init(agents, clock).tables, agent) && spec.valid && spec.nodeRuntime
    ensures Runs(Init(agents, clock), steps) && End(Init(agents, clock), steps) == f && NoClear(steps, 0)
    ensures 0 in f.tables.workloads && f.tables.workloads[0].suspendedAt.Some?
    ensures Runs(f, more) && NoClear(more, 0)
    ensures 0 in End(f, more).tables.workloads && End(f, more).tables.workloads[0].suspendedAt.None?
  {
    hide Runs, End, Tokens, NoClear, Enabled;
    var x, f1 := DeploymentIsReachable(agents, clock, agent, customer, spec);
    var away := AgentSide(Disconnect(agent));
    AgentStep(f1, away);
    var f2 := Apply(f1, away);
    Alone(f1, away);
    var y;
    y, f := FailsUntilSuspended(f2, 0, agent);
    RunsConcat(Init(agents, clock), x, [away]);
    RunsConcat(Init(agents, clock), x + [away], y);
    steps := x + [away] + y;
    NoClearAway(away, 0);
    NoClearConcat(x, [away], 0);
    NoClearConcat(x + [away], y, 0);
    ReachableKeepsTokens(f2, y);
    more := SuccessAndFailureLift(f, 0, agent);
  }

  lemma NoClearAway(s: Step, w: WorkloadId)
    requires s.AgentSide?
    ensures NoClear([s], w)
  {}

  // --------------------------------- an old command confirms a newer generation

  /** A start addressed to the owner, and the two assignments, away and back, between
      its reading and its recording. */
  function AwayAndBack(w: WorkloadId, owner: AgentId, other: AgentId): seq<Step> {
    [Control(ReadForSend(w, Start)), Control(Assign(w, other)), Control(Assign(w, owner))]
  }

  lemma ReadStep(f: Fleet, w: WorkloadId)
    requires Sendable(f.tables, w)
    ensures var (s, k) := (Control(ReadForSend(w, Start)), f.tables.nextKey);
            && Enabled(f, s)
            && var g := Apply(f, s);
               && g == f.(tables := f.tables.(transit := g.tables.transit, nextKey := k + 1))
               && At(g, k, Built) && g.tables.transit[k].message == CommandFor(f.tables, w, Start)
  {}

  lemma AssignStep(f: Fleet, w: WorkloadId, agent: AgentId, k: Key)
    requires w in f.tables.workloads && HasAgent(f.tables, agent) && k in f.tables.transit && k < f.tables.nextKey
    ensures var (t, s) := (f.tables, Control(Assign(w, agent)));
            && Enabled(f, s)
            && var g := Apply(f, s);
               && g == f.(tables := g.tables, chosen := g.chosen) && g.tables.agents == t.agents && g.tables.rows == t.rows
               && g.tables.workloads == t.workloads[w := t.workloads[w].(owner := Some(agent), generation := t.workloads[w].generation + 1)]
               && g.tables.nextKey == t.nextKey + 1 && k in g.tables.transit && g.tables.transit[k] == t.transit[k]
  {}

  lemma OldStartIsBuilt(f: Fleet, w: WorkloadId, owner: AgentId, other: AgentId)
    requires Tokens(f) && w in f.tables.workloads && f.tables.workloads[w].owner == Some(owner)
    requires HasAgent(f.tables, owner) && HasAgent(f.tables, other)
    ensures var (t, k, steps) := (f.tables, f.tables.nextKey, AwayAndBack(w, owner, other));
            && Runs(f, steps)
            && var g := End(f, steps);
               && g == f.(tables := g.tables, chosen := g.chosen)
               && g.tables.rows == t.rows && At(g, k, Built)
               && g.tables.transit[k].message == Message(owner, w, Start, t.workloads[w].generation)
               && g.tables.workloads == t.workloads[w := t.workloads[w].(generation := t.workloads[w].generation + 2)]
  {
    hide Runs, End, Tokens, Enabled, Apply, HasAgent;
    var k := f.tables.nextKey;
    var s0, s1, s2 := Control(ReadForSend(w, Start)), Control(Assign(w, other)), Control(Assign(w, owner));
    ReadStep(f, w);
    var f1 := Apply(f, s0);
    SameAgents(f.tables, f1.tables, owner);
    SameAgents(f.tables, f1.tables, other);
    AssignStep(f1, w, other, k);
    var f2 := Apply(f1, s1);
    SameAgents(f1.tables, f2.tables, owner);
    AssignStep(f2, w, owner, k);
    ThreeSteps(f, s0, f1, s1, f2, s2);
  }

  lemma SameAgents(t: Tables, u: Tables, agent: AgentId)
    requires HasAgent(t, agent) && u.agents == t.agents
    ensures HasAgent(u, agent)
  {}

  lemma RecordBuilt(f: Fleet, k: Key)
    requires At(f, k, Built)
    ensures var steps := [Control(RecordRow(k)), Control(EnqueueJob(k))];
            && Runs(f, steps)
            && var g := End(f, steps);
               && g == f.(tables := g.tables) && g.tables.workloads == f.tables.workloads
               && At(g, k, Queued) && g.tables.transit[k].message == f.tables.transit[k].message
               && k in g.tables.rows && g.tables.rows[k].message == f.tables.transit[k].message
  {
    hide Runs, End;
    Two(f, Control(RecordRow(k)), Control(EnqueueJob(k)));
  }

  /** While its start is on the way a workload is assigned to another agent and back.
      The start succeeds, and confirms the generation of the row, two above the one it
      carries and the one the agent holds. */
  lemma OldCommandConfirms(f: Fleet, w: WorkloadId, owner: AgentId, other: AgentId) returns (steps: seq<Step>)
    requires Tokens(f) && Deployed(f, w, owner) && owner in f.connected
    requires HasAgent(f.tables, owner) && HasAgent(f.tables, other)
    ensures Runs(f, steps)
    ensures var (g, k, generation) := (End(f, steps), f.tables.nextKey, f.tables.workloads[w].generation);
            && k in g.tables.rows && g.tables.rows[k].status.Succeeded?
            && g.tables.rows[k].message == Message(owner, w, Start, generation)
            && w in g.tables.workloads && g.tables.workloads[w].observedGeneration == generation + 2
            && Slot(owner, w) in g.entries && g.entries[Slot(owner, w)].generation == generation
  {
    hide Runs, End, Tokens, AwayAndBack, AfterFailure;
    var k := f.tables.nextKey;
    var x := AwayAndBack(w, owner, other);
    OldStartIsBuilt(f, w, owner, other);
    KeyIsFree(f);
    var f1 := End(f, x);
    var y := [Control(RecordRow(k)), Control(EnqueueJob(k))];
    RecordBuilt(f1, k);
    var f2 := End(f1, y);
    var e := f.entries[Slot(owner, w)].(generation := f.tables.workloads[w].generation, running := true);
    ExecutedAndAnswered(f2, k, w, e);
    var z := [Network(Deliver(k)), Network(ExecuteSent(k)), Network(ReceiveResult(k))];
    RunsConcat(f, x, y);
    RunsConcat(f, x + y, z);
    steps := x + y + z;
  }

  lemma KeyIsFree(f: Fleet)
    requires Tokens(f)
    ensures f.tables.nextKey !in f.results
  {}

  /** From the empty system, for any two registered agents. */
  lemma OldCommandConfirmsFromTheStart(agents: seq<AgentRow>, clock: int, owner: AgentId, other: AgentId,
                                       customer: CustomerId, spec: Spec)
    returns (steps: seq<Step>, k: Key)
    requires HasAgent(Init(agents, clock).tables, owner) && HasAgent(Init(agents, clock).tables, other)
    requires owner != other && spec.valid && spec.nodeRuntime
    ensures Runs(Init(agents, clock), steps)
    ensures var g := End(Init(agents, clock), steps);
            && k in g.tables.rows && g.tables.rows[k].status.Succeeded? && g.tables.rows[k].message.workload == 0
            && 0 in g.tables.workloads && g.tables.workloads[0].observedGeneration > g.tables.rows[k].message.generation
            && Slot(owner, 0) in g.entries
            && g.entries[Slot(owner, 0)].generation == g.tables.rows[k].message.generation
  {
    hide Runs, End, Tokens, NoClear;
    var x, f := DeploymentIsReachable(agents, clock, owner, customer, spec);
    SameAgents(Init(agents, clock).tables, f.tables, owner);
    SameAgents(Init(agents, clock).tables, f.tables, other);
    var y := OldCommandConfirms(f, 0, owner, other);
    RunsConcat(Init(agents, clock), x, y);
    steps, k := x + y, f.tables.nextKey;
  }
}
