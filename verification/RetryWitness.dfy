/** The bound of five reconcile attempts is exceeded by one: from every idle state of
    a workload that keeps failing there is a run that issues 6 - attempts commands. */
module RetryWitness {
  import opened Wrappers
  import opened Plane
  import opened Fleet
  import opened Outcomes
  import opened Confirmation
  import opened Retry

  /** A workload that should run, does not, and may be tried now; its agent is away. */
  predicate Due(f: Fleet, w: WorkloadId, agent: AgentId) {
    && w in f.tables.workloads && agent !in f.connected
    && var row := f.tables.workloads[w];
       && row.owner == Some(agent) && row.desired.ShouldRun? && !row.observed.Running?
       && row.suspendedAt.None? && (row.nextAttemptAt.None? || row.nextAttemptAt.value <= f.clock)
       && row.attempts < MAX_RECONCILE_ATTEMPTS
  }

  predicate Idle(f: Fleet, w: WorkloadId, agent: AgentId) {
    Due(f, w, agent) && f.tick.None? && !InFlight(f.tables, w)
  }

  /** The running tick has read w's row as it still is, at this instant. */
  predicate Ready(f: Fleet, w: WorkloadId) {
    && w in f.tables.workloads && f.tick.Some? && f.tick.value.now == f.clock
    && w in f.tick.value.todo && w in f.tick.value.rows && f.tick.value.rows[w] == f.tables.workloads[w]
  }

  /** One command k of w is unfinished, and it waits in the queue. */
  predicate Waiting(f: Fleet, w: WorkloadId, agent: AgentId, k: Key) {
    && At(f, k, Queued) && f.tables.transit[k].message.agent == agent && k in f.tables.rows
    && f.tables.rows[k].message.agent == agent && f.tables.rows[k].message.workload == w && f.tables.rows[k].message.kind.Start?
    && forall j :: j in f.tables.rows && j != k && f.tables.rows[j].message.workload == w ==> !Unfinished(f.tables.rows[j])
  }

  lemma TickBegins(f: Fleet, w: WorkloadId, agent: AgentId)
    requires Due(f, w, agent) && f.tick.None?
    ensures var g := Apply(f, Reconciling(BeginTick));
            Ready(g, w) && g == f.(tick := g.tick)
  {}

  lemma TickIssues(f: Fleet, w: WorkloadId, agent: AgentId)
    requires Due(f, w, agent) && Ready(f, w) && !InFlight(f.tables, w)
    ensures Issues(f, Reconciling(TickBody(w)), w)
    ensures var g := Apply(f, Reconciling(TickBody(w)));
            && Due(g, w, agent) && Waiting(g, w, agent, f.tables.nextKey) && g.tick.Some? && g.clock == f.clock
            && g.tables.workloads[w] == f.tables.workloads[w]
  {}

  lemma DispatchFails(f: Fleet, w: WorkloadId, agent: AgentId, k: Key)
    requires Due(f, w, agent) && Waiting(f, w, agent, k)
    ensures var s := Network(FailDispatch(k));
            && Enabled(f, s) && !Disturbs(f, s, w)
            && var g := Apply(f, s);
               && g == f.(tables := g.tables) && !InFlight(g.tables, w)
               && w in g.tables.workloads
               && g.tables.workloads[w] == AfterFailure(f.tables.workloads[w], Broken, f.clock)
  {
    hide AfterFailure, AfterSuccess;
    assert Discard(f.tables, k).rows == f.tables.rows && Discard(f.tables, k).workloads == f.tables.workloads;
  }

  /** The run goes through undisturbed, issues n commands for w and ends in g. */
  ghost predicate Reaches(f: Fleet, steps: seq<Step>, w: WorkloadId, n: nat, g: Fleet) {
    Runs(f, steps) && Undisturbed(f, steps, w) && Issued(f, steps, w) == n && End(f, steps) == g
  }

  lemma One(f: Fleet, s: Step, w: WorkloadId)
    requires Enabled(f, s) && !Disturbs(f, s, w)
    ensures Reaches(f, [s], w, if Issues(f, s, w) then 1 else 0, Apply(f, s))
  {
    hide Enabled, Apply, Disturbs, Issues;
    var g := Apply(f, s);
    assert [s][1..] == [] && Runs(g, []) && Undisturbed(g, [], w) && Issued(g, [], w) == 0 && End(g, []) == g;
  }

  lemma {:induction false} Join(f: Fleet, x: seq<Step>, m: nat, g: Fleet, y: seq<Step>, n: nat, h: Fleet, w: WorkloadId)
    requires Reaches(f, x, w, m, g) && Reaches(g, y, w, n, h)
    ensures Reaches(f, x + y, w, m + n, h)
    decreases |x|
  {
    hide Enabled, Apply, Disturbs, Issues;
    if x == [] {
      assert x + y == y;
    } else {
      var f1, head := Apply(f, x[0]), if Issues(f, x[0], w) then 1 else 0;
      Join(f1, x[1..], m - head, g, y, n, h, w);
      assert (x + y)[1..] == x[1..] + y;
    }
  }

  lemma OnlyBodiesIssue(f: Fleet, s: Step, w: WorkloadId)
    ensures Issues(f, s, w) ==> s == Reconciling(TickBody(w))
  {}

  /** A tick that issues a command and ends; the command waits in the queue. */
  lemma TickCycle(f: Fleet, w: WorkloadId, agent: AgentId) returns (steps: seq<Step>, g: Fleet, k: Key)
    requires Idle(f, w, agent)
    ensures Reaches(f, steps, w, 1, g)
    ensures Due(g, w, agent) && g.tick.None? && Waiting(g, w, agent, k) && g.clock == f.clock
    ensures g.tables.workloads[w] == f.tables.workloads[w]
  {
    hide Apply, Issues, Reaches, InFlight, Waiting;
    var s0, s1, s2 := Reconciling(BeginTick), Reconciling(TickBody(w)), Reconciling(EndTick);
    TickBegins(f, w, agent);
    var f1 := Apply(f, s0);
    TickIssues(f1, w, agent);
    var f2 := Apply(f1, s1);
    k := f1.tables.nextKey;
    TickEnds(f2, w, agent, k);
    g := Apply(f2, s2);
    OnlyBodiesIssue(f, s0, w);
    OnlyBodiesIssue(f2, s2, w);
    One(f, s0, w);
    One(f1, s1, w);
    One(f2, s2, w);
    Join(f, [s0], 0, f1, [s1], 1, f2, w);
    Join(f, [s0] + [s1], 1, f2, [s2], 0, g, w);
    steps := [s0] + [s1] + [s2];
  }

  lemma TickEnds(f: Fleet, w: WorkloadId, agent: AgentId, k: Key)
    requires Due(f, w, agent) && Waiting(f, w, agent, k) && f.tick.Some?
    ensures var g := Apply(f, Reconciling(EndTick));
            Due(g, w, agent) && Waiting(g, w, agent, k) && g == f.(tick := None)
  {}

  lemma BackoffElapses(f: Fleet, w: WorkloadId, agent: AgentId, before: Workload, since: int)
    requires w in f.tables.workloads && f.tables.workloads[w] == AfterFailure(before, Broken, since)
    requires before.attempts < MAX_RECONCILE_ATTEMPTS - 1 && before.owner == Some(agent) && before.desired.ShouldRun?
    requires f.tick.None? && !InFlight(f.tables, w) && agent !in f.connected && f.clock == since
    ensures var s := AgentSide(Elapse(ReconcileBackoffMs(before.attempts + 1)));
            !Disturbs(f, s, w) && Idle(Apply(f, s), w, agent) && Apply(f, s).tables == f.tables
  {
    hide ReconcileBackoffMs;
  }

  /** One attempt fails and its backoff passes. */
  lemma FailedRound(f: Fleet, w: WorkloadId, agent: AgentId) returns (steps: seq<Step>, g: Fleet)
    requires Idle(f, w, agent) && f.tables.workloads[w].attempts < MAX_RECONCILE_ATTEMPTS - 1
    ensures Reaches(f, steps, w, 1, g)
    ensures Idle(g, w, agent) && g.tables.workloads[w].attempts == f.tables.workloads[w].attempts + 1
  {
    hide Apply, Issues, Reaches, InFlight, Waiting, ReconcileBackoffMs;
    var begin, f1, k := TickCycle(f, w, agent);
    var s1 := Network(FailDispatch(k));
    DispatchFails(f1, w, agent, k);
    var f2 := Apply(f1, s1);
    var s2 := AgentSide(Elapse(ReconcileBackoffMs(f.tables.workloads[w].attempts + 1)));
    BackoffElapses(f2, w, agent, f1.tables.workloads[w], f1.clock);
    g := Apply(f2, s2);
    OnlyBodiesIssue(f1, s1, w);
    OnlyBodiesIssue(f2, s2, w);
    One(f1, s1, w);
    One(f2, s2, w);
    Join(f, begin, 1, f1, [s1], 0, f2, w);
    Join(f, begin + [s1], 1, f2, [s2], 0, g, w);
    steps := begin + [s1] + [s2];
  }

  /** A tick that read the row before the failure acts on it afterwards. */
  lemma LateIssue(f: Fleet, w: WorkloadId, agent: AgentId, k: Key)
    requires Due(f, w, agent) && Ready(f, w) && Waiting(f, w, agent, k)
    ensures Enabled(f, Network(FailDispatch(k))) && !Disturbs(f, Network(FailDispatch(k)), w)
    ensures var g := Apply(f, Network(FailDispatch(k)));
            Issues(g, Reconciling(TickBody(w)), w)
  {}

  /** At four failures, two commands: one by its own tick; the other by a second
      tick that begins before the first command's failure is known. */
  lemma LastRound(f: Fleet, w: WorkloadId, agent: AgentId) returns (steps: seq<Step>, g: Fleet)
    requires Idle(f, w, agent) && f.tables.workloads[w].attempts == MAX_RECONCILE_ATTEMPTS - 1
    ensures Reaches(f, steps, w, 2, g)
  {
    hide Apply, Issues, Reaches, InFlight, Waiting, Ready, Disturbs;
    var begin, f1, k := TickCycle(f, w, agent);
    var s0, s1, s2 := Reconciling(BeginTick), Network(FailDispatch(k)), Reconciling(TickBody(w));
    TickBegins(f1, w, agent);
    var f2 := Apply(f1, s0);
    StillWaiting(f1, f2, w, agent, k);
    LateIssue(f2, w, agent, k);
    var f3 := Apply(f2, s1);
    NoDisturbance(f1, f3, w);
    g := Apply(f3, s2);
    OnlyBodiesIssue(f1, s0, w);
    OnlyBodiesIssue(f2, s1, w);
    One(f1, s0, w);
    One(f2, s1, w);
    One(f3, s2, w);
    Join(f, begin, 1, f1, [s0], 0, f2, w);
    Join(f, begin + [s0], 1, f2, [s1], 0, f3, w);
    Join(f, begin + [s0] + [s1], 1, f3, [s2], 1, g, w);
    steps := begin + [s0] + [s1] + [s2];
  }

  lemma StillWaiting(f: Fleet, g: Fleet, w: WorkloadId, agent: AgentId, k: Key)
    requires Due(f, w, agent) && Waiting(f, w, agent, k) && g == f.(tick := g.tick)
    ensures Due(g, w, agent) && Waiting(g, w, agent, k)
  {}

  lemma NoDisturbance(f: Fleet, g: Fleet, w: WorkloadId)
    ensures !Disturbs(f, Reconciling(BeginTick), w) && !Disturbs(g, Reconciling(TickBody(w)), w)
    ensures Issues(g, Reconciling(TickBody(w)), w) ==> Enabled(g, Reconciling(TickBody(w)))
  {}

  /** From every idle state with a failures, a < 5, the reconciler can issue 6 - a
      commands without a success, clear or reassignment: one more than the limit of
      five attempts allows, and exactly as many as RetriesAreBounded permits. */
  lemma {:induction false} OneMoreThanTheLimit(f: Fleet, w: WorkloadId, agent: AgentId) returns (steps: seq<Step>)
    requires Idle(f, w, agent)
    ensures Runs(f, steps) && Undisturbed(f, steps, w)
    ensures Issued(f, steps, w) == MAX_RECONCILE_ATTEMPTS + 1 - f.tables.workloads[w].attempts
    decreases MAX_RECONCILE_ATTEMPTS - f.tables.workloads[w].attempts
  {
    hide Apply, Issues, InFlight, Runs, Undisturbed, Issued, End;
    var g;
    if f.tables.workloads[w].attempts == MAX_RECONCILE_ATTEMPTS - 1 {
      steps, g := LastRound(f, w, agent);
    } else {
      var round, rest;
      round, g := FailedRound(f, w, agent);
      rest := OneMoreThanTheLimit(g, w, agent);
      Join(f, round, 1, g, rest, Issued(g, rest, w), End(g, rest), w);
      steps := round + rest;
    }
  }

  lemma {:induction false} PrefixIssues(f: Fleet, steps: seq<Step>, w: WorkloadId, n: nat) returns (prefix: seq<Step>)
    requires Runs(f, steps) && Undisturbed(f, steps, w) && n <= Issued(f, steps, w)
    ensures Runs(f, prefix) && Undisturbed(f, prefix, w) && Issued(f, prefix, w) == n
    decreases |steps|
  {
    hide Enabled, Apply, Disturbs, Issues;
    if n == 0 {
      prefix := [];
    } else {
      var g := Apply(f, steps[0]);
      var rest := PrefixIssues(g, steps[1..], w, if Issues(f, steps[0], w) then n - 1 else n);
      prefix := [steps[0]] + rest;
      assert prefix[1..] == rest;
    }
  }

  /** Some undisturbed run has the reconciler issue exactly n commands for w. */
  ghost predicate CanIssue(f: Fleet, w: WorkloadId, n: nat) {
    exists steps :: Runs(f, steps) && Undisturbed(f, steps, w) && Issued(f, steps, w) == n
  }

  /** From an idle state with a failures the reconciler can issue exactly n commands
      undisturbed if and only if n is at most 6 - a. */
  lemma CanIssueIff(f: Fleet, w: WorkloadId, agent: AgentId, n: nat)
    requires Tokens(f) && RetryRows(f) && Idle(f, w, agent)
    ensures CanIssue(f, w, n) <==> n <= MAX_RECONCILE_ATTEMPTS + 1 - f.tables.workloads[w].attempts
  {
    hide Tokens, RetryRows, Apply, Issues, Runs, Undisturbed, Issued;
    if steps :| Runs(f, steps) && Undisturbed(f, steps, w) && Issued(f, steps, w) == n {
      hide InFlight;
      RetriesAreBounded(f, steps, w);
      assert f.tables.workloads[w].attempts <= Level(f.tables, w);
    }
    if n <= MAX_RECONCILE_ATTEMPTS + 1 - f.tables.workloads[w].attempts {
      hide InFlight;
      var all := OneMoreThanTheLimit(f, w, agent);
      var steps := PrefixIssues(f, all, w, n);
    }
  }

  // ------------------------------------------------------- idle is reachable

  /** A workload created and assigned, its update about to be queued. */
  lemma AssignmentRecorded(agents: seq<AgentRow>, clock: int, agent: AgentId, customer: CustomerId, spec: Spec)
    returns (steps: seq<Step>, f: Fleet)
    requires HasAgent(Init(agents, clock).tables, agent) && spec.valid
    ensures Runs(Init(agents, clock), steps) && End(Init(agents, clock), steps) == f
    ensures f == Init(agents, clock).(tables := f.tables, chosen := f.chosen) && f.tables.agents == agents
    ensures forall i :: 0 <= i < |steps| ==> steps[i].Control? && !steps[i].call.Clear?
    ensures Outstanding(f, agent, NewWorkload(customer, spec).(owner := Some(agent), generation := 2), 0, Update(spec))
  {
    hide Runs, End;
    var f0 := Init(agents, clock);
    var s0, s1, s2 := Control(Create(0, customer, spec)), Control(Assign(0, agent)), Control(RecordRow(0));
    var f1 := Apply(f0, s0);
    assert HasAgent(f1.tables, agent);
    var f2 := Apply(f1, s1);
    ThreeSteps(f0, s0, f1, s1, f2, s2);
    steps, f := [s0, s1, s2], Apply(f2, s2);
  }

  /** Workload 0, owned by an agent that is away, has one unfinished command: k, recorded. */
  ghost predicate Outstanding(f: Fleet, agent: AgentId, row: Workload, k: Key, kind: Kind) {
    && f.connected == {} && f.tick.None? && f.results == map[]
    && f.tables.workloads == map[0 := row] && row.owner == Some(agent)
    && f.tables.transit.Keys == {k} && At(f, k, Recorded) && f.tables.transit[k].message.agent == agent
    && f.tables.nextKey == k + 1 && k in f.tables.rows
    && f.tables.rows[k].message == f.tables.transit[k].message
    && f.tables.rows[k].message.workload == 0 && f.tables.rows[k].message.kind == kind
    && f.tables.rows[k].origin.Admin?
    && forall j :: j in f.tables.rows && j != k ==> !Unfinished(f.tables.rows[j])
  }

  /** Queueing it and failing to dispatch it: what an undeliverable command leaves. */
  lemma Undeliverable(f: Fleet, agent: AgentId, row: Workload, k: Key, kind: Kind, ms: nat)
    returns (steps: seq<Step>, g: Fleet)
    requires Outstanding(f, agent, row, k, kind)
    ensures Runs(f, steps) && End(f, steps) == g
    ensures g.connected == {} && g.tick.None? && g.results == map[] && g.clock == f.clock + ms
    ensures g.tables.workloads == map[0 := if kind.Update? then row else AfterFailure(row, Broken, f.clock)]
    ensures g.tables.transit == map[] && g.tables.nextKey == f.tables.nextKey
    ensures forall j :: j in g.tables.rows ==> !Unfinished(g.tables.rows[j])
  {
    hide Runs, End, AfterFailure, AfterSuccess;
    var s0, s1, s2 := Control(EnqueueJob(k)), Network(FailDispatch(k)), AgentSide(Elapse(ms));
    var f1 := Apply(f, s0);
    var f2 := Apply(f1, s1);
    ThreeSteps(f, s0, f1, s1, f2, s2);
    steps, g := [s0, s1, s2], Apply(f2, s2);
  }

  /** An administrator's start, its desired state written, about to be queued. */
  lemma Started(f: Fleet, agent: AgentId, row: Workload) returns (steps: seq<Step>, g: Fleet)
    requires f.connected == {} && f.tick.None? && f.results == map[] && f.tables.transit == map[]
    requires f.tables.workloads == map[0 := row] && row.owner == Some(agent)
    requires forall j :: j in f.tables.rows ==> !Unfinished(f.tables.rows[j])
    ensures Runs(f, steps) && End(f, steps) == g && g.clock == f.clock
    ensures Outstanding(g, agent, row.(desired := ShouldRun), f.tables.nextKey, Start)
  {
    hide Runs, End;
    var k := f.tables.nextKey;
    var s0, s1, s2 := Control(ReadForSend(0, Start)), Control(RecordRow(k)), Control(WriteDesired(k));
    var f1 := Apply(f, s0);
    var f2 := Apply(f1, s1);
    ThreeSteps(f, s0, f1, s1, f2, s2);
    steps, g := [s0, s1, s2], Apply(f2, s2);
  }

  /** The system can get into an idle state from the empty one, with any registered
      agent and any valid specification. */
  lemma IdleIsReachable(agents: seq<AgentRow>, clock: int, agent: AgentId, customer: CustomerId, spec: Spec)
    returns (steps: seq<Step>, f: Fleet)
    requires HasAgent(Init(agents, clock).tables, agent) && spec.valid
    ensures Runs(Init(agents, clock), steps) && End(Init(agents, clock), steps) == f
    ensures Idle(f, 0, agent) && f.tables.workloads[0].attempts == 1
  {
    hide Runs, End, Apply, Outstanding, ReconcileBackoffMs;
    var row := NewWorkload(customer, spec).(owner := Some(agent), generation := 2);
    var x, f1 := AssignmentRecorded(agents, clock, agent, customer, spec);
    var y, f2 := Undeliverable(f1, agent, row, 0, Update(spec), 0);
    var z, f3 := Started(f2, agent, row);
    var u;
    u, f := Undeliverable(f3, agent, row.(desired := ShouldRun), f2.tables.nextKey, Start, ReconcileBackoffMs(1));
    RunsConcat(Init(agents, clock), x, y);
    RunsConcat(Init(agents, clock), x + y, z);
    RunsConcat(Init(agents, clock), x + y + z, u);
    steps := x + y + z + u;
    assert !InFlight(f.tables, 0);
  }

  /** The excess is not an artefact of an unreachable state: from the empty system the
      reconciler can come to issue five commands after one failure, where the limit of
      five allows four. */
  lemma LimitIsExceededFromTheStart(agents: seq<AgentRow>, clock: int, agent: AgentId, customer: CustomerId, spec: Spec)
    returns (steps: seq<Step>, f: Fleet, more: seq<Step>)
    requires HasAgent(Init(agents, clock).tables, agent) && spec.valid
    ensures Runs(Init(agents, clock), steps) && End(Init(agents, clock), steps) == f
    ensures 0 in f.tables.workloads && f.tables.workloads[0].attempts == 1
    ensures Runs(f, more) && Undisturbed(f, more, 0) && Issued(f, more, 0) == 5
  {
    hide Runs, End, Apply, Undisturbed, Issued, InFlight;
    steps, f := IdleIsReachable(agents, clock, agent, customer, spec);
    more := OneMoreThanTheLimit(f, 0, agent);
  }
}
