/** What a workload row says the fleet has confirmed: stale outcomes never reach it,
    and every confirmed generation has a succeeded command behind it. */
module Confirmation {
  import opened Wrappers
  import opened Plane
  import opened Runner
  import opened Fleet
  import opened Fencing
  import opened Outcomes

  /** The step delivers an outcome, and the row it lands on is w's: the command is
      a start, stop or restart whose agent owns w at this moment. */
  predicate OutcomeFor(f: Fleet, s: Step, w: WorkloadId, succeeded: bool) {
    s.Network? &&
    match s.delivery
    case FailDispatch(k) => !succeeded && LandsOn(f.tables, k, w)
    case ReceiveResult(k) => k in f.results && f.results[k] == succeeded && LandsOn(f.tables, k, w)
    case _ => false
  }

  predicate LandsOn(t: Tables, k: Key, w: WorkloadId) {
    k in t.rows && t.rows[k].message.workload == w && Authoritative(t, t.rows[k].message)
  }

  /** The row after a success: observed as the command left it, confirmed at its own
      generation, and with no failures counted. */
  function RowOnSuccess(a: Workload, kind: Kind, now: int): Workload {
    a.(observed := if kind.Stop? then Stopped else Running, observedGeneration := a.generation,
       lastTransitionAt := Some(now), attempts := 0, nextAttemptAt := None)
  }

  /** The row after a failure: broken, and to be tried again after thirty seconds
      doubled per failure, unless it is the fifth. */
  function RowOnFailure(a: Workload, now: int): Workload {
    a.(observed := Broken, lastTransitionAt := Some(now), attempts := a.attempts + 1,
       nextAttemptAt := if a.attempts < 4 then Some(now + 30_000 * Pow2(a.attempts + 1)) else None,
       suspendedAt := if a.attempts < 4 then None else Some(now))
  }

  /** The columns that the code writes are these. */
  lemma OutcomeRows(a: Workload, kind: Kind, now: int)
    requires !kind.Update?
    ensures AfterSuccess(a, ObservedStateFor(kind, true).value, now) == RowOnSuccess(a, kind, now)
    ensures AfterFailure(a, ObservedStateFor(kind, false).value, now) == RowOnFailure(a, now)
    ensures AfterFailure(a, Broken, now) == RowOnFailure(a, now)
  {
    assert Pow2(5) == 2 * Pow2(4) && Pow2(4) == 2 * Pow2(3) && Pow2(3) == 2 * Pow2(2) && Pow2(2) == 2 * Pow2(1);
  }

  /** The step issues a reconcile command for w. */
  predicate Issues(f: Fleet, s: Step, w: WorkloadId) {
    && s == Reconciling(TickBody(w)) && TickEnabled(f, TickBody(w))
    && ReconcileVerdict(f.tables, w, f.tick.value.rows[w], f.tick.value.now).Triggered?
  }

  /** The step is the last write of a sent command of w: the desired state it implies. */
  predicate WritesDesired(f: Fleet, s: Step, w: WorkloadId) {
    && s.Control? && s.call.WriteDesired? && s.call.key in f.tables.rows
    && f.tables.rows[s.call.key].message.workload == w
  }

  /** What one step leaves of a workload row that exists: an outcome of a command of
      the current owner, a clear, an assignment, the write of a sent command and a
      reconcile command each change their own columns; every other step changes none. */
  function RowAfter(f: Fleet, s: Step, w: WorkloadId): Workload
    requires w in f.tables.workloads
  {
    var a := f.tables.workloads[w];
    if OutcomeFor(f, s, w, true) then RowOnSuccess(a, f.tables.rows[s.delivery.key].message.kind, f.clock)
    else if OutcomeFor(f, s, w, false) then RowOnFailure(a, f.clock)
    else if s == Control(Clear(w)) then a.(attempts := 0, nextAttemptAt := None, suspendedAt := None)
    else if s.Control? && s.call.Assign? && s.call.workload == w then
      a.(owner := Some(s.call.agent), generation := a.generation + 1)
    else if WritesDesired(f, s, w) then a.(desired := DesiredAfter(f.tables.rows[s.call.key].message.kind))
    else if Issues(f, s, w) then a.(desired := f.tick.value.rows[w].desired)
    else a
  }

  lemma OutcomeOnRow(t: Tables, k: Key, succeeded: bool, now: int, w: WorkloadId)
    requires w in t.workloads
    ensures var u := MarkOutcome(t, k, succeeded, now);
            w in u.workloads &&
            if !LandsOn(t, k, w) then u.workloads[w] == t.workloads[w]
            else if succeeded then u.workloads[w] == RowOnSuccess(t.workloads[w], t.rows[k].message.kind, now)
            else u.workloads[w] == RowOnFailure(t.workloads[w], now)
  {
    hide AfterSuccess, AfterFailure, RowOnSuccess, RowOnFailure;
    if LandsOn(t, k, w) {
      OutcomeRows(t.workloads[w], t.rows[k].message.kind, now);
    }
  }

  lemma CallOnRow(f: Fleet, c: Call, w: WorkloadId)
    requires CallEnabled(f, c) && w in f.tables.workloads
    ensures var u := ApplyCall(f, c).tables; w in u.workloads && u.workloads[w] == RowAfter(f, Control(c), w)
  {
    hide RowOnSuccess, RowOnFailure;
  }

  lemma DeliveryOnRow(f: Fleet, d: Delivery, w: WorkloadId)
    requires DeliveryEnabled(f, d) && w in f.tables.workloads
    ensures var u := ApplyDelivery(f, d).tables; w in u.workloads && u.workloads[w] == RowAfter(f, Network(d), w)
  {
    hide MarkOutcome, RowOnSuccess, RowOnFailure, Executed;
    var t := f.tables;
    match d
    case FailDispatch(k) =>
      assert Discard(t, k).rows == t.rows && Discard(t, k).workloads == t.workloads;
      OutcomeOnRow(Discard(t, k), k, false, f.clock, w);
    case ReceiveResult(k) => OutcomeOnRow(t, k, f.results[k], f.clock, w);
    case ExecuteSent(k) => ExecutedTables(f, k);
    case _ =>
  }

  lemma ReconcileOnRow(t: Tables, x: WorkloadId, row: Workload, tickNow: int, now: int, w: WorkloadId)
    requires w in t.workloads
    ensures var u := ReconcileOne(t, x, row, tickNow, now);
            w in u.workloads &&
            u.workloads[w] == if x == w && ReconcileVerdict(t, w, row, tickNow).Triggered?
                              then t.workloads[w].(desired := row.desired) else t.workloads[w]
  {
    hide InFlight, SnapshotVerdict;
  }

  /** Every step leaves every existing workload row as RowAfter says. */
  lemma StepOnRow(f: Fleet, s: Step, w: WorkloadId)
    requires Enabled(f, s) && w in f.tables.workloads
    ensures var u := Apply(f, s).tables; w in u.workloads && u.workloads[w] == RowAfter(f, s, w)
  {
    hide CallEnabled, DeliveryEnabled, ApplyCall, ApplyDelivery, RowOnSuccess, RowOnFailure, ReconcileOne, ReconcileVerdict;
    match s
    case Control(c) => CallOnRow(f, c, w);
    case Network(d) => DeliveryOnRow(f, d, w);
    case AgentSide(e) =>
    case Reconciling(p) =>
      if p.TickBody? {
        ReconcileOnRow(f.tables, p.workload, f.tick.value.rows[p.workload], f.tick.value.now, f.clock, w);
      }
  }

  /** The step delivers the outcome of a command that is not a start, stop or restart
      of a workload whose owner its agent still is. */
  predicate StaleOutcome(f: Fleet, s: Step) {
    && s.Network? && (s.delivery.FailDispatch? || s.delivery.ReceiveResult?)
    && (s.delivery.key in f.tables.rows ==> !Authoritative(f.tables, f.tables.rows[s.delivery.key].message))
  }

  /** An outcome from an agent that is no longer the owner changes no workload row. */
  lemma StaleOutcomeChangesNoWorkload(f: Fleet, s: Step)
    requires Enabled(f, s) && StaleOutcome(f, s)
    ensures Apply(f, s).tables.workloads == f.tables.workloads
  {
    hide CallEnabled, DeliveryEnabled, TickEnabled, ApplyCall, ApplyDelivery, ApplyTick;
    NoNewRowByDelivery(f, s.delivery);
    forall w | w in f.tables.workloads ensures Apply(f, s).tables.workloads[w] == f.tables.workloads[w] {
      StepOnRow(f, s, w);
    }
  }

  lemma ExecutedTables(f: Fleet, k: Key)
    requires k in f.tables.transit
    ensures Executed(f, k).tables == Discard(f.tables, k)
  {}

  // -------------------------------------------------------------- confirmation

  /** A start, stop or restart of w succeeded, and its agent is the one chosen
      when w reached the generation. */
  ghost predicate SucceededAt(t: Tables, chosen: Chosen, k: Key, w: WorkloadId, generation: nat) {
    && k in t.rows && t.rows[k].status.Succeeded? && t.rows[k].message.workload == w && !t.rows[k].message.kind.Update?
    && Owns(chosen, t.rows[k].message.agent, w, generation)
  }

  ghost predicate ConfirmedRow(t: Tables, chosen: Chosen, w: WorkloadId, row: Workload) {
    && row.observedGeneration <= row.generation
    && (row.observedGeneration > 0 ==> exists k :: SucceededAt(t, chosen, k, w, row.observedGeneration))
  }

  ghost predicate Confirmed(f: Fleet) {
    forall w :: w in f.tables.workloads ==> ConfirmedRow(f.tables, f.chosen, w, f.tables.workloads[w])
  }

  /** Assignments are never forgotten: a new one is for a generation never reached. */
  predicate ChosenKept(chosen: Chosen, later: Chosen) {
    forall x :: x in chosen ==> x in later && later[x] == chosen[x]
  }

  lemma StepKeepsChosen(f: Fleet, s: Step)
    requires Fenced(f) && Enabled(f, s)
    ensures ChosenKept(f.chosen, Apply(f, s).chosen)
  {
    hide FencedTables, FencedEntries, FencedReports, MarkOutcome, ReconcileOne, AssignUpdate, Execute;
    if s.Control? && s.call.Assign? {
      AssignFenced(f.tables, f.chosen, s.call.workload, s.call.agent);
    }
  }

  lemma SucceededStays(t: Tables, chosen: Chosen, u: Tables, later: Chosen, k: Key, w: WorkloadId, generation: nat)
    requires SucceededAt(t, chosen, k, w, generation) && RowsEvolve(t, u) && ChosenKept(chosen, later)
    ensures SucceededAt(u, later, k, w, generation)
  {
    assert RowEvolves(t.rows[k], u.rows[k]);
  }

  lemma SuccessMarksItsRow(f: Fleet, s: Step, w: WorkloadId)
    requires Fenced(f) && Enabled(f, s) && OutcomeFor(f, s, w, true)
    ensures SucceededAt(Apply(f, s).tables, Apply(f, s).chosen, s.delivery.key, w, f.tables.workloads[w].generation)
  {
    hide FencedEntries, FencedReports;
  }

  /** A success that lands leaves its own row succeeded, addressed to the agent
      chosen for the generation the workload row now confirms. */
  lemma SuccessConfirms(f: Fleet, s: Step, w: WorkloadId)
    requires Fenced(f) && Enabled(f, s) && OutcomeFor(f, s, w, true)
    ensures var g := Apply(f, s);
            && w in g.tables.workloads && ConfirmedRow(g.tables, g.chosen, w, g.tables.workloads[w])
            && g.tables.workloads[w].generation == f.tables.workloads[w].generation
            && g.tables.workloads[w].observedGeneration == f.tables.workloads[w].generation
  {
    hide Fenced, CallEnabled, ApplyCall, ApplyDelivery, ReconcileOne, SucceededAt;
    StepOnRow(f, s, w);
    SuccessMarksItsRow(f, s, w);
  }

  lemma RowStaysConfirmed(f: Fleet, s: Step, w: WorkloadId)
    requires Fenced(f) && Tokens(f) && Confirmed(f) && Enabled(f, s) && w in f.tables.workloads
    ensures var g := Apply(f, s);
            && w in g.tables.workloads && ConfirmedRow(g.tables, g.chosen, w, g.tables.workloads[w])
            && f.tables.workloads[w].generation <= g.tables.workloads[w].generation
            && f.tables.workloads[w].observedGeneration <= g.tables.workloads[w].observedGeneration
  {
    hide Fenced, Tokens, Enabled, Apply, OutcomeFor, RowsEvolve, ChosenKept, SucceededAt;
    var g := Apply(f, s);
    var a := f.tables.workloads[w];
    assert ConfirmedRow(f.tables, f.chosen, w, a);
    StepOnRow(f, s, w);
    StepKeepsTokens(f, s);
    StepKeepsChosen(f, s);
    if OutcomeFor(f, s, w, true) {
      SuccessConfirms(f, s, w);
    } else if a.observedGeneration > 0 {
      var k :| SucceededAt(f.tables, f.chosen, k, w, a.observedGeneration);
      SucceededStays(f.tables, f.chosen, g.tables, g.chosen, k, w, a.observedGeneration);
    }
  }

  lemma NoNewRowByDelivery(f: Fleet, d: Delivery)
    requires DeliveryEnabled(f, d)
    ensures ApplyDelivery(f, d).tables.workloads.Keys == f.tables.workloads.Keys
  {}

  lemma NoNewRowByTick(f: Fleet, p: TickPart)
    requires TickEnabled(f, p)
    ensures ApplyTick(f, p).tables.workloads.Keys == f.tables.workloads.Keys
  {
    hide InFlight, SnapshotVerdict, Assigned;
  }

  lemma NewRowByCall(f: Fleet, c: Call, w: WorkloadId)
    requires CallEnabled(f, c) && w !in f.tables.workloads && w in ApplyCall(f, c).tables.workloads
    ensures c.Create? && ApplyCall(f, c).tables.workloads[w] == NewWorkload(c.customer, c.spec)
  {}

  /** A row that appears in a step is a created one. */
  lemma NewRowIsCreated(f: Fleet, s: Step, w: WorkloadId)
    requires Enabled(f, s) && w !in f.tables.workloads && w in Apply(f, s).tables.workloads
    ensures s.Control? && s.call.Create? && Apply(f, s).tables.workloads[w] == NewWorkload(s.call.customer, s.call.spec)
  {
    hide CallEnabled, DeliveryEnabled, TickEnabled, ApplyCall, ApplyDelivery, ApplyTick;
    match s
    case Control(c) => NewRowByCall(f, c, w);
    case Network(d) => NoNewRowByDelivery(f, d);
    case AgentSide(e) =>
    case Reconciling(p) => NoNewRowByTick(f, p);
  }

  lemma StepKeepsConfirmed(f: Fleet, s: Step)
    requires Fenced(f) && Tokens(f) && Confirmed(f) && Enabled(f, s)
    ensures Confirmed(Apply(f, s))
  {
    hide Fenced, Tokens, Enabled, Apply, SucceededAt;
    var g := Apply(f, s);
    forall w | w in g.tables.workloads ensures ConfirmedRow(g.tables, g.chosen, w, g.tables.workloads[w]) {
      if w in f.tables.workloads {
        RowStaysConfirmed(f, s, w);
      } else {
        NewRowIsCreated(f, s, w);
      }
    }
  }

  ghost predicate Sound(f: Fleet) { Fenced(f) && Tokens(f) && Confirmed(f) }

  lemma InitSound(agents: seq<AgentRow>, clock: int)
    ensures Sound(Init(agents, clock))
  {}

  lemma StepKeepsSound(f: Fleet, s: Step)
    requires Sound(f) && Enabled(f, s)
    ensures Sound(Apply(f, s))
  {
    hide Fenced, Tokens, Confirmed, Enabled, Apply;
    StepKeepsFenced(f, s);
    StepKeepsTokens(f, s);
    StepKeepsConfirmed(f, s);
  }

  lemma {:induction false} ReachableIsSound(f: Fleet, steps: seq<Step>)
    requires Sound(f) && Runs(f, steps)
    ensures Sound(End(f, steps))
    decreases |steps|
  {
    hide Sound, Enabled, Apply;
    if steps != [] {
      StepKeepsSound(f, steps[0]);
      ReachableIsSound(Apply(f, steps[0]), steps[1..]);
    }
  }

  /** Over every run: generations and confirmed generations never go back, and a
      confirmed generation is at most the current one and has a succeeded command
      of the agent chosen for it. */
  lemma {:induction false} ConfirmationOnlyAdvances(f: Fleet, steps: seq<Step>, w: WorkloadId)
    requires Sound(f) && Runs(f, steps) && w in f.tables.workloads
    ensures var g := End(f, steps);
            && w in g.tables.workloads && ConfirmedRow(g.tables, g.chosen, w, g.tables.workloads[w])
            && f.tables.workloads[w].generation <= g.tables.workloads[w].generation
            && f.tables.workloads[w].observedGeneration <= g.tables.workloads[w].observedGeneration
    decreases |steps|
  {
    hide Fenced, Tokens, Enabled, Apply, ConfirmedRow;
    if steps != [] {
      RowStaysConfirmed(f, steps[0], w);
      StepKeepsSound(f, steps[0]);
      ConfirmationOnlyAdvances(Apply(f, steps[0]), steps[1..], w);
    }
  }

  /** Over every run a finished command stays exactly as it finished, and an
      accepted one never becomes pending again. */
  lemma {:induction false} FinishedStaysFinished(f: Fleet, steps: seq<Step>, k: Key)
    requires Tokens(f) && Runs(f, steps) && k in f.tables.rows
    ensures k in End(f, steps).tables.rows && RowEvolves(f.tables.rows[k], End(f, steps).tables.rows[k])
    decreases |steps|
  {
    hide Tokens, Enabled, Apply;
    if steps != [] {
      StepKeepsTokens(f, steps[0]);
      FinishedStaysFinished(Apply(f, steps[0]), steps[1..], k);
    }
  }

  /** The confirmed generation is the row's, not the command's: the two agree
      exactly when the command carries the current generation. */
  lemma ConfirmsTheRowsGeneration(t: Tables, k: Key, now: int)
    requires k in t.rows && Authoritative(t, t.rows[k].message)
    ensures var m := t.rows[k].message;
            MarkOutcome(t, k, true, now).workloads[m.workload].observedGeneration == m.generation
            <==> m.generation == t.workloads[m.workload].generation
  {}
}
