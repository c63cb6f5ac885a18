/** Bounded retry: how many commands the reconciler can issue for a workload that
    keeps failing, and what its backoff and suspension columns always mean. */
module Retry {
  import opened Wrappers
  import opened Plane
  import opened Fleet
  import opened Outcomes
  import opened Confirmation

  // ------------------------------------------------- backoff and suspension

  /** Five failures mean suspended; a pending retry means not suspended, one to
      four failures, and a wait of exactly thirty seconds doubled per failure. */
  predicate RetryRow(row: Workload) {
    && (row.attempts >= 5 ==> row.suspendedAt.Some?)
    && (row.nextAttemptAt.Some? ==>
          && row.suspendedAt.None? && 1 <= row.attempts < 5 && row.lastTransitionAt.Some?
          && row.nextAttemptAt.value == row.lastTransitionAt.value + 30_000 * Pow2(row.attempts))
  }

  ghost predicate RetryRows(f: Fleet) {
    forall w :: w in f.tables.workloads ==> RetryRow(f.tables.workloads[w])
  }

  /** The cap is for waits that never come up: with fewer than five failures the
      doubled wait is below thirty minutes. */
  lemma {:induction false} CapIsNeverReached(attempts: nat)
    ensures ReconcileBackoffMs(attempts) == 30_000 * Pow2(attempts) <==> attempts <= 5
  {
    if attempts > 6 {
      CapIsNeverReached(attempts - 1);
    } else {
      assert Pow2(1) == 2 && Pow2(2) == 4 && Pow2(3) == 8;
      assert Pow2(4) == 16 && Pow2(5) == 32 && Pow2(6) == 64;
    }
  }

  lemma FailureKeepsRetryRow(row: Workload, now: int)
    ensures RetryRow(RowOnFailure(row, now))
  {}

  lemma StepKeepsRetryRows(f: Fleet, s: Step)
    requires RetryRows(f) && Enabled(f, s)
    ensures RetryRows(Apply(f, s))
  {
    hide Enabled, Apply, OutcomeFor, RowOnFailure;
    forall w | w in Apply(f, s).tables.workloads ensures RetryRow(Apply(f, s).tables.workloads[w]) {
      if w in f.tables.workloads {
        StepOnRow(f, s, w);
        FailureKeepsRetryRow(f.tables.workloads[w], f.clock);
      } else {
        NewRowIsCreated(f, s, w);
      }
    }
  }

  // -------------------------------------------- one reconciler command at a time

  predicate ReconcilersOwn(t: Tables, k: Key, w: WorkloadId) {
    k in t.rows && t.rows[k].origin.Reconciler? && t.rows[k].message.workload == w && Unfinished(t.rows[k])
  }

  /** No workload has two unfinished commands issued by the reconciler. */
  ghost predicate SingleProbe(t: Tables) {
    forall j, k, w :: ReconcilersOwn(t, j, w) && ReconcilersOwn(t, k, w) ==> j == k
  }

  /** The only step that adds a reconciler's row for w issues it when nothing of
      w's is in flight, to the owner, and leaves the workload rows' records alone. */
  lemma CallAddsNoProbe(f: Fleet, c: Call, k: Key)
    requires Tokens(f) && CallEnabled(f, c)
    ensures var u := ApplyCall(f, c).tables; k in u.rows && u.rows[k].origin.Reconciler? ==> k in f.tables.rows
  {}

  lemma DeliveryAddsNoRow(f: Fleet, d: Delivery)
    requires DeliveryEnabled(f, d)
    ensures ApplyDelivery(f, d).tables.rows.Keys == f.tables.rows.Keys
  {
    hide Executed, AfterSuccess, AfterFailure, Authoritative;
    if d.ExecuteSent? {
      ExecutedTables(f, d.key);
    }
  }

  lemma TickAddsOneProbe(f: Fleet, p: TickPart, k: Key)
    requires Tokens(f) && TickEnabled(f, p)
    ensures var u := ApplyTick(f, p).tables;
            k in u.rows && k !in f.tables.rows ==>
              && p.TickBody? && Issues(f, Reconciling(p), p.workload) && k == f.tables.nextKey
              && u.rows[k].message.workload == p.workload
  {
    hide InFlight, SnapshotVerdict, Assigned;
  }

  lemma NewProbe(f: Fleet, s: Step, k: Key)
    requires Tokens(f) && Enabled(f, s)
    requires k in Apply(f, s).tables.rows && k !in f.tables.rows && Apply(f, s).tables.rows[k].origin.Reconciler?
    ensures Issues(f, s, Apply(f, s).tables.rows[k].message.workload) && k == f.tables.nextKey
  {
    hide Tokens, CallEnabled, DeliveryEnabled, TickEnabled, ApplyCall, ApplyDelivery, ApplyTick, ReconcileVerdict;
    match s
    case Control(c) => CallAddsNoProbe(f, c, k);
    case Network(d) => DeliveryAddsNoRow(f, d);
    case AgentSide(e) =>
    case Reconciling(p) => TickAddsOneProbe(f, p, k);
  }

  lemma OldProbe(f: Fleet, s: Step, k: Key, w: WorkloadId)
    requires Tokens(f) && Enabled(f, s) && ReconcilersOwn(Apply(f, s).tables, k, w) && k in f.tables.rows
    ensures ReconcilersOwn(f.tables, k, w)
  {
    hide Tokens, Enabled, Apply;
    StepKeepsTokens(f, s);
    assert RowEvolves(f.tables.rows[k], Apply(f, s).tables.rows[k]);
  }

  lemma NothingInFlight(f: Fleet, s: Step, w: WorkloadId, k: Key)
    requires Issues(f, s, w)
    ensures !ReconcilersOwn(f.tables, k, w)
  {}

  lemma StepKeepsSingleProbe(f: Fleet, s: Step)
    requires Tokens(f) && SingleProbe(f.tables) && Enabled(f, s)
    ensures SingleProbe(Apply(f, s).tables)
  {
    hide Tokens, Enabled, Apply, Issues;
    var u := Apply(f, s).tables;
    forall j, k, w | ReconcilersOwn(u, j, w) && ReconcilersOwn(u, k, w) ensures j == k {
      if j in f.tables.rows {
        OldProbe(f, s, j, w);
      } else {
        NewProbe(f, s, j);
        NothingInFlight(f, s, w, k);
      }
      if k in f.tables.rows {
        OldProbe(f, s, k, w);
      } else {
        NewProbe(f, s, k);
        NothingInFlight(f, s, w, j);
      }
    }
  }

  // --------------------------------------------------------------- the budget

  /** An unfinished reconciler's command of w addressed to its current owner. */
  predicate ProbeAt(t: Tables, k: Key, w: WorkloadId)
    requires w in t.workloads
  {
    ReconcilersOwn(t, k, w) && t.workloads[w].owner == Some(t.rows[k].message.agent)
  }

  ghost predicate Probing(t: Tables, w: WorkloadId)
    requires w in t.workloads
  {
    exists k :: ProbeAt(t, k, w)
  }

  /** Failures so far, counting a command that has yet to answer. */
  ghost function Level(t: Tables, w: WorkloadId): nat
    requires w in t.workloads
  {
    t.workloads[w].attempts + if Probing(t, w) then 1 else 0
  }

  /** A success for w, a clear of w, or a reassignment of w. */
  predicate Disturbs(f: Fleet, s: Step, w: WorkloadId) {
    OutcomeFor(f, s, w, true) || s == Control(Clear(w)) || (s.Control? && s.call.Assign? && s.call.workload == w)
  }

  lemma CallFinishesNothing(f: Fleet, c: Call, k: Key)
    requires CallEnabled(f, c) && Tokens(f) && k in f.tables.rows
    ensures k in ApplyCall(f, c).tables.rows && ApplyCall(f, c).tables.rows[k] == f.tables.rows[k]
  {}

  lemma TickFinishesNothing(f: Fleet, p: TickPart, k: Key)
    requires TickEnabled(f, p) && Tokens(f) && k in f.tables.rows
    ensures k in ApplyTick(f, p).tables.rows && ApplyTick(f, p).tables.rows[k] == f.tables.rows[k]
  {
    hide InFlight, SnapshotVerdict, Assigned;
  }

  lemma DeliveryFinishesItsOwn(f: Fleet, d: Delivery, k: Key)
    requires DeliveryEnabled(f, d) && k in f.tables.rows && Unfinished(f.tables.rows[k])
    ensures var u := ApplyDelivery(f, d).tables;
            k in u.rows && (Unfinished(u.rows[k]) || ((d.FailDispatch? || d.ReceiveResult?) && d.key == k))
  {}

  /** Only its own outcome finishes a command. */
  lemma FinishingIsAnOutcome(f: Fleet, s: Step, k: Key)
    requires Tokens(f) && Enabled(f, s) && k in f.tables.rows && Unfinished(f.tables.rows[k])
    ensures var u := Apply(f, s).tables;
            k in u.rows &&
            (Unfinished(u.rows[k]) || (s.Network? && (s.delivery.FailDispatch? || s.delivery.ReceiveResult?) && s.delivery.key == k))
  {
    hide Tokens, CallEnabled, DeliveryEnabled, TickEnabled, ApplyCall, ApplyDelivery, ApplyTick;
    match s
    case Control(c) => CallFinishesNothing(f, c, k);
    case Network(d) => DeliveryFinishesItsOwn(f, d, k);
    case AgentSide(e) =>
    case Reconciling(p) => TickFinishesNothing(f, p, k);
  }

  /** The answer to a probe of the current owner lands on its workload's row. */
  lemma ProbeOutcomeLands(f: Fleet, s: Step, k: Key, w: WorkloadId)
    requires Tokens(f) && Enabled(f, s) && w in f.tables.workloads && ProbeAt(f.tables, k, w)
    requires s.Network? && (s.delivery.FailDispatch? || s.delivery.ReceiveResult?) && s.delivery.key == k
    ensures OutcomeFor(f, s, w, true) || OutcomeFor(f, s, w, false)
  {
    assert f.tables.rows[k].message.kind in {Start, Stop};
  }

  lemma ProbeStaysOrFails(f: Fleet, s: Step, k: Key, w: WorkloadId)
    requires Tokens(f) && Enabled(f, s) && w in f.tables.workloads && !Disturbs(f, s, w)
    requires ProbeAt(f.tables, k, w)
    ensures w in Apply(f, s).tables.workloads && (ProbeAt(Apply(f, s).tables, k, w) || OutcomeFor(f, s, w, false))
  {
    hide Tokens, Enabled, Apply, OutcomeFor, RowOnFailure;
    StepOnRow(f, s, w);
    StepKeepsTokens(f, s);
    FinishingIsAnOutcome(f, s, k);
    if Unfinished(Apply(f, s).tables.rows[k]) {
      assert RowEvolves(f.tables.rows[k], Apply(f, s).tables.rows[k]);
      OwnerKept(f, s, w);
    } else {
      ProbeOutcomeLands(f, s, k, w);
    }
  }

  lemma OwnerKept(f: Fleet, s: Step, w: WorkloadId)
    requires Enabled(f, s) && w in f.tables.workloads && !Disturbs(f, s, w)
    ensures w in Apply(f, s).tables.workloads
    ensures var a, b := f.tables.workloads[w], Apply(f, s).tables.workloads[w];
            && b.owner == a.owner
            && if OutcomeFor(f, s, w, false) then b == RowOnFailure(a, f.clock)
               else b.attempts == a.attempts && b.suspendedAt == a.suspendedAt
  {
    hide Enabled, Apply, OutcomeFor;
    StepOnRow(f, s, w);
  }

  lemma LevelNeverFalls(f: Fleet, s: Step, w: WorkloadId)
    requires Tokens(f) && Enabled(f, s) && w in f.tables.workloads && !Disturbs(f, s, w)
    ensures w in Apply(f, s).tables.workloads && Level(f.tables, w) <= Level(Apply(f, s).tables, w)
  {
    hide Tokens, Enabled, Apply, OutcomeFor, Disturbs, ProbeAt;
    OwnerKept(f, s, w);
    if Probing(f.tables, w) {
      var k :| ProbeAt(f.tables, k, w);
      ProbeStaysOrFails(f, s, k, w);
    }
  }

  lemma IssueRaisesLevel(f: Fleet, s: Step, w: WorkloadId)
    requires Enabled(f, s) && w in f.tables.workloads && Issues(f, s, w)
    ensures w in Apply(f, s).tables.workloads && Level(Apply(f, s).tables, w) == Level(f.tables, w) + 1
    ensures Apply(f, s).tables.workloads[w].attempts == f.tables.workloads[w].attempts
  {
    var u := Apply(f, s).tables;
    forall k ensures !ProbeAt(f.tables, k, w) {
      NothingInFlight(f, s, w, k);
    }
    assert ProbeAt(u, f.tables.nextKey, w);
  }

  /** The running tick still has w to visit, and read its row unsuspended. */
  predicate Armed(f: Fleet, w: WorkloadId) {
    && f.tick.Some? && w in f.tick.value.todo && w in f.tick.value.rows
    && f.tick.value.rows[w].suspendedAt.None?
  }

  ghost function OnTimeBudget(f: Fleet, w: WorkloadId): nat
    requires w in f.tables.workloads
  {
    if Level(f.tables, w) < MAX_RECONCILE_ATTEMPTS then MAX_RECONCILE_ATTEMPTS - Level(f.tables, w) else 0
  }

  function LateBudget(f: Fleet, w: WorkloadId): nat
    requires w in f.tables.workloads
  {
    if f.tables.workloads[w].attempts < MAX_RECONCILE_ATTEMPTS || Armed(f, w) then 1 else 0
  }

  /** A late issue: the row had reached its five failures before this tick got to it. */
  predicate IssuesLate(f: Fleet, s: Step, w: WorkloadId) {
    && Issues(f, s, w)
    && w in f.tables.workloads && f.tables.workloads[w].attempts >= MAX_RECONCILE_ATTEMPTS
  }

  /** After five failures no new tick is armed. */
  lemma ArmedOnlyByAnEarlyTick(f: Fleet, s: Step, w: WorkloadId)
    requires RetryRows(f) && Enabled(f, s) && w in f.tables.workloads
    requires f.tables.workloads[w].attempts >= MAX_RECONCILE_ATTEMPTS && Armed(Apply(f, s), w)
    ensures Armed(f, w) && !Issues(f, s, w)
  {
    hide CallEnabled, DeliveryEnabled, EventEnabled, ApplyCall, ApplyDelivery, ApplyEvent, ReconcileOne, ReconcileVerdict;
    assert RetryRow(f.tables.workloads[w]);
    if !s.Reconciling? {
      OnlyTicksTouchTheTick(f, s);
    }
  }

  lemma OnlyTicksTouchTheTick(f: Fleet, s: Step)
    requires Enabled(f, s) && !s.Reconciling?
    ensures Apply(f, s).tick == f.tick
  {
    hide MarkOutcome, Build, Record, AssignUpdate, Discard, MoveTo, Ack, SetDesired, ClearFailure, CreateRow;
  }

  lemma IssueIsArmed(f: Fleet, s: Step, w: WorkloadId)
    requires Issues(f, s, w)
    ensures Armed(f, w)
  {
    hide InFlight, Sendable;
  }

  lemma StepSpendsBudget(f: Fleet, s: Step, w: WorkloadId)
    requires Tokens(f) && RetryRows(f) && Enabled(f, s) && w in f.tables.workloads && !Disturbs(f, s, w)
    ensures w in Apply(f, s).tables.workloads
    ensures var late := if IssuesLate(f, s, w) then 1 else 0;
            && LateBudget(Apply(f, s), w) + late <= LateBudget(f, w)
            && OnTimeBudget(Apply(f, s), w) + (if Issues(f, s, w) then 1 - late else 0) <= OnTimeBudget(f, w)
  {
    hide Tokens, RetryRows, Enabled, Apply, OutcomeFor, Disturbs, Probing, Issues, Armed;
    LevelNeverFalls(f, s, w);
    OwnerKept(f, s, w);
    if Issues(f, s, w) {
      IssueRaisesLevel(f, s, w);
      IssueIsArmed(f, s, w);
    }
    if f.tables.workloads[w].attempts >= MAX_RECONCILE_ATTEMPTS && Armed(Apply(f, s), w) {
      ArmedOnlyByAnEarlyTick(f, s, w);
    }
  }

  // --------------------------------------------------------------- over a run

  /** No success, clear or reassignment of w anywhere in the run. */
  predicate Undisturbed(f: Fleet, steps: seq<Step>, w: WorkloadId)
    requires Runs(f, steps)
    decreases |steps|
  {
    steps == [] || (!Disturbs(f, steps[0], w) && Undisturbed(Apply(f, steps[0]), steps[1..], w))
  }

  function Issued(f: Fleet, steps: seq<Step>, w: WorkloadId): nat
    requires Runs(f, steps)
    decreases |steps|
  {
    if steps == [] then 0
    else (if Issues(f, steps[0], w) then 1 else 0) + Issued(Apply(f, steps[0]), steps[1..], w)
  }

  function IssuedLate(f: Fleet, steps: seq<Step>, w: WorkloadId): nat
    requires Runs(f, steps)
    decreases |steps|
  {
    if steps == [] then 0
    else (if IssuesLate(f, steps[0], w) then 1 else 0) + IssuedLate(Apply(f, steps[0]), steps[1..], w)
  }

  lemma {:induction false} RunSpendsBudget(f: Fleet, steps: seq<Step>, w: WorkloadId)
    requires Tokens(f) && RetryRows(f) && w in f.tables.workloads && Runs(f, steps) && Undisturbed(f, steps, w)
    ensures IssuedLate(f, steps, w) <= LateBudget(f, w)
    ensures Issued(f, steps, w) <= OnTimeBudget(f, w) + IssuedLate(f, steps, w)
    decreases |steps|
  {
    hide Tokens, RetryRows, Enabled, Apply, Disturbs, Issues, OnTimeBudget, LateBudget, IssuesLate;
    if steps != [] {
      StepSpendsBudget(f, steps[0], w);
      LateIsAnIssue(f, steps[0], w);
      StepKeepsTokens(f, steps[0]);
      StepKeepsRetryRows(f, steps[0]);
      RunSpendsBudget(Apply(f, steps[0]), steps[1..], w);
    }
  }

  lemma LateIsAnIssue(f: Fleet, s: Step, w: WorkloadId)
    ensures IssuesLate(f, s, w) ==> Issues(f, s, w)
  {}

  /** The running tick still has w to visit, and the row it read asks for a command. */
  predicate Loaded(f: Fleet, w: WorkloadId) {
    && f.tick.Some? && w in f.tick.value.todo && w in f.tick.value.rows
    && SnapshotVerdict(f.tick.value.rows[w], f.tick.value.now).Triggered?
  }

  lemma IssuesIff(f: Fleet, s: Step, w: WorkloadId)
    ensures Issues(f, s, w) <==>
              s == Reconciling(TickBody(w)) && Loaded(f, w) && !InFlight(f.tables, w) && Sendable(f.tables, w)
  {
    hide InFlight, SnapshotVerdict, Sendable;
  }

  /** After five failures no step loads a tick that was not loaded. */
  lemma LoadedOnlyByAnEarlyTick(f: Fleet, s: Step, w: WorkloadId)
    requires RetryRows(f) && Enabled(f, s) && w in f.tables.workloads
    requires f.tables.workloads[w].attempts >= MAX_RECONCILE_ATTEMPTS && Loaded(Apply(f, s), w)
    ensures Loaded(f, w)
  {
    hide CallEnabled, DeliveryEnabled, EventEnabled, ApplyCall, ApplyDelivery, ApplyEvent, ReconcileOne;
    assert RetryRow(f.tables.workloads[w]);
    if !s.Reconciling? {
      OnlyTicksTouchTheTick(f, s);
    }
  }

  lemma {:induction false} NothingLoadedNothingIssued(f: Fleet, steps: seq<Step>, w: WorkloadId)
    requires RetryRows(f) && w in f.tables.workloads && Runs(f, steps) && Undisturbed(f, steps, w)
    requires f.tables.workloads[w].attempts >= MAX_RECONCILE_ATTEMPTS && !Loaded(f, w)
    ensures Issued(f, steps, w) == 0
    decreases |steps|
  {
    hide RetryRows, Enabled, Apply, Disturbs, Issues, Loaded, OutcomeFor;
    if steps != [] {
      IssuesIff(f, steps[0], w);
      OwnerKept(f, steps[0], w);
      StepKeepsRetryRows(f, steps[0]);
      if Loaded(Apply(f, steps[0]), w) {
        LoadedOnlyByAnEarlyTick(f, steps[0], w);
      }
      NothingLoadedNothingIssued(Apply(f, steps[0]), steps[1..], w);
    }
  }

  /** Over any run with no success, clear or reassignment of w, the reconciler issues
      at most 5 - attempts commands for w (one fewer if it is waiting for an answer),
      and at most one more, issued by a tick that had read the row before its fifth
      failure. From five failures on with no such tick pending it issues none. */
  lemma RetriesAreBounded(f: Fleet, steps: seq<Step>, w: WorkloadId)
    requires Tokens(f) && RetryRows(f) && w in f.tables.workloads && Runs(f, steps) && Undisturbed(f, steps, w)
    ensures var spent := Level(f.tables, w);
            && Issued(f, steps, w) - IssuedLate(f, steps, w) <= (if spent < 5 then 5 - spent else 0)
            && IssuedLate(f, steps, w) <= 1
            && (f.tables.workloads[w].attempts >= 5 && !Loaded(f, w) ==> Issued(f, steps, w) == 0)
  {
    hide Tokens, RetryRows, Enabled, Apply, Disturbs, Issues, Probing, IssuesLate, Loaded;
    RunSpendsBudget(f, steps, w);
    if f.tables.workloads[w].attempts >= MAX_RECONCILE_ATTEMPTS && !Loaded(f, w) {
      NothingLoadedNothingIssued(f, steps, w);
    }
  }

  /** No run undisturbed from here on has the reconciler issue a command for w. */
  ghost predicate IsOver(f: Fleet, w: WorkloadId) {
    forall steps :: Runs(f, steps) && Undisturbed(f, steps, w) ==> Issued(f, steps, w) == 0
  }

  /** With five failures and nothing in flight reconciliation is over exactly when
      there is no owner to send to, or no tick under way whose reading of the row
      asks for a command. */
  lemma OverIffNotLoaded(f: Fleet, w: WorkloadId)
    requires Tokens(f) && RetryRows(f) && w in f.tables.workloads && !InFlight(f.tables, w)
    requires f.tables.workloads[w].attempts >= MAX_RECONCILE_ATTEMPTS
    ensures IsOver(f, w) <==> !(Loaded(f, w) && Sendable(f.tables, w))
  {
    hide Tokens, RetryRows, Apply, Runs, Undisturbed, Issued, Loaded, InFlight;
    if Loaded(f, w) && Sendable(f.tables, w) {
      LoadedTickIssues(f, w);
    } else {
      forall steps | Runs(f, steps) && Undisturbed(f, steps, w) ensures Issued(f, steps, w) == 0 {
        if !Loaded(f, w) {
          NothingLoadedNothingIssued(f, steps, w);
        } else {
          NobodyToSendTo(f, steps, w);
        }
      }
    }
  }

  lemma LoadedTickIssues(f: Fleet, w: WorkloadId)
    requires Loaded(f, w) && Sendable(f.tables, w) && !InFlight(f.tables, w)
    ensures var steps := [Reconciling(TickBody(w))];
            Runs(f, steps) && Undisturbed(f, steps, w) && Issued(f, steps, w) == 1
  {
    hide Loaded, InFlight, Apply, Sendable;
    var s := Reconciling(TickBody(w));
    IssuesIff(f, s, w);
    var g := Apply(f, s);
    assert [s][1..] == [] && Runs(g, []) && Undisturbed(g, [], w) && Issued(g, [], w) == 0;
  }

  lemma {:induction false} NobodyToSendTo(f: Fleet, steps: seq<Step>, w: WorkloadId)
    requires w in f.tables.workloads && !Sendable(f.tables, w) && Runs(f, steps) && Undisturbed(f, steps, w)
    ensures Issued(f, steps, w) == 0
    decreases |steps|
  {
    hide Enabled, Apply, Disturbs, Issues, OutcomeFor;
    if steps != [] {
      IssuesIff(f, steps[0], w);
      OwnerKept(f, steps[0], w);
      NobodyToSendTo(Apply(f, steps[0]), steps[1..], w);
    }
  }

  // ------------------------------------------------- exactly when it is exceeded

  /** A failure of a command that the reconciler did not issue lands on w. */
  predicate StrayFailure(f: Fleet, s: Step, w: WorkloadId) {
    OutcomeFor(f, s, w, false) && !f.tables.rows[s.delivery.key].origin.Reconciler?
  }

  lemma ProbeKept(f: Fleet, s: Step, k: Key, w: WorkloadId)
    requires Tokens(f) && Enabled(f, s) && w in f.tables.workloads && !Disturbs(f, s, w) && ProbeAt(f.tables, k, w)
    requires OutcomeFor(f, s, w, false) ==> s.delivery.key != k
    ensures w in Apply(f, s).tables.workloads && ProbeAt(Apply(f, s).tables, k, w)
  {
    hide Tokens, Enabled, Apply, OutcomeFor, RowOnFailure;
    OwnerKept(f, s, w);
    StepKeepsTokens(f, s);
    FinishingIsAnOutcome(f, s, k);
    if Unfinished(Apply(f, s).tables.rows[k]) {
      assert RowEvolves(f.tables.rows[k], Apply(f, s).tables.rows[k]);
    } else {
      ProbeOutcomeLands(f, s, k, w);
    }
  }

  lemma ProbeWasThere(f: Fleet, s: Step, k: Key, w: WorkloadId)
    requires Tokens(f) && Enabled(f, s) && w in f.tables.workloads && !Disturbs(f, s, w) && !Issues(f, s, w)
    requires w in Apply(f, s).tables.workloads && ProbeAt(Apply(f, s).tables, k, w)
    ensures ProbeAt(f.tables, k, w)
  {
    hide Tokens, Enabled, Apply, Issues, OutcomeFor;
    OwnerKept(f, s, w);
    if k in f.tables.rows {
      OldProbe(f, s, k, w);
      StepKeepsTokens(f, s);
      assert RowEvolves(f.tables.rows[k], Apply(f, s).tables.rows[k]);
    } else {
      NewProbe(f, s, k);
    }
  }

  /** The reconciler's own failed command was w's probe, and is one no more. */
  lemma FailedProbe(f: Fleet, s: Step, w: WorkloadId) returns (k: Key)
    requires Tokens(f) && Enabled(f, s) && OutcomeFor(f, s, w, false) && w in f.tables.workloads && !StrayFailure(f, s, w)
    ensures ProbeAt(f.tables, k, w)
    ensures w in Apply(f, s).tables.workloads ==> !ProbeAt(Apply(f, s).tables, k, w)
  {
    hide AfterFailure, AfterSuccess;
    k := s.delivery.key;
  }

  /** The level rises with every command issued and every stray failure, and with
      nothing else: the failure of a probe turns it from pending to counted. */
  lemma LevelAccounts(f: Fleet, s: Step, w: WorkloadId)
    requires Tokens(f) && SingleProbe(f.tables) && Enabled(f, s) && w in f.tables.workloads && !Disturbs(f, s, w)
    ensures w in Apply(f, s).tables.workloads
    ensures Level(Apply(f, s).tables, w)
         == Level(f.tables, w) + (if Issues(f, s, w) then 1 else 0) + (if StrayFailure(f, s, w) then 1 else 0)
  {
    hide Tokens, Enabled, Apply, Issues, OutcomeFor, Disturbs, ProbeAt, RowOnFailure;
    OwnerKept(f, s, w);
    if Issues(f, s, w) {
      IssueRaisesLevel(f, s, w);
      IssueIsNoOutcome(f, s, w);
    } else {
      var g := Apply(f, s);
      FailureAddsOne(f.tables.workloads[w], f.clock);
      if OutcomeFor(f, s, w, false) && !StrayFailure(f, s, w) {
        var failed := FailedProbe(f, s, w);
        forall k ensures !ProbeAt(g.tables, k, w) {
          if ProbeAt(g.tables, k, w) {
            ProbeWasThere(f, s, k, w);
            OneProbe(f.tables, k, failed, w);
          }
        }
      } else {
        if Probing(f.tables, w) {
          var k :| ProbeAt(f.tables, k, w);
          StrayIsNoProbe(f, s, k, w);
          ProbeKept(f, s, k, w);
        }
        if Probing(g.tables, w) {
          var k :| ProbeAt(g.tables, k, w);
          ProbeWasThere(f, s, k, w);
        }
      }
    }
  }

  lemma FailureAddsOne(row: Workload, now: int)
    ensures RowOnFailure(row, now).attempts == row.attempts + 1
  {}

  lemma OneProbe(t: Tables, j: Key, k: Key, w: WorkloadId)
    requires SingleProbe(t) && w in t.workloads && ProbeAt(t, j, w) && ProbeAt(t, k, w)
    ensures j == k
  {}

  lemma StrayIsNoProbe(f: Fleet, s: Step, k: Key, w: WorkloadId)
    requires w in f.tables.workloads && ProbeAt(f.tables, k, w)
    requires OutcomeFor(f, s, w, false) ==> !f.tables.rows[s.delivery.key].origin.Reconciler?
    ensures OutcomeFor(f, s, w, false) ==> s.delivery.key != k
  {}

  lemma IssueIsNoOutcome(f: Fleet, s: Step, w: WorkloadId)
    requires Issues(f, s, w)
    ensures !OutcomeFor(f, s, w, false)
  {}

  /** Stray failures that land while attempts are left. */
  ghost function EarlyStrays(f: Fleet, steps: seq<Step>, w: WorkloadId): nat
    requires Runs(f, steps)
    decreases |steps|
  {
    if steps == [] then 0
    else
      (if StrayFailure(f, steps[0], w) && w in f.tables.workloads && Level(f.tables, w) < MAX_RECONCILE_ATTEMPTS then 1 else 0)
      + EarlyStrays(Apply(f, steps[0]), steps[1..], w)
  }

  lemma LateHasNoBudget(f: Fleet, s: Step, w: WorkloadId)
    requires IssuesLate(f, s, w)
    ensures OnTimeBudget(f, w) == 0
  {
    hide Issues, Probing;
  }

  lemma OnTimeHasBudget(f: Fleet, s: Step, w: WorkloadId)
    requires Issues(f, s, w) && !IssuesLate(f, s, w) && w in f.tables.workloads
    ensures OnTimeBudget(f, w) > 0
  {
    hide Issues;
    forall k ensures !ProbeAt(f.tables, k, w) {
      NothingInFlight(f, s, w, k);
    }
  }

  /** Every attempt there was is left at the end, was issued, or was used up by a
      failure of somebody else's command; and a late issue means none is left. */
  lemma {:induction false} AttemptsAccounted(f: Fleet, steps: seq<Step>, w: WorkloadId)
    requires Tokens(f) && RetryRows(f) && SingleProbe(f.tables)
    requires w in f.tables.workloads && Runs(f, steps) && Undisturbed(f, steps, w)
    ensures w in End(f, steps).tables.workloads
    ensures OnTimeBudget(f, w) + IssuedLate(f, steps, w)
         == OnTimeBudget(End(f, steps), w) + Issued(f, steps, w) + EarlyStrays(f, steps, w)
    ensures IssuedLate(f, steps, w) > 0 ==> OnTimeBudget(End(f, steps), w) == 0
    decreases |steps|
  {
    hide Tokens, RetryRows, SingleProbe, Enabled, Apply, Disturbs, Issues, IssuesLate, StrayFailure, Probing;
    if steps != [] {
      var s := steps[0];
      LevelAccounts(f, s, w);
      LateIsAnIssue(f, s, w);
      if IssuesLate(f, s, w) {
        LateHasNoBudget(f, s, w);
      } else if Issues(f, s, w) {
        OnTimeHasBudget(f, s, w);
      }
      if Issues(f, s, w) {
        IssueIsNoStray(f, s, w);
      }
      StepKeepsTokens(f, s);
      StepKeepsRetryRows(f, s);
      StepKeepsSingleProbe(f, s);
      AttemptsAccounted(Apply(f, s), steps[1..], w);
    }
  }

  lemma IssueIsNoStray(f: Fleet, s: Step, w: WorkloadId)
    requires Issues(f, s, w)
    ensures !StrayFailure(f, s, w)
  {}

  /** The tick gets to w with a reading that asks for a command, after the fifth
      failure and with nothing in flight. */
  predicate TooLate(f: Fleet, s: Step, w: WorkloadId) {
    && s == Reconciling(TickBody(w)) && Loaded(f, w) && !InFlight(f.tables, w) && Sendable(f.tables, w)
    && f.tables.workloads[w].attempts >= MAX_RECONCILE_ATTEMPTS
  }

  predicate NeverTooLate(f: Fleet, steps: seq<Step>, w: WorkloadId)
    requires Runs(f, steps)
    decreases |steps|
  {
    steps == [] || (!TooLate(f, steps[0], w) && NeverTooLate(Apply(f, steps[0]), steps[1..], w))
  }

  lemma {:induction false} NeverTooLateIff(f: Fleet, steps: seq<Step>, w: WorkloadId)
    requires Runs(f, steps)
    ensures NeverTooLate(f, steps, w) <==> IssuedLate(f, steps, w) == 0
    decreases |steps|
  {
    hide Enabled, Apply, Issues, Loaded, InFlight;
    if steps != [] {
      IssuesIff(f, steps[0], w);
      NeverTooLateIff(Apply(f, steps[0]), steps[1..], w);
    }
  }

  /** The documented limit holds of an undisturbed run exactly when no tick is too
      late in it, or the failure of somebody else's command used up an attempt; and
      when it is exceeded, then by one command. */
  lemma LimitHoldsIff(f: Fleet, steps: seq<Step>, w: WorkloadId)
    requires Tokens(f) && RetryRows(f) && SingleProbe(f.tables)
    requires w in f.tables.workloads && Runs(f, steps) && Undisturbed(f, steps, w)
    ensures var limit := if Level(f.tables, w) < 5 then 5 - Level(f.tables, w) else 0;
            && (Issued(f, steps, w) <= limit <==> NeverTooLate(f, steps, w) || EarlyStrays(f, steps, w) > 0)
            && Issued(f, steps, w) <= limit + 1
  {
    hide Tokens, RetryRows, SingleProbe, Enabled, Apply, Disturbs, Issues, IssuesLate, StrayFailure, Probing, Level, TooLate;
    AttemptsAccounted(f, steps, w);
    RunSpendsBudget(f, steps, w);
    NeverTooLateIff(f, steps, w);
  }

  /** The extra command needs the row to have changed under the tick: a tick that
      acts on the row it read never issues for a row with five failures. */
  lemma LateMeansChangedUnderTheTick(f: Fleet, s: Step, w: WorkloadId)
    requires RetryRows(f) && IssuesLate(f, s, w)
    ensures f.tick.value.rows[w] != f.tables.workloads[w]
  {
    hide InFlight, Sendable;
  }

  /** A suspension ends by a clear, and also by a failure that lands when fewer than
      four failures are counted, as after a success, which keeps the suspension. */
  lemma SuspensionEnds(f: Fleet, s: Step, w: WorkloadId)
    requires Enabled(f, s) && w in f.tables.workloads && f.tables.workloads[w].suspendedAt.Some?
    ensures w in Apply(f, s).tables.workloads
    ensures Apply(f, s).tables.workloads[w].suspendedAt.None? <==>
              s == Control(Clear(w)) || (OutcomeFor(f, s, w, false) && f.tables.workloads[w].attempts < 4)
  {
    hide Enabled, Apply, OutcomeFor;
    StepOnRow(f, s, w);
    OneOutcome(f, s, w);
  }

  lemma OneOutcome(f: Fleet, s: Step, w: WorkloadId)
    ensures !(OutcomeFor(f, s, w, true) && OutcomeFor(f, s, w, false))
    ensures OutcomeFor(f, s, w, true) || OutcomeFor(f, s, w, false) ==> s != Control(Clear(w))
  {}

  lemma InitRetries(agents: seq<AgentRow>, clock: int)
    ensures RetryRows(Init(agents, clock)) && SingleProbe(Init(agents, clock).tables)
  {}

  /** In every reachable state the backoff and suspension columns mean what RetryRow
      says, and no workload has two reconcile-issued commands in flight. */
  lemma {:induction false} ReachableRetries(f: Fleet, steps: seq<Step>)
    requires Tokens(f) && RetryRows(f) && SingleProbe(f.tables) && Runs(f, steps)
    ensures Tokens(End(f, steps)) && RetryRows(End(f, steps)) && SingleProbe(End(f, steps).tables)
    decreases |steps|
  {
    hide Tokens, RetryRows, SingleProbe, Enabled, Apply;
    if steps != [] {
      StepKeepsTokens(f, steps[0]);
      StepKeepsRetryRows(f, steps[0]);
      StepKeepsSingleProbe(f, steps[0]);
      ReachableRetries(Apply(f, steps[0]), steps[1..]);
    }
  }

  /** Every state the system can get into from the empty one: fenced, with one outcome
      per command, confirmed, with meaningful retry columns and single probes. */
  lemma EveryReachableState(agents: seq<AgentRow>, clock: int, steps: seq<Step>)
    requires Runs(Init(agents, clock), steps)
    ensures var g := End(Init(agents, clock), steps); Sound(g) && RetryRows(g) && SingleProbe(g.tables)
  {
    hide Sound, Tokens, RetryRows, SingleProbe, Runs, End;
    var f := Init(agents, clock);
    InitSound(agents, clock);
    InitRetries(agents, clock);
    ReachableIsSound(f, steps);
    assert Tokens(f) by { SoundHasTokens(f); }
    ReachableRetries(f, steps);
  }

  lemma SoundHasTokens(f: Fleet)
    requires Sound(f)
    ensures Tokens(f)
  {}
}
