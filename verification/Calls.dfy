/** The control plane's calls, left to themselves, are runs of the steps that Fleet
    interleaves: what is proved of all runs is proved of them. */
module Calls {
  import opened Wrappers
  import opened Plane
  import opened ControlPlane
  import opened Runner
  import opened Outcomes
  import opened Fleet
  import opened AgentDrain
  import D = AgentDrainTheorems

  /** recordAndEnqueueCommand writes the row and then enqueues. */
  lemma RecordAndEnqueueIsARun(f: Fleet, t: Tables, m: Message, origin: Origin)
    requires f.tables == Build(t, m, origin)
    ensures var steps := [Control(RecordRow(t.nextKey)), Control(EnqueueJob(t.nextKey))];
            Runs(f, steps) && End(f, steps) == f.(tables := Issue(t, m, origin, f.clock))
  {
    Two(f, Control(RecordRow(t.nextKey)), Control(EnqueueJob(t.nextKey)));
  }

  function AssignSteps(f: Fleet, w: WorkloadId, agent: AgentId): seq<Step> {
    var k := f.tables.nextKey;
    [Control(Assign(w, agent)), Control(RecordRow(k)), Control(EnqueueJob(k))]
  }

  lemma AssignIsARun(f: Fleet, w: WorkloadId, agent: AgentId)
    requires AssignWorkload(f.tables, w, agent, f.clock).Some?
    ensures Runs(f, AssignSteps(f, w, agent))
    ensures var g := End(f, AssignSteps(f, w, agent));
            g == f.(tables := AssignWorkload(f.tables, w, agent, f.clock).value, chosen := g.chosen)
  {
    hide Runs, End, Build, Record, MoveTo, HasAgent;
    var s, k, t := Control(Assign(w, agent)), f.tables.nextKey, f.tables;
    var row := t.workloads[w].(owner := Some(agent), generation := t.workloads[w].generation + 1);
    RecordAndEnqueueIsARun(Apply(f, s), t.(workloads := t.workloads[w := row]),
                           Message(agent, w, Update(row.spec), row.generation), Admin);
    Chain(f, s, [Control(RecordRow(k)), Control(EnqueueJob(k))]);
    assert AssignSteps(f, w, agent) == [s] + [Control(RecordRow(k)), Control(EnqueueJob(k))];
  }

  lemma IssuedRow(t: Tables, m: Message, origin: Origin, now: int)
    ensures var u := Issue(t, m, origin, now);
            t.nextKey in u.rows && u.rows[t.nextKey] == Row(m, Pending, origin, now) && u.workloads == t.workloads
  {}

  function SendSteps(f: Fleet, w: WorkloadId, kind: Kind): seq<Step> {
    var k := f.tables.nextKey;
    [Control(ReadForSend(w, kind)), Control(RecordRow(k)), Control(EnqueueJob(k)), Control(WriteDesired(k))]
  }

  lemma SendIsARun(f: Fleet, w: WorkloadId, kind: Kind)
    requires SendCommand(f.tables, w, kind, Admin, f.clock).Some? && !kind.Update?
    ensures Runs(f, SendSteps(f, w, kind))
    ensures End(f, SendSteps(f, w, kind)) == f.(tables := SendCommand(f.tables, w, kind, Admin, f.clock).value)
  {
    hide Runs, End, Issue, Build;
    var s0, s3, k := Control(ReadForSend(w, kind)), Control(WriteDesired(f.tables.nextKey)), f.tables.nextKey;
    var m := CommandFor(f.tables, w, kind);
    var f1 := Apply(f, s0);
    RecordAndEnqueueIsARun(f1, f.tables, m, Admin);
    var mid := [Control(RecordRow(k)), Control(EnqueueJob(k))];
    var f3 := End(f1, mid);
    IssuedRow(f.tables, m, Admin, f.clock);
    NoSteps(Apply(f3, s3));
    Chain(f3, s3, []);
    RunsConcat(f1, mid, [s3] + []);
    Chain(f, s0, mid + ([s3] + []));
    assert SendSteps(f, w, kind) == [s0] + (mid + ([s3] + []));
  }

  /** One entry of an inventory. */
  lemma FenceIsARun(f: Fleet, r: Report) returns (steps: seq<Step>)
    requires r in f.reports
    ensures Runs(f, steps) && End(f, steps) == f.(tables := FenceAll(f.tables, [r], f.clock))
  {
    hide Runs, End;
    var s, k := Control(ReceiveReport(r)), f.tables.nextKey;
    assert [r][..0] == [] && FenceAll(f.tables, [], f.clock) == f.tables;
    var g := Apply(f, s);
    if Stale(f.tables, r) {
      RecordAndEnqueueIsARun(g, f.tables, FenceStop(r), Origin.Fencing);
      Chain(f, s, [Control(RecordRow(k)), Control(EnqueueJob(k))]);
      steps := [s] + [Control(RecordRow(k)), Control(EnqueueJob(k))];
    } else {
      NoSteps(g);
      Chain(f, s, []);
      steps := [s] + [];
    }
  }

  /** A whole inventory: its entries one after the other. */
  lemma {:induction false} InventoryIsARun(f: Fleet, reports: seq<Report>) returns (steps: seq<Step>)
    requires forall r :: r in reports ==> r in f.reports
    ensures Runs(f, steps) && End(f, steps) == f.(tables := FenceAll(f.tables, reports, f.clock))
  {
    hide Runs, End, Stale, Issue;
    if reports == [] {
      NoSteps(f);
      steps := [];
    } else {
      var n := |reports| - 1;
      var front := InventoryIsARun(f, reports[..n]);
      var g := End(f, front);
      var last := FenceIsARun(g, reports[n]);
      assert [reports[n]][..0] == [] && FenceAll(g.tables, [], f.clock) == g.tables;
      RunsConcat(f, front, last);
      steps := front + last;
    }
  }

  function Bodies(ids: seq<WorkloadId>): seq<Step> {
    seq(|ids|, i requires 0 <= i < |ids| => Reconciling(TickBody(ids[i])))
  }

  lemma {:induction false} BodiesAreARun(f: Fleet, ids: seq<WorkloadId>)
    requires f.tick.Some? && f.tick.value.now == f.clock
    requires forall w :: w in ids ==> w in f.tick.value.rows && w in f.tick.value.todo
    requires forall i, j :: 0 <= i < j < |ids| ==> ids[i] != ids[j]
    ensures Runs(f, Bodies(ids))
    ensures var g := End(f, Bodies(ids));
            && g == f.(tables := ReconcileAll(f.tables, ids, f.tick.value.rows, f.clock), tick := g.tick)
            && g.tick.Some? && g.tick.value == f.tick.value.(todo := g.tick.value.todo)
            && (forall w :: w in f.tick.value.todo && w !in ids ==> w in g.tick.value.todo)
  {
    hide Runs, End, ReconcileOne;
    if ids == [] {
      NoSteps(f);
      assert Bodies(ids) == [];
    } else {
      var n := |ids| - 1;
      var w := ids[n];
      BodiesAreARun(f, ids[..n]);
      var g := End(f, Bodies(ids[..n]));
      assert w in ids;
      NoSteps(Apply(g, Reconciling(TickBody(w))));
      Chain(g, Reconciling(TickBody(w)), []);
      RunsConcat(f, Bodies(ids[..n]), [Reconciling(TickBody(w))] + []);
      assert Bodies(ids) == Bodies(ids[..n]) + ([Reconciling(TickBody(w))] + []);
    }
  }

  /** A reconciliation tick that takes the lock and is not interleaved. */
  lemma TickIsARun(f: Fleet, ids: seq<WorkloadId>)
    requires f.tick.None? && Enumerates(ids, Assigned(f.tables))
    ensures var steps := [Reconciling(BeginTick)] + (Bodies(ids) + [Reconciling(EndTick)]);
            Runs(f, steps) && End(f, steps) == f.(tables := ReconcileAll(f.tables, ids, Assigned(f.tables), f.clock))
  {
    hide Runs, End, ReconcileAll;
    var g := Apply(f, Reconciling(BeginTick));
    BodiesAreARun(g, ids);
    var h := End(g, Bodies(ids));
    NoSteps(Apply(h, Reconciling(EndTick)));
    Chain(h, Reconciling(EndTick), []);
    assert [Reconciling(EndTick)] + [] == [Reconciling(EndTick)];
    RunsConcat(g, Bodies(ids), [Reconciling(EndTick)]);
    Chain(f, Reconciling(BeginTick), Bodies(ids) + [Reconciling(EndTick)]);
  }

  /** A drain's stop of the agent a workload left, at the generation it left it with. */
  lemma HeldStopIsARun(f: Fleet, r: Report)
    requires r in f.held
    ensures var k := f.tables.nextKey;
            var steps := [Control(StopHeld(r))] + [Control(RecordRow(k)), Control(EnqueueJob(k))];
            && Runs(f, steps)
            && End(f, steps) == f.(tables := Issue(f.tables, FenceStop(r), Draining, f.clock), held := f.held - {r})
  {
    hide Runs, End;
    var k := f.tables.nextKey;
    var g := Apply(f, Control(StopHeld(r)));
    RecordAndEnqueueIsARun(g, f.tables, FenceStop(r), Draining);
    Chain(f, Control(StopHeld(r)), [Control(RecordRow(k)), Control(EnqueueJob(k))]);
  }

  lemma StartMovedIsARun(f: Fleet, w: WorkloadId, row: Workload) returns (steps: seq<Step>)
    requires Sendable(f.tables, w)
    ensures Runs(f, steps) && End(f, steps) == f.(tables := StartMoved(f.tables, w, row, f.clock))
  {
    hide Runs, End;
    if row.desired.ShouldRun? {
      steps := SendSteps(f, w, Start);
      SendIsARun(f, w, Start);
    } else {
      steps := [];
      NoSteps(f);
    }
  }

  lemma AssignedIsSendable(t: Tables, w: WorkloadId, agent: AgentId, now: int)
    requires AssignWorkload(t, w, agent, now).Some?
    ensures Sendable(AssignWorkload(t, w, agent, now).value, w)
  {}

  /** A drain's relocation of one workload. */
  lemma RelocationIsARun(f: Fleet, p: Progress, drained: AgentId, w: WorkloadId) returns (steps: seq<Step>)
    requires p.tables == f.tables && w in f.tables.workloads && f.tables.workloads[w].owner == Some(drained)
    requires DrainOne(p, drained, w, f.tables.workloads[w], f.clock).stranded == p.stranded
    ensures Runs(f, steps)
    ensures var g := End(f, steps);
            g == f.(tables := DrainOne(p, drained, w, f.tables.workloads[w], f.clock).tables, chosen := g.chosen, held := g.held)
  {
    hide Runs, End, AssignWorkload, Issue, StartMoved, Target;
    var row, r := f.tables.workloads[w], Report(drained, w, f.tables.workloads[w].generation);
    var target := Target(f.tables, drained, w, row, f.clock).value;
    var f1 := Apply(f, Control(HoldForDrain(w)));
    var assign := AssignSteps(f1, w, target);
    AssignIsARun(f1, w, target);
    var f2 := End(f1, assign);
    AssignedIsSendable(f1.tables, w, target, f1.clock);
    var start := StartMovedIsARun(f2, w, row);
    var f3 := End(f2, start);
    HeldStopIsARun(f3, r);
    var k := f3.tables.nextKey;
    var stop := [Control(StopHeld(r))] + [Control(RecordRow(k)), Control(EnqueueJob(k))];
    RunsConcat(f2, start, stop);
    RunsConcat(f1, assign, start + stop);
    Chain(f, Control(HoldForDrain(w)), assign + (start + stop));
    steps := [Control(HoldForDrain(w))] + (assign + (start + stop));
  }

  /** What the drain has left of a workload it has not come to. */
  lemma NotYetDrained(t: Tables, drained: AgentId, ids: seq<WorkloadId>, p: Progress, w: WorkloadId)
    requires D.DrainedSoFar(t, drained, ids, p) && w in t.workloads && w !in ids
    ensures w in p.tables.workloads && p.tables.workloads[w] == t.workloads[w]
    ensures p.tables.agents == t.agents && FreshKeys(p.tables)
  {
    hide D.HasHost, D.HostFor, D.GoodMoves, D.AllCommands;
    D.SplitMembers(t, drained, ids, w);
  }

  /** One round of the drain: a relocation, or nothing. */
  lemma RoundIsARun(f: Fleet, p: Progress, drained: AgentId, w: WorkloadId) returns (steps: seq<Step>)
    requires p.tables == f.tables && w in f.tables.workloads && f.tables.workloads[w].owner == Some(drained)
    requires D.DistinctIds(f.tables.agents) && FreshKeys(f.tables)
    ensures Runs(f, steps)
    ensures var g := End(f, steps);
            g == f.(tables := DrainOne(p, drained, w, f.tables.workloads[w], f.clock).tables, chosen := g.chosen, held := g.held)
  {
    hide Runs, End, DrainOne, FreshKeys, D.DistinctIds, D.HasHost, D.HostFor, D.Added;
    var row := f.tables.workloads[w];
    if D.HasHost(f.tables.agents, drained, row.spec) {
      D.RelocationMoves(p, drained, w, row, f.clock);
      steps := RelocationIsARun(f, p, drained, w);
    } else {
      D.StrandingStays(p, drained, w, row, f.clock);
      NoSteps(f);
      steps := [];
    }
  }

  /** The whole drain, its rounds at the times the clock gives: what is proved of all
      runs is proved of a drain that nothing interrupts. */
  lemma {:induction false} DrainIsARun(f: Fleet, drained: AgentId, ids: seq<WorkloadId>, clock: nat -> int) returns (steps: seq<Step>)
    requires D.DistinctIds(f.tables.agents) && FreshKeys(f.tables)
    requires forall w :: w in ids ==> w in f.tables.workloads && f.tables.workloads[w].owner == Some(drained)
    requires forall i, j :: 0 <= i < j < |ids| ==> ids[i] != ids[j]
    requires (forall i, j :: 0 <= i < j < |ids| ==> clock(i) <= clock(j)) && (ids != [] ==> f.clock <= clock(0))
    ensures Runs(f, steps)
    ensures var g := End(f, steps);
            g == f.(tables := DrainAll(f.tables, drained, ids, f.tables.workloads, clock).tables,
                    clock := if ids == [] then f.clock else clock(|ids| - 1), chosen := g.chosen, held := g.held)
  {
    hide Runs, End, DrainOne, FreshKeys, D.DistinctIds, D.DrainedSoFar;
    if ids == [] {
      NoSteps(f);
      steps := [];
    } else {
      var n, t := |ids| - 1, f.tables;
      var front, w := ids[..n], ids[n];
      var x := DrainIsARun(f, drained, front, clock);
      var g, p := End(f, x), DrainAll(t, drained, front, t.workloads, clock);
      D.DrainKeepsDrained(t, drained, front, clock);
      NotYetDrained(t, drained, front, p, w);
      var wait := AgentSide(Elapse(clock(n) - g.clock));
      var h := Apply(g, wait);
      assert h == g.(clock := clock(n));
      var y := RoundIsARun(h, p, drained, w);
      Chain(g, wait, y);
      RunsConcat(f, x, [wait] + y);
      steps := x + ([wait] + y);
    }
  }

  // ---------------------------------------------- commands from start to end

  /** An administrator's command to an owner that is away: it fails at dispatch. */
  function UndeliveredSteps(f: Fleet, w: WorkloadId, kind: Kind): seq<Step> {
    SendSteps(f, w, kind) + [Network(FailDispatch(f.tables.nextKey))]
  }

  lemma SentTables(f: Fleet, w: WorkloadId, kind: Kind)
    requires Tokens(f) && Sendable(f.tables, w) && !kind.Update?
    ensures SendCommand(f.tables, w, kind, Admin, f.clock).Some?
    ensures var (t, u, k) := (f.tables, SendCommand(f.tables, w, kind, Admin, f.clock).value, f.tables.nextKey);
            && u.workloads == t.workloads[w := t.workloads[w].(desired := DesiredAfter(kind))]
            && u.rows == t.rows[k := Row(CommandFor(t, w, kind), Pending, Admin, f.clock)]
            && u.transit == t.transit[k := Packet(CommandFor(t, w, kind), Admin, Queued)]
            && u.agents == t.agents && k !in t.transit && k !in t.rows && k !in f.results
  {}

  lemma UndeliveredFails(f: Fleet, w: WorkloadId, kind: Kind)
    requires Tokens(f) && Sendable(f.tables, w) && !kind.Update?
    requires f.tables.workloads[w].owner.value !in f.connected
    ensures Runs(f, UndeliveredSteps(f, w, kind))
    ensures var (t, g, k) := (f.tables, End(f, UndeliveredSteps(f, w, kind)), f.tables.nextKey);
            && g == f.(tables := g.tables)
            && g.tables.workloads == t.workloads[w := AfterFailure(t.workloads[w].(desired := DesiredAfter(kind)), Broken, f.clock)]
            && g.tables.rows == t.rows[k := Row(CommandFor(t, w, kind), Failed, Admin, f.clock)]
  {
    hide Runs, End, SendCommand, AfterFailure, AfterSuccess, Tokens;
    SentTables(f, w, kind);
    SendIsARun(f, w, kind);
    var g := End(f, SendSteps(f, w, kind));
    Alone(g, Network(FailDispatch(f.tables.nextKey)));
    RunsConcat(f, SendSteps(f, w, kind), [Network(FailDispatch(f.tables.nextKey))]);
  }

  /** An administrator's command to a connected owner that executes it successfully. */
  function DeliveredSteps(f: Fleet, w: WorkloadId, kind: Kind): seq<Step> {
    var k := f.tables.nextKey;
    SendSteps(f, w, kind) + [Network(Deliver(k)), Network(ExecuteSent(k)), Network(ReceiveResult(k))]
  }

  lemma DeliveredSucceeds(f: Fleet, w: WorkloadId, kind: Kind, e: Entry)
    requires Tokens(f) && Sendable(f.tables, w) && !kind.Update?
    requires f.tables.workloads[w].owner.value in f.connected
    requires Execute(EntryAt(f, Slot(f.tables.workloads[w].owner.value, w)), kind, f.tables.workloads[w].generation) == (Some(e), true)
    ensures Runs(f, DeliveredSteps(f, w, kind))
    ensures var (t, g) := (f.tables, End(f, DeliveredSteps(f, w, kind)));
            && g == f.(tables := g.tables, entries := g.entries, acks := g.acks)
            && g.entries == f.entries[Slot(t.workloads[w].owner.value, w) := e]
            && g.tables.workloads == t.workloads[w := AfterSuccess(
                 t.workloads[w].(desired := DesiredAfter(kind)), ObservedStateFor(kind, true).value, f.clock)]
  {
    hide Runs, End, SendCommand, AfterFailure, AfterSuccess, Tokens, Execute;
    SentTables(f, w, kind);
    SendIsARun(f, w, kind);
    var k := f.tables.nextKey;
    var g := End(f, SendSteps(f, w, kind));
    ExecutedAndAnswered(g, k, w, e);
    RunsConcat(f, SendSteps(f, w, kind), [Network(Deliver(k)), Network(ExecuteSent(k)), Network(ReceiveResult(k))]);
  }

  lemma ExecutedAndAnswered(f: Fleet, k: Key, w: WorkloadId, e: Entry)
    requires At(f, k, Queued) && k in f.tables.rows && k !in f.results
    requires var m := f.tables.transit[k].message;
             && f.tables.rows[k].message == m && m.agent in f.connected && m.workload == w && Authoritative(f.tables, m)
             && Execute(EntryAt(f, Slot(m.agent, w)), m.kind, m.generation) == (Some(e), true)
    ensures var steps := [Network(Deliver(k)), Network(ExecuteSent(k)), Network(ReceiveResult(k))];
            && Runs(f, steps)
            && var (t, m, g) := (f.tables, f.tables.rows[k].message, End(f, steps));
               && g == f.(tables := g.tables, entries := g.entries, acks := g.acks)
               && g.entries == f.entries[Slot(m.agent, w) := e]
               && g.tables.workloads == t.workloads[w := AfterSuccess(t.workloads[w], ObservedStateFor(m.kind, true).value, f.clock)]
               && g.tables.rows == t.rows[k := t.rows[k].(status := Succeeded)]
  {
    hide Runs, End, AfterFailure, AfterSuccess, Execute;
    var s0, s1, s2 := Network(Deliver(k)), Network(ExecuteSent(k)), Network(ReceiveResult(k));
    var f1 := Apply(f, s0);
    assert EntryAt(f1, Slot(f.tables.transit[k].message.agent, w)) == EntryAt(f, Slot(f.tables.transit[k].message.agent, w));
    var f2 := Apply(f1, s1);
    assert f2.results == f.results[k := true] && f2.tables.rows == f.tables.rows && f2.tables.workloads == f.tables.workloads;
    ThreeSteps(f, s0, f1, s1, f2, s2);
    assert f.results[k := true] - {k} == f.results;
  }

  function ExecutedSteps(k: Key): seq<Step> {
    [Network(Deliver(k)), Network(ExecuteSent(k)), Network(ReceiveAck(k))]
  }

  lemma ExecutedAndAcked(f: Fleet, k: Key)
    requires At(f, k, Queued) && k in f.tables.rows && f.tables.rows[k].status == Pending
    requires f.tables.transit[k].message.agent in f.connected
    ensures var m := f.tables.transit[k].message;
            var slot := Slot(m.agent, m.workload);
            && Runs(f, ExecutedSteps(k))
            && var (after, ok) := Execute(EntryAt(f, slot), m.kind, m.generation);
               var u := End(f, ExecutedSteps(k));
               && EntryAt(u, slot) == after && u.clock == f.clock
               && u.results == f.results[k := ok] && k !in u.tables.transit
               && u.tables.workloads == f.tables.workloads
               && u.tables.rows == f.tables.rows[k := f.tables.rows[k].(status := Accepted)]
  {
    hide Runs, End;
    var s0, s1, s2 := Network(Deliver(k)), Network(ExecuteSent(k)), Network(ReceiveAck(k));
    var f1 := Apply(f, s0);
    var slot := Slot(f.tables.transit[k].message.agent, f.tables.transit[k].message.workload);
    assert EntryAt(f1, slot) == EntryAt(f, slot);
    ThreeSteps(f, s0, f1, s1, Apply(f1, s1), s2);
  }

  /** Whatever a command does at its agent is what its row says once the answer is in:
      accepted after the ack, then succeeded exactly if the runner succeeded. If the
      answer is lost the row stays accepted. */
  lemma AnsweredAsItRan(f: Fleet, k: Key)
    requires At(f, k, Queued) && k in f.tables.rows && f.tables.rows[k].status == Pending
    requires f.tables.transit[k].message.agent in f.connected
    ensures Runs(f, ExecutedSteps(k) + [Network(ReceiveResult(k))]) && Runs(f, ExecutedSteps(k) + [Network(LoseResult(k))])
    ensures var m := f.tables.transit[k].message;
            var (after, ok) := Execute(EntryAt(f, Slot(m.agent, m.workload)), m.kind, m.generation);
            var (answered, lost) := (End(f, ExecutedSteps(k) + [Network(ReceiveResult(k))]), End(f, ExecutedSteps(k) + [Network(LoseResult(k))]));
            && EntryAt(answered, Slot(m.agent, m.workload)) == EntryAt(lost, Slot(m.agent, m.workload)) == after
            && answered.tables.rows == f.tables.rows[k := f.tables.rows[k].(status := if ok then Succeeded else Failed)]
            && lost.tables.rows == f.tables.rows[k := f.tables.rows[k].(status := Accepted)]
            && lost.tables.workloads == f.tables.workloads
            && k !in answered.results && k !in lost.results
  {
    hide Runs, End, Execute, ExecutedSteps, AfterSuccess, AfterFailure;
    ExecutedAndAcked(f, k);
    var u := End(f, ExecutedSteps(k));
    Alone(u, Network(ReceiveResult(k)));
    Alone(u, Network(LoseResult(k)));
    RunsConcat(f, ExecutedSteps(k), [Network(ReceiveResult(k))]);
    RunsConcat(f, ExecutedSteps(k), [Network(LoseResult(k))]);
  }

  /** Once a successful command is answered, the workload is observed running exactly if
      the owner runs it. */
  lemma ObservedIsWhatRuns(f: Fleet, w: WorkloadId, kind: Kind, e: Entry)
    requires Tokens(f) && Sendable(f.tables, w) && !kind.Update?
    requires f.tables.workloads[w].owner.value in f.connected
    requires Execute(EntryAt(f, Slot(f.tables.workloads[w].owner.value, w)), kind, f.tables.workloads[w].generation) == (Some(e), true)
    ensures Runs(f, DeliveredSteps(f, w, kind))
    ensures var (g, slot) := (End(f, DeliveredSteps(f, w, kind)), Slot(f.tables.workloads[w].owner.value, w));
            && w in g.tables.workloads && slot in g.entries
            && (g.tables.workloads[w].observed == Running <==> g.entries[slot].running)
            && (g.tables.workloads[w].observed == Stopped <==> !g.entries[slot].running)
            && (g.tables.workloads[w].desired == ShouldRun <==> g.entries[slot].running)
  {
    hide Runs, End, DeliveredSteps, Tokens, Execute;
    DeliveredSucceeds(f, w, kind, e);
    SuccessMeansObserved(EntryAt(f, Slot(f.tables.workloads[w].owner.value, w)), kind, f.tables.workloads[w].generation);
  }

  /** A reconcile command carries the desired state of the row the tick read: it undoes
      a change of the desired state since then, and only that. */
  lemma TickRestoresTheDesiredItRead(f: Fleet, w: WorkloadId)
    requires TickEnabled(f, TickBody(w)) && w in f.tables.workloads
    requires ReconcileVerdict(f.tables, w, f.tick.value.rows[w], f.tick.value.now).Triggered?
    ensures var (read, u) := (f.tick.value.rows[w], Apply(f, Reconciling(TickBody(w))).tables);
            && w in u.workloads && u.workloads[w] == f.tables.workloads[w].(desired := read.desired)
            && (u.workloads == f.tables.workloads <==> read.desired == f.tables.workloads[w].desired)
  {}
}
