/** The control plane's functions as they run: each reads and writes table rows in
    sequence, and leaves the tables as the function of the same name in Plane says. */
module ControlPlane {
  import opened Wrappers
  import opened Plane

  class ControlPlaneDb {
    var agents: seq<AgentRow>
    var workloads: map<WorkloadId, Workload>
    var rows: map<Key, Row>
    var transit: map<Key, Packet>
    var nextKey: Key

    function View(): Tables
      reads this
    {
      Tables(agents, workloads, rows, transit, nextKey)
    }

    constructor (agents: seq<AgentRow>)
      ensures View() == Tables(agents, map[], map[], map[], 0)
    {
      this.agents := agents;
      workloads, rows, transit, nextKey := map[], map[], map[], 0;
    }

    /** createWorkload: an unparsable specification is never stored. */
    method CreateWorkload(id: WorkloadId, customer: CustomerId, spec: Spec) returns (ok: bool)
      requires id !in workloads
      modifies this
      ensures ok == spec.valid
      ensures View() == if ok then CreateRow(old(View()), id, customer, spec) else old(View())
      ensures ok ==> workloads == old(workloads)[id :=
                Workload(customer, spec, ShouldStop, Unknown, None, 1, 0, 0, None, None, None)]
    {
      if !spec.valid {
        return false;
      }
      workloads := workloads[id := NewWorkload(customer, spec)];
      ok := true;
    }

    method RecordAndEnqueueCommand(message: Message, origin: Origin, now: int)
      modifies this
      ensures View() == Issue(old(View()), message, origin, now)
      ensures rows == old(rows)[old(nextKey) := Row(message, Pending, origin, now)]
      ensures transit == old(transit)[old(nextKey) := Packet(message, origin, Queued)]
      ensures agents == old(agents) && workloads == old(workloads) && nextKey == old(nextKey) + 1
    {
      var key := nextKey;
      nextKey := nextKey + 1;
      rows := rows[key := Row(message, Pending, origin, now)];
      transit := transit[key := Packet(message, origin, Queued)];
    }

    method AssignWorkloadToAgent(w: WorkloadId, agent: AgentId, now: int) returns (ok: bool)
      modifies this
      ensures ok == AssignWorkload(old(View()), w, agent, now).Some?
      ensures ok <==> w in old(workloads) && exists i :: 0 <= i < |old(agents)| && old(agents)[i].id == agent
      ensures ok ==> workloads == old(workloads)[w :=
                old(workloads)[w].(owner := Some(agent), generation := old(workloads)[w].generation + 1)]
      ensures View() == if ok then AssignWorkload(old(View()), w, agent, now).value else old(View())
    {
      if w !in workloads || !HasAgent(View(), agent) {
        return false;
      }
      workloads := workloads[w := workloads[w].(owner := Some(agent), generation := workloads[w].generation + 1)];
      var message := Message(agent, w, Update(workloads[w].spec), workloads[w].generation);
      RecordAndEnqueueCommand(message, Admin, now);
      ok := true;
    }

    method SendWorkloadCommand(w: WorkloadId, kind: Kind, origin: Origin, now: int) returns (ok: bool)
      modifies this
      ensures ok == SendCommand(old(View()), w, kind, origin, now).Some?
      ensures View() == if ok then SendCommand(old(View()), w, kind, origin, now).value else old(View())
      ensures nextKey == old(nextKey) + if ok then 1 else 0
      ensures ok <==> w in old(workloads) && old(workloads)[w].owner.Some?
      ensures ok ==> workloads == old(workloads)[w := old(workloads)[w].(desired := if kind.Stop? then ShouldStop else ShouldRun)]
      ensures ok ==> rows == old(rows)[old(nextKey) :=
                Row(Message(old(workloads)[w].owner.value, w, kind, old(workloads)[w].generation), Pending, origin, now)]
    {
      if w !in workloads || workloads[w].owner.None? {
        return false;
      }
      var message := Message(workloads[w].owner.value, w, kind, workloads[w].generation);
      RecordAndEnqueueCommand(message, origin, now);
      workloads := workloads[w := workloads[w].(desired := DesiredAfter(kind))];
      ok := true;
    }

    method FenceStaleAgent(r: Report, now: int)
      modifies this
      ensures View() == Issue(old(View()), FenceStop(r), Fencing, now)
      ensures rows == old(rows)[old(nextKey) := Row(Message(r.agent, r.workload, Stop, r.generation), Pending, Fencing, now)]
    {
      RecordAndEnqueueCommand(FenceStop(r), Fencing, now);
    }

    /** The inventory handler: nothing for a payload that names another agent than
        the connection's, otherwise a stop for every entry not owned. */
    method HandleInventory(connectionAgent: AgentId, payloadAgent: AgentId, entries: seq<Report>, now: int)
      requires forall i :: 0 <= i < |entries| ==> entries[i].agent == payloadAgent
      modifies this
      ensures View() == if payloadAgent == connectionAgent then FenceAll(old(View()), entries, now) else old(View())
      ensures (forall i :: 0 <= i < |entries| ==> Unfenced(old(View()), entries[i])) ==> View() == old(View())
      ensures payloadAgent == connectionAgent && FreshKeys(old(View())) ==>
                forall r :: r in entries ==> (StopIssued(old(View()), View(), r) <==> !Unfenced(old(View()), r))
    {
      ghost var before := View();
      if payloadAgent != connectionAgent {
        return;
      }
      for i := 0 to |entries|
        invariant View() == FenceAll(old(View()), entries[..i], now)
      {
        assert entries[..i + 1][..i] == entries[..i];
        var entry := entries[i];
        if entry.workload !in workloads {
          continue;
        }
        if workloads[entry.workload].owner == Some(connectionAgent) {
          continue;
        }
        FenceStaleAgent(entry, now);
      }
      assert entries[..|entries|] == entries;
      if forall i :: 0 <= i < |entries| ==> Unfenced(before, entries[i]) {
        OwnersAreNotFenced(before, entries, now);
      }
      if FreshKeys(before) {
        forall r | r in entries ensures StopIssued(before, View(), r) <==> !Unfenced(before, r) {
          FencedIffNotOwner(before, entries, r, now);
        }
      }
    }

    method HandleAck(key: Key)
      modifies this
      ensures View() == Ack(old(View()), key)
      ensures View() == old(View()).(rows := rows) && rows.Keys == old(rows).Keys
      ensures forall k :: k in rows ==>
                rows[k] == if k == key && old(rows)[k].status == Pending then old(rows)[k].(status := Accepted) else old(rows)[k]
    {
      if key in rows && rows[key].status.Pending? {
        rows := rows[key := rows[key].(status := Accepted)];
      }
    }

    method MarkCommandOutcome(key: Key, succeeded: bool, now: int)
      modifies this
      ensures View() == MarkOutcome(old(View()), key, succeeded, now)
      ensures OutcomeWritten(old(View()), View(), key, succeeded, now)
    {
      OutcomeIsWritten(View(), key, succeeded, now);
      if key !in rows {
        return;
      }
      var command := rows[key].message;
      rows := rows[key := rows[key].(status := if succeeded then Succeeded else Failed)];
      var observed := ObservedStateFor(command.kind, succeeded);
      if observed.None? || command.workload !in workloads {
        return;
      }
      var workload := workloads[command.workload];
      if workload.owner != Some(command.agent) {
        return;
      }
      if succeeded {
        workload := workload.(observed := observed.value, observedGeneration := workload.generation,
                              lastTransitionAt := Some(now), attempts := 0, nextAttemptAt := None);
      } else {
        var attempts := workload.attempts + 1;
        if attempts >= MAX_RECONCILE_ATTEMPTS {
          workload := workload.(nextAttemptAt := None, suspendedAt := Some(now));
        } else {
          workload := workload.(nextAttemptAt := Some(now + ReconcileBackoffMs(attempts)), suspendedAt := None);
        }
        workload := workload.(observed := observed.value, lastTransitionAt := Some(now), attempts := attempts);
      }
      workloads := workloads[command.workload := workload];
    }

    /** The update throws, and changes nothing, if the workload does not exist. */
    method ClearReconciliationFailure(w: WorkloadId) returns (ok: bool)
      modifies this
      ensures ok == (w in old(workloads))
      ensures View() == if ok then ClearFailure(old(View()), w) else old(View())
      ensures ok ==> workloads == old(workloads)[w := old(workloads)[w].(attempts := 0, nextAttemptAt := None, suspendedAt := None)]
    {
      if w !in workloads {
        return false;
      }
      workloads := workloads[w := workloads[w].(attempts := 0, nextAttemptAt := None, suspendedAt := None)];
      ok := true;
    }

    /** findMany over the assigned workloads: any order. */
    method AssignedIds() returns (ids: seq<WorkloadId>)
      ensures Enumerates(ids, Assigned(View()))
    {
      ids := [];
      var todo := Assigned(View()).Keys;
      while todo != {}
        invariant forall w :: w in Assigned(View()) <==> w in todo || w in ids
        invariant forall w :: w in todo ==> w !in ids
        invariant forall i, j :: 0 <= i < j < |ids| ==> ids[i] != ids[j]
        decreases todo
      {
        var w :| w in todo;
        todo := todo - {w};
        ids := ids + [w];
      }
    }

    /** One tick, with the lock or without it. The clock is read once. */
    method ReconcileWorkloads(locked: bool, now: int)
      returns (ids: seq<WorkloadId>, actionsTriggered: nat, skipped: seq<(WorkloadId, Verdict)>, lockHeld: bool)
      modifies this
      ensures lockHeld == !locked
      ensures !locked ==> View() == old(View()) && ids == [] && actionsTriggered == 0 && skipped == []
      ensures locked ==> Enumerates(ids, Assigned(old(View())))
                         && View() == ReconcileAll(old(View()), ids, Assigned(old(View())), now)
                         && actionsTriggered == nextKey - old(nextKey)
                         && skipped == SkippedIn(old(View()), ids, Assigned(old(View())), now)
      ensures locked ==> forall w :: w in ids <==> w in old(workloads) && old(workloads)[w].owner.Some?
      ensures locked && FreshKeys(old(View())) ==>
                TickDone(old(View()), View(), ids, now) && SkipsNamed(old(View()), ids, now, skipped)
    {
      ghost var before := View();
      hide Issue, InFlight;
      ids, actionsTriggered, skipped, lockHeld := [], 0, [], !locked;
      if !locked {
        return;
      }
      var snapshot := Assigned(View());
      ids := AssignedIds();
      for i := 0 to |ids|
        invariant View() == ReconcileAll(old(View()), ids[..i], snapshot, now)
        invariant actionsTriggered == nextKey - old(nextKey)
        invariant skipped == SkippedIn(old(View()), ids[..i], snapshot, now)
      {
        assert ids[..i + 1][..i] == ids[..i];
        var w, row := ids[i], snapshot[ids[i]];
        if row.suspendedAt.Some? {
          skipped := skipped + [(w, Suspended)];
          continue;
        }
        if row.nextAttemptAt.Some? && row.nextAttemptAt.value > now {
          skipped := skipped + [(w, BackingOff)];
          continue;
        }
        if row.desired.ShouldRun? == row.observed.Running? {
          continue;
        }
        if InFlight(View(), w) {
          skipped := skipped + [(w, AlreadyInFlight)];
          continue;
        }
        var ok := SendWorkloadCommand(w, ReconcileKind(row), Reconciler, now);
        if ok {
          actionsTriggered := actionsTriggered + 1;
        } else {
          skipped := skipped + [(w, Unsendable)];
        }
      }
      assert ids[..|ids|] == ids;
      if FreshKeys(before) {
        TickActsOnDifferences(before, ids, now);
      }
    }
  }

  ghost predicate Enumerates(ids: seq<WorkloadId>, rows: Snapshot) {
    && (forall w :: w in rows <==> w in ids)
    && forall i, j :: 0 <= i < j < |ids| ==> ids[i] != ids[j]
  }

  // ------------------------------------------------- outcomes, column by column

  /** What the outcome of a start, stop or restart leaves of its workload's row. */
  ghost predicate OutcomeColumns(a: Workload, b: Workload, kind: Kind, succeeded: bool, now: int) {
    && b.customer == a.customer && b.spec == a.spec && b.desired == a.desired
    && b.owner == a.owner && b.generation == a.generation
    && b.lastTransitionAt == Some(now)
    && if succeeded then
         && b.observed == (if kind.Stop? then Stopped else Running)
         && b.observedGeneration == a.generation
         && b.attempts == 0 && b.nextAttemptAt == None && b.suspendedAt == a.suspendedAt
       else
         && b.observed == Broken
         && b.observedGeneration == a.observedGeneration
         && b.attempts == a.attempts + 1
         && (a.attempts >= 4 ==> b.nextAttemptAt == None && b.suspendedAt == Some(now))
         && (a.attempts < 4 ==> b.suspendedAt == None && b.nextAttemptAt == Some(now +
               if a.attempts == 0 then 60_000 else if a.attempts == 1 then 120_000
               else if a.attempts == 2 then 240_000 else 480_000))
  }

  /** The command's row records its outcome; a workload row is written only if it is
      the command's, the command is not an update, and its agent is the owner. */
  ghost predicate OutcomeWritten(t: Tables, u: Tables, k: Key, succeeded: bool, now: int) {
    if k !in t.rows then u == t
    else
      var m := t.rows[k].message;
      && u == t.(rows := u.rows, workloads := u.workloads)
      && u.rows == t.rows[k := t.rows[k].(status := if succeeded then Succeeded else Failed)]
      && u.workloads.Keys == t.workloads.Keys
      && forall w :: w in t.workloads ==>
           if w == m.workload && !m.kind.Update? && t.workloads[w].owner == Some(m.agent) then
             OutcomeColumns(t.workloads[w], u.workloads[w], m.kind, succeeded, now)
           else u.workloads[w] == t.workloads[w]
  }

  lemma FirstDelays(n: nat)
    requires n < 4
    ensures ReconcileBackoffMs(n + 1)
         == if n == 0 then 60_000 else if n == 1 then 120_000 else if n == 2 then 240_000 else 480_000
  {
    assert Pow2(4) == 2 * Pow2(3) && Pow2(3) == 2 * Pow2(2) && Pow2(2) == 2 * Pow2(1) && Pow2(1) == 2 * Pow2(0);
  }

  lemma OutcomeIsWritten(t: Tables, k: Key, succeeded: bool, now: int)
    ensures OutcomeWritten(t, MarkOutcome(t, k, succeeded, now), k, succeeded, now)
  {
    hide ReconcileBackoffMs;
    if k in t.rows && t.rows[k].message.workload in t.workloads && t.workloads[t.rows[k].message.workload].attempts < 4 {
      FirstDelays(t.workloads[t.rows[k].message.workload].attempts);
    }
  }

  // ------------------------------------------------ a tick acts on the differences

  /** The row asks for a command: not suspended, no wait ahead, and not as wished. */
  predicate Asks(row: Workload, now: int) {
    && row.suspendedAt == None
    && !(row.nextAttemptAt.Some? && row.nextAttemptAt.value > now)
    && (row.desired == ShouldRun) != (row.observed == Running)
  }

  /** A pending or accepted command of w exists. */
  ghost predicate Busy(t: Tables, w: WorkloadId) {
    exists k :: k in t.rows && t.rows[k].message.workload == w && t.rows[k].status in {Pending, Accepted}
  }

  ghost predicate Due(t: Tables, w: WorkloadId, now: int) {
    w in t.workloads && t.workloads[w].owner.Some? && Asks(t.workloads[w], now) && !Busy(t, w)
  }

  /** The round of the loop for w, on the row it has, says what these columns say. */
  lemma VerdictInColumns(t: Tables, w: WorkloadId, row: Workload, now: int)
    ensures var verdict := ReconcileVerdict(t, w, row, now);
            && (verdict == Triggered <==> Asks(row, now) && !Busy(t, w) && w in t.workloads && t.workloads[w].owner.Some?)
            && (verdict == Suspended <==> row.suspendedAt.Some?)
            && (verdict == BackingOff <==> row.suspendedAt == None && row.nextAttemptAt.Some? && row.nextAttemptAt.value > now)
            && (verdict == AlreadyInFlight <==> Asks(row, now) && Busy(t, w))
  {
    if InFlight(t, w) {
      var k :| k in t.rows && t.rows[k].message.workload == w && Unfinished(t.rows[k]);
    }
    if Busy(t, w) {
      var k :| k in t.rows && t.rows[k].message.workload == w && t.rows[k].status in {Pending, Accepted};
      assert Unfinished(t.rows[k]);
    }
  }

  /** The command that w is due: a start if it should run, otherwise a stop, for its
      owner at its generation. */
  function DueRow(t: Tables, w: WorkloadId, now: int): Row
    requires w in t.workloads && t.workloads[w].owner.Some?
  {
    var row := t.workloads[w];
    Row(Message(row.owner.value, w, if row.desired == ShouldRun then Start else Stop, row.generation), Pending, Reconciler, now)
  }

  predicate NewFor(t: Tables, u: Tables, k: Key, w: WorkloadId) {
    k !in t.rows && k in u.rows && u.rows[k].message.workload == w
  }

  /** Exactly one row for w is new, and it is this one. */
  ghost predicate OneNew(t: Tables, u: Tables, w: WorkloadId, row: Row) {
    exists k :: NewFor(t, u, k, w) && u.rows[k] == row && forall j :: NewFor(t, u, j, w) ==> j == k
  }

  /** Each listed workload got the command it was due, if it was due one, and no other. */
  ghost predicate TickDone(t: Tables, u: Tables, ids: seq<WorkloadId>, now: int) {
    && u.workloads == t.workloads && u.agents == t.agents && FreshKeys(u)
    && (forall k :: k in t.rows ==> k in u.rows && u.rows[k] == t.rows[k])
    && (forall w :: w in ids && Due(t, w, now) ==> OneNew(t, u, w, DueRow(t, w, now)))
    && (forall k, w :: NewFor(t, u, k, w) ==> w in ids && Due(t, w, now))
  }

  /** The skipped list names, of the listed workloads, those suspended, those waiting,
      and those that ask for a command while one is in flight. */
  ghost predicate SkipsNamed(t: Tables, ids: seq<WorkloadId>, now: int, skipped: seq<(WorkloadId, Verdict)>) {
    forall w, why :: (w, why) in skipped <==>
      w in ids && w in t.workloads &&
      match why
      case Suspended => t.workloads[w].suspendedAt.Some?
      case BackingOff => t.workloads[w].suspendedAt == None
                         && t.workloads[w].nextAttemptAt.Some? && t.workloads[w].nextAttemptAt.value > now
      case AlreadyInFlight => Asks(t.workloads[w], now) && Busy(t, w)
      case _ => false
  }

  lemma BusyAsBefore(t: Tables, u: Tables, ids: seq<WorkloadId>, w: WorkloadId, now: int)
    requires TickDone(t, u, ids, now) && w !in ids
    ensures Busy(u, w) <==> Busy(t, w)
  {
    hide Due, OneNew;
    if Busy(u, w) {
      var k :| k in u.rows && u.rows[k].message.workload == w && u.rows[k].status in {Pending, Accepted};
      assert k !in t.rows ==> NewFor(t, u, k, w);
    }
    if Busy(t, w) {
      var k :| k in t.rows && t.rows[k].message.workload == w && t.rows[k].status in {Pending, Accepted};
      assert u.rows[k] == t.rows[k];
    }
  }

  /** One round of the loop, on the row the tick had read, whatever has happened since:
      the command that row asks for, to the owner and at the generation of now, with
      the desired state it was asked for; or nothing. */
  lemma RoundInColumns(t: Tables, w: WorkloadId, row: Workload, tickNow: int, now: int)
    requires FreshKeys(t)
    ensures var v := ReconcileOne(t, w, row, tickNow, now);
            && v.agents == t.agents && FreshKeys(v)
            && if Asks(row, tickNow) && !Busy(t, w) && w in t.workloads && t.workloads[w].owner.Some? then
                 && v.workloads == t.workloads[w := t.workloads[w].(desired := row.desired)]
                 && v.rows == t.rows[t.nextKey := Row(
                      Message(t.workloads[w].owner.value, w, if row.desired == ShouldRun then Start else Stop,
                              t.workloads[w].generation), Pending, Reconciler, now)]
               else v == t
  {
    VerdictInColumns(t, w, row, tickNow);
    hide ReconcileVerdict, Asks, Busy;
  }

  lemma RoundKeepsTickDone(t: Tables, u: Tables, ids: seq<WorkloadId>, w: WorkloadId, now: int)
    requires TickDone(t, u, ids, now) && w !in ids && w in t.workloads && t.workloads[w].owner.Some?
    ensures TickDone(t, ReconcileOne(u, w, t.workloads[w], now, now), ids + [w], now)
  {
    hide Busy, Asks, ReconcileOne;
    BusyAsBefore(t, u, ids, w, now);
    RoundInColumns(u, w, t.workloads[w], now, now);
    assert u.workloads[w].(desired := t.workloads[w].desired) == t.workloads[w];
    var v := ReconcileOne(u, w, t.workloads[w], now, now);
    forall x | x in ids + [w] && Due(t, x, now) ensures OneNew(t, v, x, DueRow(t, x, now)) {
      if x == w {
        assert Due(u, w, now) && NewFor(t, v, u.nextKey, w) && v.rows[u.nextKey] == DueRow(t, w, now);
        forall j | NewFor(t, v, j, w) ensures j == u.nextKey {
          assert !NewFor(t, u, j, w);
        }
      } else {
        var k :| NewFor(t, u, k, x) && u.rows[k] == DueRow(t, x, now) && forall j :: NewFor(t, u, j, x) ==> j == k;
        assert NewFor(t, v, k, x);
        forall j | NewFor(t, v, j, x) ensures j == k {
          assert NewFor(t, u, j, x);
        }
      }
    }
    forall k, x | NewFor(t, v, k, x) ensures x in ids + [w] && Due(t, x, now) {
      if k in u.rows {
        assert NewFor(t, u, k, x);
      }
    }
  }

  lemma {:induction false} TickDoneSoFar(t: Tables, ids: seq<WorkloadId>, now: int)
    requires FreshKeys(t) && (forall w :: w in ids ==> w in Assigned(t))
    requires forall i, j :: 0 <= i < j < |ids| ==> ids[i] != ids[j]
    ensures TickDone(t, ReconcileAll(t, ids, Assigned(t), now), ids, now)
    ensures SkipsNamed(t, ids, now, SkippedIn(t, ids, Assigned(t), now))
  {
    hide ReconcileOne, Due, Asks, Busy, ReconcileVerdict;
    if ids != [] {
      var n := |ids| - 1;
      var front, w := ids[..n], ids[n];
      TickDoneSoFar(t, front, now);
      assert w in ids && w in Assigned(t);
      var u := ReconcileAll(t, front, Assigned(t), now);
      RoundKeepsTickDone(t, u, front, w, now);
      BusyAsBefore(t, u, front, w, now);
      VerdictInColumns(u, w, t.workloads[w], now);
      assert ids == front + [w];
      assert SkipsNamed(t, ids, now, SkippedIn(t, ids, Assigned(t), now)) by {
        OneMoreSkip(t, u, front, w, now, SkippedIn(t, front, Assigned(t), now), SkippedIn(t, ids, Assigned(t), now));
      }
    }
  }

  lemma OneMoreSkip(t: Tables, u: Tables, ids: seq<WorkloadId>, w: WorkloadId, now: int,
                    skipped: seq<(WorkloadId, Verdict)>, more: seq<(WorkloadId, Verdict)>)
    requires SkipsNamed(t, ids, now, skipped) && w in t.workloads && t.workloads[w].owner.Some? && w !in ids
    requires u.workloads == t.workloads && (Busy(u, w) <==> Busy(t, w))
    requires var verdict := ReconcileVerdict(u, w, t.workloads[w], now);
             more == skipped + if verdict.InSync? || verdict.Triggered? then [] else [(w, verdict)]
    ensures SkipsNamed(t, ids + [w], now, more)
  {
    VerdictInColumns(u, w, t.workloads[w], now);
    hide Busy, Asks;
    var verdict := ReconcileVerdict(u, w, t.workloads[w], now);
    assert verdict != Unsendable;
    hide ReconcileVerdict;
    assert forall x, why ::
      (x, why) in more <==> ((x, why) in skipped || (x == w && why == verdict && !verdict.InSync? && !verdict.Triggered?));
  }

  /** A tick issues exactly one command for each assigned workload that asks for one and
      has none in flight, and nothing else. */
  lemma TickActsOnDifferences(t: Tables, ids: seq<WorkloadId>, now: int)
    requires FreshKeys(t) && Enumerates(ids, Assigned(t))
    ensures TickDone(t, ReconcileAll(t, ids, Assigned(t), now), ids, now)
    ensures SkipsNamed(t, ids, now, SkippedIn(t, ids, Assigned(t), now))
  {
    TickDoneSoFar(t, ids, now);
  }

  // -------------------------------------------------------------- tick twice

  ghost predicate FreshKeys(t: Tables) {
    forall k :: k in t.rows || k in t.transit ==> k < t.nextKey
  }

  /** What a tick on an up-to-date snapshot leaves alone, and what it ensures of
      the workloads it has visited: none of them asks for another command. */
  ghost predicate Settled(t: Tables, u: Tables, ids: seq<WorkloadId>, now: int) {
    && FreshKeys(u)
    && u.workloads == t.workloads
    && (forall k :: k in t.rows ==> k in u.rows && u.rows[k] == t.rows[k])
    && forall w :: w in ids && w in t.workloads ==> !ReconcileVerdict(u, w, t.workloads[w], now).Triggered?
  }

  lemma ReconcileOneSettles(t: Tables, u: Tables, ids: seq<WorkloadId>, w: WorkloadId, now: int)
    requires Settled(t, u, ids, now) && w in t.workloads
    ensures Settled(t, ReconcileOne(u, w, t.workloads[w], now, now), ids + [w], now)
  {
    var v := ReconcileOne(u, w, t.workloads[w], now, now);
    assert forall k :: k in u.rows ==> k in v.rows && v.rows[k] == u.rows[k];
    if ReconcileVerdict(u, w, t.workloads[w], now).Triggered? {
      assert v.workloads == u.workloads;
      assert u.nextKey in v.rows && v.rows[u.nextKey].message.workload == w && Unfinished(v.rows[u.nextKey]);
    }
    forall x | x in ids + [w] && x in t.workloads ensures !ReconcileVerdict(v, x, t.workloads[x], now).Triggered? {
      if x in ids && InFlight(u, x) {
        var k :| k in u.rows && u.rows[k].message.workload == x && Unfinished(u.rows[k]);
        assert k in v.rows && v.rows[k] == u.rows[k];
      }
    }
  }

  lemma {:induction false} ReconcileAllSettles(t: Tables, ids: seq<WorkloadId>, now: int)
    requires FreshKeys(t) && forall w :: w in ids ==> w in Assigned(t)
    ensures Settled(t, ReconcileAll(t, ids, Assigned(t), now), ids, now)
  {
    if ids != [] {
      var front, w := ids[..|ids| - 1], ids[|ids| - 1];
      ReconcileAllSettles(t, front, now);
      assert w in ids && w in Assigned(t);
      ReconcileOneSettles(t, ReconcileAll(t, front, Assigned(t), now), front, w, now);
      assert ids == front + [w];
    }
  }

  lemma {:induction false} NothingToDo(t: Tables, ids: seq<WorkloadId>, rows: Snapshot, now: int)
    requires forall w :: w in ids ==> w in rows && !ReconcileVerdict(t, w, rows[w], now).Triggered?
    ensures ReconcileAll(t, ids, rows, now) == t
  {
    if ids != [] {
      NothingToDo(t, ids[..|ids| - 1], rows, now);
    }
  }

  /** A second tick at the same instant, with nothing happening in between, issues
      nothing, in whatever order the two ticks visit the workloads. */
  lemma SecondTickIssuesNothing(t: Tables, first: seq<WorkloadId>, second: seq<WorkloadId>, now: int)
    requires FreshKeys(t) && Enumerates(first, Assigned(t))
    requires Enumerates(second, Assigned(ReconcileAll(t, first, Assigned(t), now)))
    ensures var u := ReconcileAll(t, first, Assigned(t), now);
            ReconcileAll(u, second, Assigned(u), now) == u && u.workloads == t.workloads
  {
    ReconcileAllSettles(t, first, now);
    var u := ReconcileAll(t, first, Assigned(t), now);
    NothingToDo(u, second, Assigned(u), now);
  }

  // ------------------------------------------------- what single calls promise

  /** An assignment changes the owner and the generation of one workload, and its
      update carries the new ones. */
  lemma AssignmentMovesOneWorkload(t: Tables, w: WorkloadId, agent: AgentId, now: int)
    requires AssignWorkload(t, w, agent, now).Some?
    ensures var u := AssignWorkload(t, w, agent, now).value;
            && u.workloads.Keys == t.workloads.Keys
            && (forall x :: x in t.workloads && x != w ==> u.workloads[x] == t.workloads[x])
            && u.workloads[w] == t.workloads[w].(owner := Some(agent), generation := t.workloads[w].generation + 1)
            && u.rows[t.nextKey].message == Message(agent, w, Update(t.workloads[w].spec), t.workloads[w].generation + 1)
  {}

  /** The reported workload does not exist, or the reporting agent owns it. */
  predicate Unfenced(t: Tables, r: Report) {
    r.workload in t.workloads ==> t.workloads[r.workload].owner == Some(r.agent)
  }

  function StaleEntries(t: Tables, reports: seq<Report>): seq<Report> {
    if reports == [] then []
    else
      var front, r := StaleEntries(t, reports[..|reports| - 1]), reports[|reports| - 1];
      if r.workload in t.workloads && t.workloads[r.workload].owner != Some(r.agent) then front + [r] else front
  }

  /** The stops issued for one inventory are exactly its entries for workloads that
      exist and have another owner, in order, and no workload row changes. */
  lemma {:induction false} FencesExactlyTheStale(t: Tables, reports: seq<Report>, now: int)
    requires FreshKeys(t)
    ensures var (u, stale) := (FenceAll(t, reports, now), StaleEntries(t, reports));
            && FreshKeys(u) && u.workloads == t.workloads
            && u.nextKey == t.nextKey + |stale|
            && (forall k :: k in t.rows ==> k in u.rows && u.rows[k] == t.rows[k])
            && (forall k :: k in u.rows && k !in t.rows ==> t.nextKey <= k < u.nextKey)
            && forall k :: t.nextKey <= k < u.nextKey ==>
                 var r := stale[k - t.nextKey];
                 k in u.rows && u.rows[k] == Row(Message(r.agent, r.workload, Stop, r.generation), Pending, Fencing, now)
  {
    if reports != [] {
      var front, r := reports[..|reports| - 1], reports[|reports| - 1];
      FencesExactlyTheStale(t, front, now);
      var u, v := FenceAll(t, front, now), FenceAll(t, reports, now);
      forall k | t.nextKey <= k < v.nextKey
        ensures var x := StaleEntries(t, reports)[k - t.nextKey];
                k in v.rows && v.rows[k] == Row(Message(x.agent, x.workload, Stop, x.generation), Pending, Fencing, now)
      {
        if k < u.nextKey {
          assert v.rows[k] == u.rows[k];
        }
      }
    }
  }

  /** Agents that report only what they own, or what no longer exists, are left alone. */
  lemma {:induction false} OwnersAreNotFenced(t: Tables, reports: seq<Report>, now: int)
    requires forall i :: 0 <= i < |reports| ==> Unfenced(t, reports[i])
    ensures FenceAll(t, reports, now) == t
  {
    if reports != [] {
      OwnersAreNotFenced(t, reports[..|reports| - 1], now);
    }
  }

  lemma {:induction false} StaleMembers(t: Tables, reports: seq<Report>, r: Report)
    ensures r in StaleEntries(t, reports) <==> r in reports && !Unfenced(t, r)
  {
    if reports != [] {
      StaleMembers(t, reports[..|reports| - 1], r);
      assert reports == reports[..|reports| - 1] + [reports[|reports| - 1]];
    }
  }

  /** A stop for the report is among the new commands. */
  ghost predicate StopIssued(t: Tables, u: Tables, r: Report) {
    exists k :: k !in t.rows && k in u.rows && u.rows[k].message == Message(r.agent, r.workload, Stop, r.generation)
  }

  /** An entry of an inventory is answered with a stop exactly when its workload exists
      and belongs to somebody else. */
  lemma FencedIffNotOwner(t: Tables, reports: seq<Report>, r: Report, now: int)
    requires FreshKeys(t) && r in reports
    ensures StopIssued(t, FenceAll(t, reports, now), r) <==>
              r.workload in t.workloads && t.workloads[r.workload].owner != Some(r.agent)
  {
    hide FenceAll;
    FencesExactlyTheStale(t, reports, now);
    StaleMembers(t, reports, r);
    var u, stale := FenceAll(t, reports, now), StaleEntries(t, reports);
    hide StaleEntries;
    if StopIssued(t, u, r) {
      var k :| k !in t.rows && k in u.rows && u.rows[k].message == Message(r.agent, r.workload, Stop, r.generation);
      assert stale[k - t.nextKey] == r;
    }
    if r in stale {
      var i :| 0 <= i < |stale| && stale[i] == r;
      var k := t.nextKey + i;
      assert stale[k - t.nextKey] == r && k in u.rows && k !in t.rows;
    }
  }
}
