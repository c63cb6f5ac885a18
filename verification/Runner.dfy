/** The agent's workload runner and its command handler
    (apps/agent/src/workload-runner.ts, apps/agent/src/index.ts). A child process
    is a run flag, and one command at a time runs for each workload. */
module Runner {
  import opened Wrappers
  import opened Plane

  datatype Entry = Entry(spec: Spec, running: bool, generation: nat)

  function Track(e: Option<Entry>, generation: nat): Option<Entry> {
    if e.None? then None else Some(e.value.(generation := generation))
  }

  function RunStart(e: Option<Entry>): (Option<Entry>, bool) {
    if e.None? || e.value.running || !e.value.spec.nodeRuntime then (e, false)
    else (Some(e.value.(running := true)), true)
  }

  function RunStop(e: Option<Entry>): (Option<Entry>, bool) {
    if e.None? then (e, false) else (Some(e.value.(running := false)), true)
  }

  /** What a command does to the entry of its workload, and whether it succeeds. */
  function Execute(e: Option<Entry>, kind: Kind, generation: nat): (Option<Entry>, bool) {
    match kind
    case Update(spec) =>
      if !spec.valid then (e, false)
      else (Some(Entry(spec, e.Some? && e.value.running, generation)), true)
    case Start => RunStart(Track(e, generation))
    case Stop => RunStop(Track(e, generation))
    case Restart =>
      var (stopped, ok) := RunStop(Track(e, generation));
      if ok then RunStart(stopped) else (stopped, false)
  }

  /** A command leaves its own generation, or the cached one if it was rejected. */
  lemma ExecuteGeneration(e: Option<Entry>, kind: Kind, generation: nat)
    ensures var after := Execute(e, kind, generation).0;
            after.Some? ==> after.value.generation == generation || (e.Some? && after.value.generation == e.value.generation)
  {}

  /** What each command does, from the entry alone. A specification that parses is
      cached whatever runs. A start needs a cached node specification and no process;
      a stop a cached one; a restart a cached one, and leaves it stopped if it is not
      node's. Only what succeeds as a start or restart runs afterwards, or ran before. */
  lemma WhatCommandsDo(e: Option<Entry>, kind: Kind, generation: nat)
    ensures var (after, ok) := Execute(e, kind, generation);
            match kind
            case Update(spec) =>
              && ok == spec.valid
              && (!ok ==> after == e)
              && (ok ==> after == Some(Entry(spec, e.Some? && e.value.running, generation)))
            case Start =>
              && (ok <==> e.Some? && !e.value.running && e.value.spec.nodeRuntime)
              && (e.None? ==> after == None)
              && (e.Some? ==> after == Some(Entry(e.value.spec, e.value.running || ok, generation)))
            case Stop =>
              && (ok <==> e.Some?)
              && (e.None? ==> after == None)
              && (e.Some? ==> after == Some(Entry(e.value.spec, false, generation)))
            case Restart =>
              && (ok <==> e.Some? && e.value.spec.nodeRuntime)
              && (e.None? ==> after == None)
              && (e.Some? ==> after == Some(Entry(e.value.spec, ok, generation)))
  {}

  class WorkloadRunner {
    var workloads: map<WorkloadId, Entry>

    function Lookup(w: WorkloadId): Option<Entry>
      reads this
    {
      if w in workloads then Some(workloads[w]) else None
    }

    constructor ()
      ensures workloads == map[]
    {
      workloads := map[];
    }

    method CacheWorkloadSpec(w: WorkloadId, spec: Spec, generation: nat) returns (ok: bool)
      modifies this
      ensures (Lookup(w), ok) == Execute(old(Lookup(w)), Update(spec), generation)
      ensures workloads - {w} == old(workloads) - {w}
    {
      if !spec.valid {
        return false;
      }
      var running := w in workloads && workloads[w].running;
      workloads := workloads[w := Entry(spec, running, generation)];
      ok := true;
    }

    method TrackGeneration(w: WorkloadId, generation: nat)
      modifies this
      ensures Lookup(w) == Track(old(Lookup(w)), generation)
      ensures workloads - {w} == old(workloads) - {w}
    {
      if w in workloads {
        workloads := workloads[w := workloads[w].(generation := generation)];
      }
    }

    method StartWorkload(w: WorkloadId) returns (ok: bool)
      modifies this
      ensures (Lookup(w), ok) == RunStart(old(Lookup(w)))
      ensures workloads - {w} == old(workloads) - {w}
    {
      if w !in workloads {
        return false;
      }
      if workloads[w].running {
        return false;
      }
      if !workloads[w].spec.nodeRuntime {
        return false;
      }
      workloads := workloads[w := workloads[w].(running := true)];
      ok := true;
    }

    method StopWorkload(w: WorkloadId) returns (ok: bool)
      modifies this
      ensures (Lookup(w), ok) == RunStop(old(Lookup(w)))
      ensures workloads - {w} == old(workloads) - {w}
    {
      if w !in workloads {
        return false;
      }
      if workloads[w].running {
        workloads := workloads[w := workloads[w].(running := false)];
      }
      ok := true;
    }

    method RestartWorkload(w: WorkloadId) returns (ok: bool)
      modifies this
      ensures var (stopped, halted) := RunStop(old(Lookup(w)));
              (Lookup(w), ok) == if halted then RunStart(stopped) else (stopped, false)
      ensures workloads - {w} == old(workloads) - {w}
    {
      ok := StopWorkload(w);
      if !ok {
        return;
      }
      ok := StartWorkload(w);
    }

    /** Executes a command; the result is what the agent reports back. */
    method HandleWorkloadCommand(m: Message) returns (ok: bool)
      modifies this
      ensures (Lookup(m.workload), ok) == Execute(old(Lookup(m.workload)), m.kind, m.generation)
      ensures workloads - {m.workload} == old(workloads) - {m.workload}
    {
      match m.kind
      case Update(spec) =>
        ok := CacheWorkloadSpec(m.workload, spec, m.generation);
      case Start =>
        TrackGeneration(m.workload, m.generation);
        ok := StartWorkload(m.workload);
      case Stop =>
        TrackGeneration(m.workload, m.generation);
        ok := StopWorkload(m.workload);
      case Restart =>
        TrackGeneration(m.workload, m.generation);
        ok := RestartWorkload(m.workload);
    }

    /** Every workload with a live process, once, at its cached generation. */
    method GetRunningInventory(agent: AgentId) returns (reports: seq<Report>)
      ensures forall r :: r in reports <==>
                r.agent == agent && r.workload in workloads && workloads[r.workload].running
                && r.generation == workloads[r.workload].generation
      ensures forall i, j :: 0 <= i < j < |reports| ==> reports[i].workload != reports[j].workload
    {
      reports := [];
      var todo := workloads.Keys;
      while todo != {}
        invariant todo <= workloads.Keys
        invariant forall r :: r in reports <==>
                    r.agent == agent && r.workload in workloads.Keys - todo && workloads[r.workload].running
                    && r.generation == workloads[r.workload].generation
        invariant forall i, j :: 0 <= i < j < |reports| ==> reports[i].workload != reports[j].workload
        decreases todo
      {
        var w :| w in todo;
        todo := todo - {w};
        if workloads[w].running {
          forall i | 0 <= i < |reports| ensures reports[i].workload != w {
            assert reports[i] in reports;
          }
          reports := reports + [Report(agent, w, workloads[w].generation)];
        }
      }
    }
  }

  /** A success means what the control plane will record: after a start or restart
      the process runs, after a stop it does not. */
  lemma SuccessMeansObserved(e: Option<Entry>, kind: Kind, generation: nat)
    requires Execute(e, kind, generation).1 && !kind.Update?
    ensures var after := Execute(e, kind, generation).0;
            && after.Some? && after.value.generation == generation
            && (ObservedStateFor(kind, true) == Some(Running) <==> after.value.running)
            && (ObservedStateFor(kind, true) == Some(Stopped) <==> !after.value.running)
  {}
}
