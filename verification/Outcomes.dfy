/** Every command has at most one outcome, and only an outcome from the current
    owner reaches a workload row. */
module Outcomes {
  import opened Wrappers
  import opened Plane
  import opened Fleet

  // ---------------------------------------------------------- one outcome each

  /** A command is either in transit, or executed with its result on the way, or
      neither; its row exists from the moment it is recorded and is unfinished as
      long as an outcome can still arrive. Only recorded commands are reconciler's. */
  ghost predicate TokenTables(t: Tables) {
    && (forall k :: k in t.rows || k in t.transit ==> k < t.nextKey)
    && (forall k :: k in t.transit ==> if t.transit[k].stage.Built? then k !in t.rows && !t.transit[k].origin.Reconciler?
                                       else MatchesRow(t, k))
    && (forall k :: k in t.rows && t.rows[k].origin.Reconciler? ==> t.rows[k].message.kind in {Start, Stop})
  }

  ghost predicate MatchesRow(t: Tables, k: Key)
    requires k in t.transit
  {
    k in t.rows && Unfinished(t.rows[k]) && t.rows[k].message == t.transit[k].message && t.rows[k].origin == t.transit[k].origin
  }

  ghost predicate TokenResults(t: Tables, results: map<Key, bool>) {
    forall k :: k in results ==> k in t.rows && Unfinished(t.rows[k]) && k !in t.transit
  }

  ghost predicate Tokens(f: Fleet) { TokenTables(f.tables) && TokenResults(f.tables, f.results) }

  /** A row keeps its message, and a finished row never changes again. */
  predicate RowEvolves(r: Row, s: Row) {
    && s == r.(status := s.status)
    && (!Unfinished(r) ==> s == r)
    && (s.status.Pending? ==> r.status.Pending?)
  }

  ghost predicate RowsEvolve(t: Tables, u: Tables) {
    forall k :: k in t.rows ==> k in u.rows && RowEvolves(t.rows[k], u.rows[k])
  }

  lemma BuildTokens(f: Fleet, m: Message, origin: Origin)
    requires Tokens(f) && !origin.Reconciler?
    ensures Tokens(f.(tables := Build(f.tables, m, origin))) && RowsEvolve(f.tables, Build(f.tables, m, origin))
  {}

  lemma RecordTokens(f: Fleet, k: Key, now: int)
    requires Tokens(f) && At(f, k, Built)
    ensures Tokens(f.(tables := Record(f.tables, k, now))) && RowsEvolve(f.tables, Record(f.tables, k, now))
  {}

  lemma TransitTokens(f: Fleet, k: Key, stage: Stage)
    requires Tokens(f) && !stage.Built?
    ensures k in f.tables.transit && !At(f, k, Built) ==> Tokens(f.(tables := MoveTo(f.tables, k, stage)))
    ensures Tokens(f.(tables := Discard(f.tables, k)))
  {}

  lemma MarkedRows(t: Tables, k: Key, succeeded: bool, now: int)
    requires k in t.rows
    ensures var u := MarkOutcome(t, k, succeeded, now);
            && u == t.(rows := u.rows, workloads := u.workloads)
            && u.rows == t.rows[k := t.rows[k].(status := if succeeded then Succeeded else Failed)]
  {
    hide AfterSuccess, AfterFailure, Authoritative;
  }

  lemma OutcomeTokens(f: Fleet, k: Key, succeeded: bool, now: int)
    requires Tokens(f) && k !in f.tables.transit && k in f.tables.rows && Unfinished(f.tables.rows[k])
    ensures var u := MarkOutcome(f.tables, k, succeeded, now);
            Tokens(f.(tables := u, results := f.results - {k})) && RowsEvolve(f.tables, u)
  {
    hide MarkOutcome;
    MarkedRows(f.tables, k, succeeded, now);
  }

  lemma AckTokens(f: Fleet, k: Key)
    requires Tokens(f)
    ensures Tokens(f.(tables := Ack(f.tables, k))) && RowsEvolve(f.tables, Ack(f.tables, k))
  {}

  lemma ReconcileTokens(f: Fleet, w: WorkloadId, row: Workload, tickNow: int, now: int)
    requires Tokens(f)
    ensures var u := ReconcileOne(f.tables, w, row, tickNow, now);
            Tokens(f.(tables := u)) && RowsEvolve(f.tables, u)
  {
    hide InFlight, SnapshotVerdict;
  }

  lemma ExecuteTokens(f: Fleet, k: Key)
    requires Tokens(f) && At(f, k, Sent)
    ensures Tokens(Executed(f, k)) && RowsEvolve(f.tables, Executed(f, k).tables)
  {}

  lemma WorkloadsOnly(f: Fleet, u: Tables)
    requires Tokens(f) && u == f.tables.(workloads := u.workloads)
    ensures Tokens(f.(tables := u)) && RowsEvolve(f.tables, u)
  {}

  lemma RowsStay(t: Tables)
    ensures RowsEvolve(t, t)
  {}

  lemma CallKeepsTokens(f: Fleet, c: Call)
    requires Tokens(f) && CallEnabled(f, c)
    ensures Tokens(ApplyCall(f, c)) && RowsEvolve(f.tables, ApplyCall(f, c).tables)
  {
    hide Build, Record, MoveTo, TokenTables, TokenResults, RowsEvolve, CommandFor, FenceStop;
    var t := f.tables;
    RowsStay(t);
    match c
    case Create(w, customer, spec) => WorkloadsOnly(f, CreateRow(t, w, customer, spec));
    case Assign(w, a) =>
      var u := t.(workloads := t.workloads[w := t.workloads[w].(owner := Some(a), generation := t.workloads[w].generation + 1)]);
      WorkloadsOnly(f, u);
      BuildTokens(f.(tables := u), Message(a, w, Update(t.workloads[w].spec), t.workloads[w].generation + 1), Admin);
      SameRows(t, u, AssignUpdate(t, w, a));
    case ReadForSend(w, kind) => BuildTokens(f, CommandFor(t, w, kind), Admin);
    case RecordRow(k) => RecordTokens(f, k, f.clock);
    case EnqueueJob(k) => TransitTokens(f, k, Queued); TransitRows(t, k, Queued);
    case WriteDesired(k) => WorkloadsOnly(f, SetDesired(t, t.rows[k].message.workload, DesiredAfter(t.rows[k].message.kind)));
    case ReceiveReport(r) => BuildTokens(f, FenceStop(r), Origin.Fencing);
    case HoldForDrain(w) => OtherFields(f, ApplyCall(f, c));
    case StopHeld(r) =>
      BuildTokens(f, FenceStop(r), Draining);
      OtherFields(f.(tables := Build(t, FenceStop(r), Draining)), ApplyCall(f, c));
    case Clear(w) => WorkloadsOnly(f, ClearFailure(t, w));
  }

  lemma OtherFields(f: Fleet, g: Fleet)
    requires Tokens(f) && g.tables == f.tables && g.results == f.results
    ensures Tokens(g)
  {}

  lemma SameRows(t: Tables, u: Tables, v: Tables)
    requires u.rows == t.rows && RowsEvolve(u, v)
    ensures RowsEvolve(t, v)
  {}

  lemma TransitRows(t: Tables, k: Key, stage: Stage)
    ensures k in t.transit ==> RowsEvolve(t, MoveTo(t, k, stage))
    ensures RowsEvolve(t, Discard(t, k))
  {}

  lemma DeliveryKeepsTokens(f: Fleet, d: Delivery)
    requires Tokens(f) && DeliveryEnabled(f, d)
    ensures Tokens(ApplyDelivery(f, d)) && RowsEvolve(f.tables, ApplyDelivery(f, d).tables)
  {
    hide MarkOutcome, Ack, MoveTo, Executed;
    var t := f.tables;
    match d
    case Deliver(k) => TransitTokens(f, k, Sent); TransitRows(t, k, Sent);
    case FailDispatch(k) =>
      TransitTokens(f, k, Sent);
      OutcomeTokens(f.(tables := Discard(t, k)), k, false, f.clock);
    case LoseSent(k) => TransitTokens(f, k, Sent); TransitRows(t, k, Sent);
    case ExecuteSent(k) => ExecuteTokens(f, k);
    case ReceiveAck(k) => AckTokens(f, k);
    case ReceiveResult(k) => OutcomeTokens(f, k, f.results[k], f.clock);
    case LoseResult(k) =>
  }

  /** Every step keeps the tokens, and no row ever goes back: acks and outcomes
      never return a finished command to pending or accepted, nor change it. */
  lemma StepKeepsTokens(f: Fleet, s: Step)
    requires Tokens(f) && Enabled(f, s)
    ensures Tokens(Apply(f, s)) && RowsEvolve(f.tables, Apply(f, s).tables)
  {
    hide CallEnabled, DeliveryEnabled, ApplyCall, ApplyDelivery, ReconcileOne, Assigned, TokenTables, TokenResults, RowsEvolve;
    RowsStay(f.tables);
    match s
    case Control(c) => CallKeepsTokens(f, c);
    case Network(d) => DeliveryKeepsTokens(f, d);
    case AgentSide(e) => OtherFields(f, Apply(f, s));
    case Reconciling(p) =>
      if p.TickBody? {
        var tick := f.tick.value;
        ReconcileTokens(f, p.workload, tick.rows[p.workload], tick.now, f.clock);
        OtherFields(f.(tables := Apply(f, s).tables), Apply(f, s));
      } else {
        OtherFields(f, Apply(f, s));
      }
  }

  lemma {:induction false} ReachableKeepsTokens(f: Fleet, steps: seq<Step>)
    requires Tokens(f) && Runs(f, steps)
    ensures Tokens(End(f, steps))
    decreases |steps|
  {
    hide Tokens, Enabled, Apply;
    if steps != [] {
      StepKeepsTokens(f, steps[0]);
      ReachableKeepsTokens(Apply(f, steps[0]), steps[1..]);
    }
  }
}
