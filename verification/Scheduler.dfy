/** The placement scheduler: hard eligibility rules, a score built from a
    breakdown, and a sort under a total order (packages/scheduler/src/schedule.ts).
    Fractions are exact and Math.round is floor(x + 1/2); ids stand for their
    rank in the string order used to break ties. */
module Scheduler {
  import opened Wrappers

  type AgentId = nat
  type CustomerId = nat

  const REGION_MATCH_POINTS := 30
  const PREFERRED_LABEL_POINTS := 10
  const MEMORY_PRESSURE_MAX_POINTS := 20
  const SPREAD_LOAD_MAX_POINTS := 10
  const CUSTOMER_ANTI_AFFINITY_POINTS := 10
  const STABILITY_BONUS_POINTS := 10
  const RECENT_FAILURE_PENALTY_PER_FAILURE := 5

  datatype AgentStatus = Enrolling | Online | Degraded | Disconnected | Draining | Maintenance | Disabled

  datatype Agent = Agent(
    id: AgentId, status: AgentStatus, region: Option<string>, environment: Option<string>,
    capabilities: seq<string>, labels: map<string, string>,
    totalMemoryMb: Option<nat>, availableMemoryMb: Option<nat>,
    currentWorkloadCount: nat, maxWorkloads: Option<nat>, recentFailureCount: Option<nat>)

  datatype Workload = Workload(
    id: nat, customerId: CustomerId, requiredCapability: Option<string>, requiredMemoryMb: Option<nat>,
    requiredEnvironment: Option<string>, requiredLabels: seq<(string, string)>,
    preferredLabels: seq<(string, string)>, preferredRegion: Option<string>, currentAgentId: Option<AgentId>)

  datatype CustomerPlacement = CustomerPlacement(customerId: CustomerId, agentId: AgentId)

  datatype Reason =
    | NotOnline | MissingCapability | MissingLabel(key: string) | WrongEnvironment | InsufficientMemory | AtCapacity

  datatype Label =
    | RegionMatched | LabelMatched(key: string) | MemoryPressure | BelowAverageLoad
    | AntiAffinity | FailurePenalty | AlreadyHere

  datatype Entry = Entry(why: Label, points: int)

  datatype Candidate = Candidate(
    agentId: AgentId, eligible: bool, reason: Option<Reason>, breakdown: seq<Entry>, totalScore: int)

  datatype Decision = Decision(candidates: seq<Candidate>, selectedAgentId: Option<AgentId>)

  /** The agents' workload counts, of which the scheduler uses the average. */
  datatype FleetLoad = FleetLoad(total: nat, agents: nat)

  // ---------------------------------------------------------- eligibility

  /** A string field that is present and not empty. */
  predicate Present(s: Option<string>) { s.Some? && s.value != "" }

  predicate HasLabel(a: Agent, key: string, value: string) { key in a.labels && a.labels[key] == value }

  function FirstMissingLabel(a: Agent, required: seq<(string, string)>): (r: Option<string>)
    ensures r.None? <==> forall i :: 0 <= i < |required| ==> HasLabel(a, required[i].0, required[i].1)
  {
    if required == [] then None
    else if !HasLabel(a, required[0].0, required[0].1) then Some(required[0].0)
    else
      var rest := FirstMissingLabel(a, required[1..]);
      assert forall i :: 0 < i < |required| ==> required[i] == required[1..][i - 1];
      rest
  }

  function EligibilityFailure(a: Agent, w: Workload): Option<Reason> {
    if !a.status.Online? then Some(NotOnline)
    else if Present(w.requiredCapability) && w.requiredCapability.value !in a.capabilities then Some(MissingCapability)
    else
      var missing := FirstMissingLabel(a, w.requiredLabels);
      if missing.Some? then Some(MissingLabel(missing.value))
      else if Present(w.requiredEnvironment) && a.environment != w.requiredEnvironment then Some(WrongEnvironment)
      else if w.requiredMemoryMb.Some? && a.availableMemoryMb.Some?
              && a.availableMemoryMb.value < w.requiredMemoryMb.value then Some(InsufficientMemory)
      else if a.maxWorkloads.Some? && a.currentWorkloadCount >= a.maxWorkloads.value then Some(AtCapacity)
      else None
  }

  predicate Eligible(a: Agent, w: Workload) { EligibilityFailure(a, w).None? }

  // ---------------------------------------------------------------- score

  /** round(scale * p / q), halves rounded up. */
  function RoundShare(scale: nat, p: nat, q: nat): nat
    requires q > 0
  {
    (2 * scale * p + q) / (2 * q)
  }

  function MemoryEntries(a: Agent): seq<Entry> {
    if a.totalMemoryMb.Some? && a.totalMemoryMb.value > 0 && a.availableMemoryMb.Some? then
      [Entry(MemoryPressure, RoundShare(MEMORY_PRESSURE_MAX_POINTS, a.availableMemoryMb.value, a.totalMemoryMb.value))]
    else []
  }

  function SpreadPoints(count: nat, load: FleetLoad): nat {
    if load.total == 0 || count * load.agents >= load.total then 0
    else RoundShare(SPREAD_LOAD_MAX_POINTS, load.total - count * load.agents, load.total)
  }

  function SpreadEntries(a: Agent, load: FleetLoad): seq<Entry> {
    if SpreadPoints(a.currentWorkloadCount, load) > 0 then
      [Entry(BelowAverageLoad, SpreadPoints(a.currentWorkloadCount, load))]
    else []
  }

  function PreferredEntries(a: Agent, preferred: seq<(string, string)>): seq<Entry> {
    if preferred == [] then []
    else
      var front, last := PreferredEntries(a, preferred[..|preferred| - 1]), preferred[|preferred| - 1];
      if HasLabel(a, last.0, last.1) then front + [Entry(LabelMatched(last.0), PREFERRED_LABEL_POINTS)] else front
  }

  function FailureCount(a: Agent): nat { if a.recentFailureCount.Some? then a.recentFailureCount.value else 0 }

  function RegionEntries(a: Agent, w: Workload): seq<Entry> {
    if Present(w.preferredRegion) && a.region == w.preferredRegion then [Entry(RegionMatched, REGION_MATCH_POINTS)] else []
  }

  function AffinityEntries(a: Agent, w: Workload, placements: set<CustomerPlacement>): seq<Entry> {
    if CustomerPlacement(w.customerId, a.id) in placements then []
    else [Entry(AntiAffinity, CUSTOMER_ANTI_AFFINITY_POINTS)]
  }

  function PenaltyEntries(a: Agent): seq<Entry> {
    if FailureCount(a) > 0 then [Entry(FailurePenalty, -RECENT_FAILURE_PENALTY_PER_FAILURE * FailureCount(a))] else []
  }

  function StabilityEntries(a: Agent, w: Workload): seq<Entry> {
    if w.currentAgentId == Some(a.id) then [Entry(AlreadyHere, STABILITY_BONUS_POINTS)] else []
  }

  function Breakdown(a: Agent, w: Workload, placements: set<CustomerPlacement>, load: FleetLoad): seq<Entry> {
    RegionEntries(a, w) + PreferredEntries(a, w.preferredLabels) + MemoryEntries(a) + SpreadEntries(a, load)
    + AffinityEntries(a, w, placements) + PenaltyEntries(a) + StabilityEntries(a, w)
  }

  function Sum(entries: seq<Entry>): int {
    if entries == [] then 0 else Sum(entries[..|entries| - 1]) + entries[|entries| - 1].points
  }

  // ------------------------------------------------- what the score is worth

  lemma {:induction false} SumConcat(x: seq<Entry>, y: seq<Entry>)
    ensures Sum(x + y) == Sum(x) + Sum(y)
  {
    if y == [] {
      assert x + y == x;
    } else {
      SumConcat(x, y[..|y| - 1]);
      assert (x + y)[..|x + y| - 1] == x + y[..|y| - 1];
    }
  }

  function MemoryPoints(a: Agent): int { Sum(MemoryEntries(a)) }

  /** The score, part by part. */
  lemma ScoreParts(a: Agent, w: Workload, placements: set<CustomerPlacement>, load: FleetLoad)
    ensures Sum(Breakdown(a, w, placements, load))
         == Sum(RegionEntries(a, w)) + Sum(PreferredEntries(a, w.preferredLabels)) + MemoryPoints(a)
            + SpreadPoints(a.currentWorkloadCount, load) + Sum(AffinityEntries(a, w, placements))
            - RECENT_FAILURE_PENALTY_PER_FAILURE * FailureCount(a) + Sum(StabilityEntries(a, w))
  {
    hide RoundShare, SpreadPoints;
    var e1, e2, e3, e4 := RegionEntries(a, w), PreferredEntries(a, w.preferredLabels), MemoryEntries(a), SpreadEntries(a, load);
    var e5, e6, e7 := AffinityEntries(a, w, placements), PenaltyEntries(a), StabilityEntries(a, w);
    assert Sum(e4) == SpreadPoints(a.currentWorkloadCount, load);
    assert Sum(e6) == -RECENT_FAILURE_PENALTY_PER_FAILURE * FailureCount(a);
    hide *;
    SumConcat(e1, e2);
    SumConcat(e1 + e2, e3);
    SumConcat(e1 + e2 + e3, e4);
    SumConcat(e1 + e2 + e3 + e4, e5);
    SumConcat(e1 + e2 + e3 + e4 + e5, e6);
    SumConcat(e1 + e2 + e3 + e4 + e5 + e6, e7);
  }

  /** The preferred labels that the agent has. */
  function Matches(a: Agent, preferred: seq<(string, string)>): set<nat> {
    set i: nat | i < |preferred| && preferred[i].0 in a.labels && a.labels[preferred[i].0] == preferred[i].1
  }

  /** The score of an agent, from the agent, the workload and the placements: 30 for
      the preferred region, 10 for each preferred label, up to 20 for the share of
      memory available, up to 10 for how far the agent is below the average load, 10
      if it hosts no other bot of the customer, 5 off for each recent failure, and 10
      if the workload is there already. */
  function Worth(a: Agent, w: Workload, placements: set<CustomerPlacement>, load: FleetLoad): int {
    (if w.preferredRegion.Some? && w.preferredRegion.value != "" && a.region == w.preferredRegion then 30 else 0)
    + 10 * |Matches(a, w.preferredLabels)|
    + (if a.totalMemoryMb.Some? && a.availableMemoryMb.Some? && a.totalMemoryMb.value > 0
       then RoundShare(20, a.availableMemoryMb.value, a.totalMemoryMb.value) else 0)
    + (if a.currentWorkloadCount * load.agents < load.total
       then RoundShare(10, load.total - a.currentWorkloadCount * load.agents, load.total) else 0)
    + (if CustomerPlacement(w.customerId, a.id) in placements then 0 else 10)
    - (if a.recentFailureCount.Some? then 5 * a.recentFailureCount.value else 0)
    + (if w.currentAgentId == Some(a.id) then 10 else 0)
  }

  lemma {:induction false} PreferredWorth(a: Agent, preferred: seq<(string, string)>)
    ensures Sum(PreferredEntries(a, preferred)) == 10 * |Matches(a, preferred)|
  {
    if preferred == [] {
      assert Matches(a, preferred) == {};
    } else {
      var n, front := |preferred| - 1, preferred[..|preferred| - 1];
      PreferredWorth(a, front);
      if HasLabel(a, preferred[n].0, preferred[n].1) {
        SumConcat(PreferredEntries(a, front), [Entry(LabelMatched(preferred[n].0), PREFERRED_LABEL_POINTS)]);
        assert Matches(a, preferred) == Matches(a, front) + {n};
      } else {
        assert Matches(a, preferred) == Matches(a, front);
      }
    }
  }

  /** The breakdown of an agent adds up to its worth. */
  lemma ScoreIsWorth(a: Agent, w: Workload, placements: set<CustomerPlacement>, load: FleetLoad)
    ensures Sum(Breakdown(a, w, placements, load)) == Worth(a, w, placements, load)
  {
    hide RoundShare, Breakdown, PreferredEntries, Matches;
    ScoreParts(a, w, placements, load);
    PreferredWorth(a, w.preferredLabels);
  }

  lemma NoLoadNoPoints(a: Agent, load: FleetLoad)
    ensures load.total == 0 ==> SpreadPoints(a.currentWorkloadCount, load) == 0
  {}

  /** The loop over preferred labels. */
  method PushPreferred(breakdown: seq<Entry>, a: Agent, preferred: seq<(string, string)>) returns (r: seq<Entry>)
    ensures r == breakdown + PreferredEntries(a, preferred)
  {
    r := breakdown;
    for i := 0 to |preferred|
      invariant r == breakdown + PreferredEntries(a, preferred[..i])
    {
      assert preferred[..i + 1][..i] == preferred[..i];
      var (key, value) := preferred[i];
      if HasLabel(a, key, value) {
        r := r + [Entry(LabelMatched(key), PREFERRED_LABEL_POINTS)];
      }
    }
    assert preferred[..|preferred|] == preferred;
  }

  /** The source's pushes, in branches and a loop. */
  method ScoreEligibleAgent(a: Agent, w: Workload, placements: set<CustomerPlacement>, load: FleetLoad)
    returns (breakdown: seq<Entry>)
    ensures breakdown == Breakdown(a, w, placements, load)
    ensures Sum(breakdown) == Worth(a, w, placements, load)
  {
    ScoreIsWorth(a, w, placements, load);
    hide Sum, Worth;
    hide RoundShare, SpreadPoints, PreferredEntries;
    breakdown := [];
    if Present(w.preferredRegion) && a.region == w.preferredRegion {
      breakdown := breakdown + [Entry(RegionMatched, REGION_MATCH_POINTS)];
    }
    breakdown := PushPreferred(breakdown, a, w.preferredLabels);
    if a.totalMemoryMb.Some? && a.totalMemoryMb.value > 0 && a.availableMemoryMb.Some? {
      var points := RoundShare(MEMORY_PRESSURE_MAX_POINTS, a.availableMemoryMb.value, a.totalMemoryMb.value);
      breakdown := breakdown + [Entry(MemoryPressure, points)];
    }
    assert breakdown == RegionEntries(a, w) + PreferredEntries(a, w.preferredLabels) + MemoryEntries(a);
    ghost var soFar := breakdown;
    NoLoadNoPoints(a, load);
    if load.total > 0 {
      var points := SpreadPoints(a.currentWorkloadCount, load);
      if points > 0 {
        breakdown := breakdown + [Entry(BelowAverageLoad, points)];
      }
    }
    assert breakdown == soFar + SpreadEntries(a, load);
    soFar := breakdown;
    if CustomerPlacement(w.customerId, a.id) !in placements {
      breakdown := breakdown + [Entry(AntiAffinity, CUSTOMER_ANTI_AFFINITY_POINTS)];
    }
    assert breakdown == soFar + AffinityEntries(a, w, placements);
    soFar := breakdown;
    if a.recentFailureCount.Some? && a.recentFailureCount.value > 0 {
      breakdown := breakdown + [Entry(FailurePenalty, -RECENT_FAILURE_PENALTY_PER_FAILURE * a.recentFailureCount.value)];
    }
    assert breakdown == soFar + PenaltyEntries(a);
    if w.currentAgentId == Some(a.id) {
      breakdown := breakdown + [Entry(AlreadyHere, STABILITY_BONUS_POINTS)];
    }
  }

  // ------------------------------------------------------------- decision

  function TotalCount(agents: seq<Agent>): nat {
    if agents == [] then 0 else TotalCount(agents[..|agents| - 1]) + agents[|agents| - 1].currentWorkloadCount
  }

  function LoadOf(agents: seq<Agent>): FleetLoad { FleetLoad(TotalCount(agents), |agents|) }

  function CandidateFor(a: Agent, w: Workload, placements: set<CustomerPlacement>, load: FleetLoad): (c: Candidate)
    ensures c.agentId == a.id && (c.eligible <==> Eligible(a, w))
  {
    match EligibilityFailure(a, w)
    case Some(reason) => Candidate(a.id, false, Some(reason), [], 0)
    case None =>
      var breakdown := Breakdown(a, w, placements, load);
      Candidate(a.id, true, None, breakdown, Sum(breakdown))
  }

  function CandidatesFor(agents: seq<Agent>, w: Workload, placements: set<CustomerPlacement>, load: FleetLoad): (r: seq<Candidate>)
    ensures |r| == |agents|
    ensures forall i :: 0 <= i < |r| ==> r[i] == CandidateFor(agents[i], w, placements, load)
  {
    seq(|agents|, i requires 0 <= i < |agents| => CandidateFor(agents[i], w, placements, load))
  }

  /** The sort's comparator: eligible first, then higher score, then smaller id. */
  predicate Precedes(a: Candidate, b: Candidate) {
    if a.eligible != b.eligible then a.eligible
    else if a.totalScore != b.totalScore then a.totalScore > b.totalScore
    else a.agentId < b.agentId
  }

  function Insert(c: Candidate, sorted: seq<Candidate>): seq<Candidate> {
    if sorted == [] || !Precedes(c, sorted[|sorted| - 1]) then sorted + [c]
    else Insert(c, sorted[..|sorted| - 1]) + [sorted[|sorted| - 1]]
  }

  /** A stable sort. */
  function SortCandidates(candidates: seq<Candidate>): seq<Candidate> {
    if candidates == [] then []
    else Insert(candidates[|candidates| - 1], SortCandidates(candidates[..|candidates| - 1]))
  }

  function FirstEligible(candidates: seq<Candidate>): Option<AgentId> {
    if candidates == [] then None
    else if candidates[0].eligible then Some(candidates[0].agentId)
    else FirstEligible(candidates[1..])
  }

  function ScheduleWorkload(w: Workload, agents: seq<Agent>, placements: set<CustomerPlacement>): Decision {
    var candidates := SortCandidates(CandidatesFor(agents, w, placements, LoadOf(agents)));
    Decision(candidates, FirstEligible(candidates))
  }
}
