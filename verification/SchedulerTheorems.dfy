/** What the scheduler's decision means: it does not depend on the order of the
    agents, it picks a best eligible agent, and an agent that loses keeps losing
    when it gets busier, fails more or has less memory. */
module SchedulerTheorems {
  import opened Wrappers
  import opened Scheduler

  ghost predicate DistinctAgents(agents: seq<Agent>) {
    forall i, j :: 0 <= i < j < |agents| ==> agents[i].id != agents[j].id
  }

  // ------------------------------------------------------------- sorting

  ghost predicate Sorted(s: seq<Candidate>) {
    forall i, j :: 0 <= i < j < |s| ==> !Precedes(s[j], s[i])
  }

  ghost predicate DistinctCandidates(s: seq<Candidate>) {
    forall i, j :: 0 <= i < j < |s| ==> s[i].agentId != s[j].agentId
  }

  lemma NotPrecedesTransitive(x: Candidate, y: Candidate, z: Candidate)
    requires !Precedes(x, y) && !Precedes(y, z)
    ensures !Precedes(x, z)
  {}

  lemma PrecedesAsymmetric(x: Candidate, y: Candidate)
    requires Precedes(x, y)
    ensures !Precedes(y, x)
  {}

  lemma SortedSnoc(s: seq<Candidate>, c: Candidate)
    requires Sorted(s) && forall i :: 0 <= i < |s| ==> !Precedes(c, s[i])
    ensures Sorted(s + [c])
  {}

  lemma {:induction false} InsertSorts(c: Candidate, s: seq<Candidate>)
    requires Sorted(s)
    ensures Sorted(Insert(c, s))
    ensures multiset(Insert(c, s)) == multiset(s) + multiset{c}
  {
    hide Precedes;
    if s == [] || !Precedes(c, s[|s| - 1]) {
      forall i | 0 <= i < |s| ensures !Precedes(c, s[i]) {
        if i < |s| - 1 {
          NotPrecedesTransitive(c, s[|s| - 1], s[i]);
        }
      }
      SortedSnoc(s, c);
    } else {
      var front, last := s[..|s| - 1], s[|s| - 1];
      InsertSorts(c, front);
      assert s == front + [last];
      var r := Insert(c, front);
      forall i | 0 <= i < |r| ensures !Precedes(last, r[i]) {
        assert r[i] in multiset(front) + multiset{c};
        if r[i] == c {
          PrecedesAsymmetric(c, last);
        } else {
          var k :| 0 <= k < |front| && front[k] == r[i];
        }
      }
      SortedSnoc(r, last);
    }
  }

  lemma NothingIsSorted()
    ensures Sorted([])
  {}

  lemma {:induction false} SortSorts(s: seq<Candidate>)
    ensures Sorted(SortCandidates(s))
    ensures multiset(SortCandidates(s)) == multiset(s)
  {
    hide Sorted, Insert;
    if s == [] {
      assert Sorted([]) by { NothingIsSorted(); }
    } else {
      var front := s[..|s| - 1];
      SortSorts(front);
      InsertSorts(s[|s| - 1], SortCandidates(front));
      assert s == front + [s[|s| - 1]];
    }
  }

  lemma SameHead(s: seq<Candidate>, t: seq<Candidate>)
    requires Sorted(s) && Sorted(t) && multiset(s) == multiset(t) && DistinctCandidates(s) && s != []
    ensures t != [] && s[0] == t[0]
  {
    assert s[0] in multiset(t);
    var i :| 0 <= i < |t| && t[i] == s[0];
    assert t[0] in multiset(s);
    var j :| 0 <= j < |s| && s[j] == t[0];
  }

  lemma TailMultiset<T>(s: seq<T>)
    requires s != []
    ensures multiset(s[1..]) == multiset(s) - multiset{s[0]}
  {
    assert s == [s[0]] + s[1..];
  }

  lemma {:induction false} InsertKeepsDistinct(c: Candidate, s: seq<Candidate>)
    requires DistinctCandidates(s) && forall i :: 0 <= i < |s| ==> s[i].agentId != c.agentId
    ensures DistinctCandidates(Insert(c, s))
    ensures forall x :: x in Insert(c, s) <==> x == c || x in s
  {
    hide Precedes;
    if s != [] && Precedes(c, s[|s| - 1]) {
      var front, last := s[..|s| - 1], s[|s| - 1];
      InsertKeepsDistinct(c, front);
      assert s == front + [last];
      var r := Insert(c, front);
      forall k | 0 <= k < |r| ensures r[k].agentId != last.agentId {
        assert r[k] in r;
        if r[k] != c {
          var m :| 0 <= m < |front| && front[m] == r[k];
        }
      }
    }
  }

  lemma {:induction false} SortKeepsDistinct(s: seq<Candidate>)
    requires DistinctCandidates(s)
    ensures DistinctCandidates(SortCandidates(s))
    ensures forall x :: x in SortCandidates(s) <==> x in s
  {
    if s != [] {
      SortKeepsDistinct(s[..|s| - 1]);
      var r := SortCandidates(s[..|s| - 1]);
      forall k | 0 <= k < |r| ensures r[k].agentId != s[|s| - 1].agentId {
        assert r[k] in r;
        var m :| 0 <= m < |s| - 1 && s[..|s| - 1][m] == r[k];
        assert s[m].agentId != s[|s| - 1].agentId;
      }
      InsertKeepsDistinct(s[|s| - 1], SortCandidates(s[..|s| - 1]));
      assert s == s[..|s| - 1] + [s[|s| - 1]];
    }
  }

  /** Two sorted arrangements of the same candidates are the same list. */
  lemma {:induction false} SortedUnique(s: seq<Candidate>, t: seq<Candidate>)
    requires Sorted(s) && Sorted(t) && multiset(s) == multiset(t) && DistinctCandidates(s)
    ensures s == t
  {
    hide Precedes;
    assert |s| == |multiset(s)| == |multiset(t)| == |t|;
    if s != [] {
      SameHead(s, t);
      TailMultiset(s);
      TailMultiset(t);
      SortedUnique(s[1..], t[1..]);
    }
  }

  // ------------------------------------------------------ order-independence

  function RemoveAt<T>(s: seq<T>, i: nat): seq<T>
    requires i < |s|
  {
    s[..i] + s[i + 1..]
  }

  lemma RemoveAtMultiset<T>(s: seq<T>, i: nat)
    requires i < |s|
    ensures multiset(RemoveAt(s, i)) == multiset(s) - multiset{s[i]}
  {
    assert s == s[..i] + [s[i]] + s[i + 1..];
  }

  lemma {:induction false} CountRemoveAt(agents: seq<Agent>, i: nat)
    requires i < |agents|
    ensures TotalCount(agents) == TotalCount(RemoveAt(agents, i)) + agents[i].currentWorkloadCount
  {
    var n := |agents| - 1;
    if i < n {
      CountRemoveAt(agents[..n], i);
      var rest := RemoveAt(agents, i);
      assert rest[..n - 1] == RemoveAt(agents[..n], i) && rest[n - 1] == agents[n];
    } else {
      assert RemoveAt(agents, i) == agents[..n];
    }
  }

  /** The other list without the match of this list's last element. */
  lemma MatchLast<T>(s: seq<T>, t: seq<T>) returns (i: nat)
    requires multiset(s) == multiset(t) && s != []
    ensures i < |t| && t[i] == s[|s| - 1]
    ensures multiset(s[..|s| - 1]) == multiset(RemoveAt(t, i))
  {
    var n := |s| - 1;
    assert s[n] in multiset(t);
    i :| 0 <= i < |t| && t[i] == s[n];
    RemoveAtMultiset(t, i);
    assert s == s[..n] + [s[n]];
  }

  lemma {:induction false} PermutedTotal(s: seq<Agent>, t: seq<Agent>)
    requires multiset(s) == multiset(t)
    ensures TotalCount(s) == TotalCount(t) && |s| == |t|
  {
    assert |s| == |multiset(s)| == |multiset(t)| == |t|;
    if s != [] {
      var i := MatchLast(s, t);
      PermutedTotal(s[..|s| - 1], RemoveAt(t, i));
      CountRemoveAt(t, i);
    }
  }

  lemma CandidatesRemoveAt(t: seq<Agent>, i: nat, w: Workload, placements: set<CustomerPlacement>, load: FleetLoad)
    requires i < |t|
    ensures multiset(CandidatesFor(t, w, placements, load))
         == multiset(CandidatesFor(RemoveAt(t, i), w, placements, load)) + multiset{CandidateFor(t[i], w, placements, load)}
  {
    hide CandidateFor;
    var ct := CandidatesFor(t, w, placements, load);
    assert RemoveAt(ct, i) == CandidatesFor(RemoveAt(t, i), w, placements, load);
    assert ct == ct[..i] + [ct[i]] + ct[i + 1..];
  }

  lemma {:induction false} PermutedCandidates(
      s: seq<Agent>, t: seq<Agent>, w: Workload, placements: set<CustomerPlacement>, load: FleetLoad)
    requires multiset(s) == multiset(t)
    ensures multiset(CandidatesFor(s, w, placements, load)) == multiset(CandidatesFor(t, w, placements, load))
  {
    hide CandidateFor;
    assert |s| == |multiset(s)| == |multiset(t)| == |t|;
    if s != [] {
      var i := MatchLast(s, t);
      PermutedCandidates(s[..|s| - 1], RemoveAt(t, i), w, placements, load);
      CandidatesRemoveAt(t, i, w, placements, load);
      CandidatesRemoveAt(s, |s| - 1, w, placements, load);
      assert RemoveAt(s, |s| - 1) == s[..|s| - 1];
    }
  }

  /** Permuting the agent list gives the identical candidate list and selection. */
  lemma OrderDoesNotMatter(w: Workload, s: seq<Agent>, t: seq<Agent>, placements: set<CustomerPlacement>)
    requires DistinctAgents(s) && multiset(s) == multiset(t)
    ensures ScheduleWorkload(w, s, placements) == ScheduleWorkload(w, t, placements)
  {
    hide CandidateFor, Precedes;
    var load := LoadOf(s);
    PermutedTotal(s, t);
    PermutedCandidates(s, t, w, placements, load);
    var cs, ct := CandidatesFor(s, w, placements, load), CandidatesFor(t, w, placements, load);
    SortSorts(cs);
    SortSorts(ct);
    SortKeepsDistinct(cs);
    SortedUnique(SortCandidates(cs), SortCandidates(ct));
  }

  // ------------------------------------------------- hard requirements, rounding

  /** Eligible means every hard requirement holds, in whatever order they are checked. */
  lemma EligibleIffAllHold(a: Agent, w: Workload)
    ensures Eligible(a, w) <==>
              && a.status.Online?
              && (Present(w.requiredCapability) ==> w.requiredCapability.value in a.capabilities)
              && (forall i :: 0 <= i < |w.requiredLabels| ==> HasLabel(a, w.requiredLabels[i].0, w.requiredLabels[i].1))
              && (Present(w.requiredEnvironment) ==> a.environment == w.requiredEnvironment)
              && (w.requiredMemoryMb.Some? && a.availableMemoryMb.Some? ==>
                    w.requiredMemoryMb.value <= a.availableMemoryMb.value)
              && (a.maxWorkloads.Some? ==> a.currentWorkloadCount < a.maxWorkloads.value)
  {
    hide FirstMissingLabel;
  }

  /** The first required label that the agent does not have is this one. */
  predicate Lacks(a: Agent, required: seq<(string, string)>, key: string) {
    exists i :: 0 <= i < |required| && required[i].0 == key && (key !in a.labels || a.labels[key] != required[i].1)
      && forall j :: 0 <= j < i ==> required[j].0 in a.labels && a.labels[required[j].0] == required[j].1
  }

  /** The reason given to an agent that is not eligible is its first requirement that
      fails, in the order of the documentation. */
  lemma ReasonIsTheFirstFailure(a: Agent, w: Workload)
    ensures var online, capable := a.status.Online?, Present(w.requiredCapability) ==> w.requiredCapability.value in a.capabilities;
            var labelled := forall i :: 0 <= i < |w.requiredLabels| ==>
                              w.requiredLabels[i].0 in a.labels && a.labels[w.requiredLabels[i].0] == w.requiredLabels[i].1;
            var placed := Present(w.requiredEnvironment) ==> a.environment == w.requiredEnvironment;
            var roomy := w.requiredMemoryMb.Some? && a.availableMemoryMb.Some? ==>
                           w.requiredMemoryMb.value <= a.availableMemoryMb.value;
            match EligibilityFailure(a, w)
            case None => true
            case Some(NotOnline) => !online
            case Some(MissingCapability) => online && !capable
            case Some(MissingLabel(key)) => online && capable && Lacks(a, w.requiredLabels, key)
            case Some(WrongEnvironment) => online && capable && labelled && !placed
            case Some(InsufficientMemory) => online && capable && labelled && placed && !roomy
            case Some(AtCapacity) => online && capable && labelled && placed && roomy
                                     && a.maxWorkloads.Some? && a.maxWorkloads.value <= a.currentWorkloadCount
  {
    MissingLabelIsRequired(a, w.requiredLabels);
    assert FirstMissingLabel(a, w.requiredLabels).None? <==>
           forall i :: 0 <= i < |w.requiredLabels| ==> HasLabel(a, w.requiredLabels[i].0, w.requiredLabels[i].1);
    hide FirstMissingLabel;
  }

  lemma {:induction false} MissingLabelIsRequired(a: Agent, required: seq<(string, string)>)
    ensures FirstMissingLabel(a, required).Some? ==> Lacks(a, required, FirstMissingLabel(a, required).value)
  {
    if required != [] && HasLabel(a, required[0].0, required[0].1) {
      MissingLabelIsRequired(a, required[1..]);
      if FirstMissingLabel(a, required).Some? {
        var key := FirstMissingLabel(a, required).value;
        var i :| 0 <= i < |required[1..]| && required[1..][i].0 == key && (key !in a.labels || a.labels[key] != required[1..][i].1)
          && forall j :: 0 <= j < i ==> required[1..][j].0 in a.labels && a.labels[required[1..][j].0] == required[1..][j].1;
        forall j | 0 <= j < i + 1 ensures required[j].0 in a.labels && a.labels[required[j].0] == required[j].1 {
          assert j > 0 ==> required[j] == required[1..][j - 1];
        }
        assert required[i + 1] == required[1..][i];
      }
    }
  }

  predicate Names(breakdown: seq<Entry>, why: Label) { exists i :: 0 <= i < |breakdown| && breakdown[i].why == why }

  lemma NamesConcat(x: seq<Entry>, y: seq<Entry>, why: Label)
    ensures Names(x + y, why) <==> Names(x, why) || Names(y, why)
  {
    if i :| 0 <= i < |x| && x[i].why == why {
      assert (x + y)[i] == x[i];
    }
    if i :| 0 <= i < |y| && y[i].why == why {
      assert (x + y)[|x| + i] == y[i];
    }
  }

  lemma {:induction false} PreferredNames(a: Agent, preferred: seq<(string, string)>, why: Label)
    ensures Names(PreferredEntries(a, preferred), why) ==> why.LabelMatched?
  {
    if preferred != [] {
      var n := |preferred| - 1;
      PreferredNames(a, preferred[..n], why);
      NamesConcat(PreferredEntries(a, preferred[..n]), [Entry(LabelMatched(preferred[n].0), PREFERRED_LABEL_POINTS)], why);
    }
  }

  lemma NamesOne(entries: seq<Entry>, why: Label)
    requires |entries| <= 1
    ensures Names(entries, why) <==> entries != [] && entries[0].why == why
  {}

  /** The reason applies to the agent. */
  predicate Applies(a: Agent, w: Workload, placements: set<CustomerPlacement>, load: FleetLoad, why: Label) {
    match why
    case RegionMatched => Present(w.preferredRegion) && a.region == w.preferredRegion
    case LabelMatched(_) => true
    case MemoryPressure => a.totalMemoryMb.Some? && a.totalMemoryMb.value > 0 && a.availableMemoryMb.Some?
    case BelowAverageLoad => SpreadPoints(a.currentWorkloadCount, load) > 0
    case AntiAffinity => CustomerPlacement(w.customerId, a.id) !in placements
    case FailurePenalty => a.recentFailureCount.Some? && a.recentFailureCount.value > 0
    case AlreadyHere => w.currentAgentId == Some(a.id)
  }

  lemma PartsName(a: Agent, w: Workload, placements: set<CustomerPlacement>, load: FleetLoad, why: Label)
    requires !why.LabelMatched?
    ensures NamedByPart(a, w, placements, load, why) <==> Applies(a, w, placements, load, why)
  {
    hide RoundShare, SpreadPoints, Names;
    NamesOne(RegionEntries(a, w), why);
    NamesOne(MemoryEntries(a), why);
    NamesOne(SpreadEntries(a, load), why);
    NamesOne(AffinityEntries(a, w, placements), why);
    NamesOne(PenaltyEntries(a), why);
    NamesOne(StabilityEntries(a, w), why);
  }

  /** Apart from preferred labels, a breakdown names a reason exactly when it applies. */
  lemma BreakdownSaysWhy(a: Agent, w: Workload, placements: set<CustomerPlacement>, load: FleetLoad, why: Label)
    requires !why.LabelMatched?
    ensures Names(Breakdown(a, w, placements, load), why) <==> Applies(a, w, placements, load, why)
  {
    hide Names, NamedByPart, Breakdown, Applies;
    BreakdownParts(a, w, placements, load, why);
    PreferredNames(a, w.preferredLabels, why);
    PartsName(a, w, placements, load, why);
  }

  predicate NamedByPart(a: Agent, w: Workload, placements: set<CustomerPlacement>, load: FleetLoad, why: Label) {
    Names(RegionEntries(a, w), why) || Names(MemoryEntries(a), why) || Names(SpreadEntries(a, load), why)
    || Names(AffinityEntries(a, w, placements), why) || Names(PenaltyEntries(a), why) || Names(StabilityEntries(a, w), why)
  }

  lemma BreakdownParts(a: Agent, w: Workload, placements: set<CustomerPlacement>, load: FleetLoad, why: Label)
    ensures Names(Breakdown(a, w, placements, load), why) <==>
              Names(PreferredEntries(a, w.preferredLabels), why) || NamedByPart(a, w, placements, load, why)
  {
    var e1, e2, e3, e4 := RegionEntries(a, w), PreferredEntries(a, w.preferredLabels), MemoryEntries(a), SpreadEntries(a, load);
    var e5, e6, e7 := AffinityEntries(a, w, placements), PenaltyEntries(a), StabilityEntries(a, w);
    hide Names, RegionEntries, PreferredEntries, MemoryEntries, SpreadEntries, AffinityEntries, PenaltyEntries, StabilityEntries;
    NamesConcat(e1, e2, why);
    NamesConcat(e1 + e2, e3, why);
    NamesConcat(e1 + e2 + e3, e4, why);
    NamesConcat(e1 + e2 + e3 + e4, e5, why);
    NamesConcat(e1 + e2 + e3 + e4 + e5, e6, why);
    NamesConcat(e1 + e2 + e3 + e4 + e5 + e6, e7, why);
  }

  function AddUp(agents: seq<Agent>): nat { if agents == [] then 0 else agents[0].currentWorkloadCount + AddUp(agents[1..]) }

  /** The load that scores are relative to is the sum of all workload counts and the
      number of agents. */
  lemma {:induction false} LoadIsSumAndNumber(agents: seq<Agent>)
    ensures LoadOf(agents) == FleetLoad(AddUp(agents), |agents|)
  {
    if agents != [] {
      LoadIsSumAndNumber(agents[1..]);
      CountRemoveAt(agents, 0);
      assert RemoveAt(agents, 0) == agents[1..];
    }
  }

  /** A rounded share is the nearest integer to scale * p / q, halves rounded up. */
  lemma RoundShareIsNearest(scale: nat, p: nat, q: nat)
    requires q > 0
    ensures var r := RoundShare(scale, p, q);
            2 * (scale * p) - q < 2 * (q * r) <= 2 * (scale * p) + q
  {
    var n := 2 * scale * p + q;
    DivBounds(n, 2 * q);
    assert 2 * scale * p == 2 * (scale * p);
    var r := n / (2 * q);
    assert r * (2 * q) == 2 * (q * r) && (r + 1) * (2 * q) == 2 * (q * r) + 2 * q;
  }

  // ------------------------------------------------------------- selection

  /** Agent i, scored in the whole list. */
  function Score(w: Workload, agents: seq<Agent>, placements: set<CustomerPlacement>, i: nat): int
    requires i < |agents|
  {
    Sum(Breakdown(agents[i], w, placements, LoadOf(agents)))
  }

  ghost predicate Beats(w: Workload, agents: seq<Agent>, placements: set<CustomerPlacement>, i: nat, j: nat)
    requires i < |agents| && j < |agents|
  {
    Score(w, agents, placements, i) > Score(w, agents, placements, j)
    || (Score(w, agents, placements, i) == Score(w, agents, placements, j) && agents[i].id <= agents[j].id)
  }

  lemma HeadWins(s: seq<Candidate>)
    requires Sorted(s)
    ensures FirstEligible(s) == if s != [] && s[0].eligible then Some(s[0].agentId) else None
  {}

  /** No agent is selected exactly when none is eligible. Otherwise the selected
      one is eligible and has maximal score and the least id among ties. */
  lemma SelectionIsBest(w: Workload, agents: seq<Agent>, placements: set<CustomerPlacement>) returns (i: nat)
    requires DistinctAgents(agents)
    ensures var selected := ScheduleWorkload(w, agents, placements).selectedAgentId;
            && (selected.None? <==> forall j :: 0 <= j < |agents| ==> !Eligible(agents[j], w))
            && (selected.Some? ==>
                  && i < |agents| && agents[i].id == selected.value && Eligible(agents[i], w)
                  && forall j :: 0 <= j < |agents| && Eligible(agents[j], w) ==> Beats(w, agents, placements, i, j))
  {
    hide Breakdown, Insert, EligibilityFailure;
    i := 0;
    var cs := CandidatesFor(agents, w, placements, LoadOf(agents));
    var s := SortCandidates(cs);
    SortSorts(cs);
    HeadWins(s);
    forall j | 0 <= j < |agents| && Eligible(agents[j], w)
      ensures s != [] && s[0].eligible && !Precedes(cs[j], s[0])
    {
      assert cs[j] in multiset(s);
      var k :| 0 <= k < |s| && s[k] == cs[j];
    }
    if s != [] {
      assert s[0] in multiset(cs);
      i :| 0 <= i < |cs| && cs[i] == s[0];
    }
  }

  /** The candidate list says of every agent what it is, and is ranked: eligible before
      not, then by score, then by id. */
  lemma CandidatesAreRanked(w: Workload, agents: seq<Agent>, placements: set<CustomerPlacement>)
    ensures var cs := ScheduleWorkload(w, agents, placements).candidates;
            && multiset(cs) == multiset(CandidatesFor(agents, w, placements, LoadOf(agents)))
            && forall i, j :: 0 <= i < j < |cs| ==>
                 && (cs[j].eligible ==> cs[i].eligible)
                 && (cs[i].eligible == cs[j].eligible ==> cs[i].totalScore >= cs[j].totalScore)
                 && (cs[i].eligible == cs[j].eligible && cs[i].totalScore == cs[j].totalScore ==> cs[i].agentId <= cs[j].agentId)
  {
    hide CandidatesFor, SortCandidates, FirstEligible;
    SortSorts(CandidatesFor(agents, w, placements, LoadOf(agents)));
  }

  /** A candidate carries its agent's worth, or the reason why it is none. */
  lemma CandidateInColumns(a: Agent, w: Workload, placements: set<CustomerPlacement>, load: FleetLoad)
    ensures var c := CandidateFor(a, w, placements, load);
            && c.agentId == a.id && (c.eligible <==> EligibilityFailure(a, w) == None)
            && (c.eligible ==> c.reason == None && c.totalScore == Worth(a, w, placements, load)
                               && c.breakdown == Breakdown(a, w, placements, load))
            && (!c.eligible ==> c.reason == EligibilityFailure(a, w) && c.totalScore == 0 && c.breakdown == [])
  {
    ScoreIsWorth(a, w, placements, load);
    hide Breakdown, Worth, EligibilityFailure;
  }

  /** Of two agents alike except that one already hosts the workload's customer, the
      host is not selected. */
  lemma SiblingLoses(w: Workload, agents: seq<Agent>, placements: set<CustomerPlacement>, i: nat, j: nat)
    requires DistinctAgents(agents) && i < |agents| && j < |agents|
    requires agents[j] == agents[i].(id := agents[j].id) && w.currentAgentId != Some(agents[i].id)
    requires CustomerPlacement(w.customerId, agents[i].id) in placements
    requires CustomerPlacement(w.customerId, agents[j].id) !in placements
    ensures ScheduleWorkload(w, agents, placements).selectedAgentId != Some(agents[i].id)
  {
    hide Breakdown, ScheduleWorkload, EligibilityFailure, RoundShare;
    var a, b, load := agents[i], agents[j], LoadOf(agents);
    ScoreIsWorth(a, w, placements, load);
    ScoreIsWorth(b, w, placements, load);
    assert Eligible(a, w) <==> Eligible(b, w) by { AlikeEligible(a, b, w); }
    assert Matches(a, w.preferredLabels) == Matches(b, w.preferredLabels);
    var k := SelectionIsBest(w, agents, placements);
  }

  lemma AlikeEligible(a: Agent, b: Agent, w: Workload)
    requires b == a.(id := b.id)
    ensures Eligible(a, w) <==> Eligible(b, w)
  {
    EligibleIffAllHold(a, w);
    EligibleIffAllHold(b, w);
    hide EligibilityFailure;
  }

  // ----------------------------------------------------------- monotonicity

  lemma DivBounds(n: nat, d: nat)
    requires d > 0
    ensures (n / d) * d <= n < (n / d + 1) * d
  {}

  lemma AtMostQuotient(a: nat, n: nat, d: nat)
    requires d > 0 && a * d <= n
    ensures a <= n / d
  {
    DivBounds(n, d);
    if n / d + 1 <= a {
      MulMono(n / d + 1, a, d);
    }
  }

  /** Rounding respects the order of the shares p/q <= r/s. */
  lemma RoundShareMono(scale: nat, p: nat, q: nat, r: nat, s: nat)
    requires q > 0 && s > 0 && p * s <= r * q
    ensures RoundShare(scale, p, q) <= RoundShare(scale, r, s)
  {
    var a := RoundShare(scale, p, q);
    DivBounds(2 * scale * p + q, 2 * q);
    ScaledShare(2 * scale, p, q, r, s, 2 * a);
    assert a * (2 * s) <= 2 * scale * r + s;
    AtMostQuotient(a, 2 * scale * r + s, 2 * s);
  }

  lemma ScaledShare(k: nat, p: nat, q: nat, r: nat, s: nat, a: nat)
    requires q > 0 && p * s <= r * q
    requires a * q <= k * p + q
    ensures a * s <= k * r + s
  {}

  lemma SpreadCross(count: nat, t: nat, n: nat, more: nat)
    requires count <= t
    ensures (t + more - (count + more) * n) * t <= (t - count * n) * (t + more)
  {}

  lemma OthersCross(c: nat, t: nat, more: nat)
    ensures (t - c) * (t + more) <= (t + more - c) * t
  {
    assert (t + more - c) * t - (t - c) * (t + more) == more * c;
  }

  /** More load elsewhere never lowers an agent's spread points. */
  lemma SpreadOthers(count: nat, load: FleetLoad, more: nat)
    requires count <= load.total
    ensures SpreadPoints(count, load) <= SpreadPoints(count, FleetLoad(load.total + more, load.agents))
  {
    hide RoundShare;
    var t, c := load.total, count * load.agents;
    if t > 0 && c < t {
      OthersCross(c, t, more);
      RoundShareMono(SPREAD_LOAD_MAX_POINTS, t - c, t, t + more - c, t + more);
    }
  }

  /** More load on an agent never raises its own spread points, although it
      raises the average too. */
  lemma SpreadSelf(count: nat, load: FleetLoad, more: nat)
    requires count <= load.total && load.agents > 0
    ensures SpreadPoints(count + more, FleetLoad(load.total + more, load.agents)) <= SpreadPoints(count, load)
  {
    hide RoundShare;
    var n, t, c := load.agents, load.total, count * load.agents;
    var t', c' := t + more, (count + more) * n;
    assert c' == c + more * n;
    if c' < t' {
      MulMono(1, n, more);
      SpreadCross(count, t, n, more);
      RoundShareMono(SPREAD_LOAD_MAX_POINTS, t' - c', t', t - c, t);
    }
  }

  /** b is agent a with more workloads, more recent failures or less available memory. */
  predicate Worsened(a: Agent, b: Agent) {
    && b == a.(currentWorkloadCount := b.currentWorkloadCount, recentFailureCount := b.recentFailureCount,
               availableMemoryMb := b.availableMemoryMb)
    && a.currentWorkloadCount <= b.currentWorkloadCount
    && FailureCount(a) <= FailureCount(b)
    && (a.availableMemoryMb.Some? <==> b.availableMemoryMb.Some?)
    && (a.availableMemoryMb.Some? ==> b.availableMemoryMb.value <= a.availableMemoryMb.value)
  }

  lemma WorsenedMemory(a: Agent, b: Agent)
    requires Worsened(a, b)
    ensures MemoryPoints(b) <= MemoryPoints(a)
  {
    if a.totalMemoryMb.Some? && a.totalMemoryMb.value > 0 && a.availableMemoryMb.Some? {
      var x, y, t := b.availableMemoryMb.value, a.availableMemoryMb.value, a.totalMemoryMb.value;
      MulMono(x, y, t);
      RoundShareMono(MEMORY_PRESSURE_MAX_POINTS, x, t, y, t);
    }
  }

  lemma {:induction false} WorsenedPreferred(a: Agent, b: Agent, preferred: seq<(string, string)>)
    requires Worsened(a, b)
    ensures PreferredEntries(a, preferred) == PreferredEntries(b, preferred)
  {
    if preferred != [] {
      WorsenedPreferred(a, b, preferred[..|preferred| - 1]);
    }
  }

  lemma WorsenedScore(a: Agent, b: Agent, w: Workload, placements: set<CustomerPlacement>, load: FleetLoad)
    requires Worsened(a, b) && a.currentWorkloadCount <= load.total && load.agents > 0
    ensures var load' := FleetLoad(load.total + b.currentWorkloadCount - a.currentWorkloadCount, load.agents);
            Sum(Breakdown(b, w, placements, load')) <= Sum(Breakdown(a, w, placements, load))
  {
    hide SpreadPoints, Breakdown, MemoryPoints, PreferredEntries;
    var more := b.currentWorkloadCount - a.currentWorkloadCount;
    ScoreParts(a, w, placements, load);
    ScoreParts(b, w, placements, FleetLoad(load.total + more, load.agents));
    SpreadSelf(a.currentWorkloadCount, load, more);
    WorsenedMemory(a, b);
    WorsenedPreferred(a, b, w.preferredLabels);
  }

  lemma OthersScore(a: Agent, w: Workload, placements: set<CustomerPlacement>, load: FleetLoad, more: nat)
    requires a.currentWorkloadCount <= load.total
    ensures Sum(Breakdown(a, w, placements, load))
         <= Sum(Breakdown(a, w, placements, FleetLoad(load.total + more, load.agents)))
  {
    hide SpreadPoints, Breakdown, MemoryPoints, PreferredEntries;
    ScoreParts(a, w, placements, load);
    ScoreParts(a, w, placements, FleetLoad(load.total + more, load.agents));
    SpreadOthers(a.currentWorkloadCount, load, more);
  }

  lemma {:induction false} WorsenedLabels(a: Agent, b: Agent, required: seq<(string, string)>)
    requires Worsened(a, b)
    ensures FirstMissingLabel(a, required) == FirstMissingLabel(b, required)
  {
    if required != [] {
      WorsenedLabels(a, b, required[1..]);
    }
  }

  lemma WorsenedEligible(a: Agent, b: Agent, w: Workload)
    requires Worsened(a, b) && Eligible(b, w)
    ensures Eligible(a, w)
  {
    hide FirstMissingLabel;
    WorsenedLabels(a, b, w.requiredLabels);
  }

  lemma {:induction false} TotalAt(agents: seq<Agent>, i: nat, b: Agent)
    requires i < |agents|
    ensures TotalCount(agents[i := b]) == TotalCount(agents) - agents[i].currentWorkloadCount + b.currentWorkloadCount
    ensures agents[i].currentWorkloadCount <= TotalCount(agents)
  {
    var n := |agents| - 1;
    if i < n {
      TotalAt(agents[..n], i, b);
      assert agents[i := b][..n] == agents[..n][i := b];
    } else {
      assert agents[i := b][..n] == agents[..n];
    }
  }

  /** An agent that is not selected is still not selected after it got busier,
      failed more or lost memory, even though one count shifts every score. */
  lemma LosersKeepLosing(w: Workload, agents: seq<Agent>, placements: set<CustomerPlacement>, i: nat, b: Agent)
    requires DistinctAgents(agents) && i < |agents| && Worsened(agents[i], b)
    requires ScheduleWorkload(w, agents, placements).selectedAgentId != Some(b.id)
    ensures ScheduleWorkload(w, agents[i := b], placements).selectedAgentId != Some(b.id)
  {
    hide Breakdown, ScheduleWorkload, EligibilityFailure;
    var a, after := agents[i], agents[i := b];
    var more := b.currentWorkloadCount - a.currentWorkloadCount;
    var k := SelectionIsBest(w, agents, placements);
    var k' := SelectionIsBest(w, after, placements);
    if ScheduleWorkload(w, after, placements).selectedAgentId == Some(b.id) {
      assert k' == i;
      WorsenedEligible(a, b, w);
      assert k != i && after[k] == agents[k] && agents[k].id != agents[i].id;
      TotalAt(agents, i, b);
      TotalAt(agents, k, agents[k]);
      WorsenedScore(a, b, w, placements, LoadOf(agents));
      OthersScore(agents[k], w, placements, LoadOf(agents), more);
    }
  }
}
