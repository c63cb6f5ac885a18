/** Enrollment: single-use tokens, and agents that enroll at the same time
    (apps/control-plane/lib/agents/enrollment.ts, lib/agents/credential.ts, and
    handleEnroll of lib/agent-gateway/server.ts). A token and its hash are one
    value, and so are a secret and its fingerprint; fresh ones come from a counter. */
module Enrollment {
  import opened Wrappers

  type TokenId = nat
  type AgentId = nat
  type Fingerprint = nat
  type Labels = map<string, string>

  datatype Restrictions = Restrictions(environment: Option<string>, requiredLabels: Option<seq<(string, string)>>)

  datatype Token = Token(restrictions: Option<Restrictions>, expiresAt: int, usedAt: Option<int>, usedBy: Option<AgentId>)

  datatype AgentRow = AgentRow(labels: Labels, online: bool)

  datatype Refusal = NotFound | Expired | AlreadyUsed | RestrictionsNotSatisfied

  /** How far one handleEnroll has got; it waits for the database at each of these points. */
  datatype Phase = Created | Missed | Claimed | Passed | Issued

  datatype Attempt = Attempt(token: TokenId, phase: Phase)

  /** attempts holds the enrollments under way, by the agent row each one created. */
  datatype Registry = Registry(
    clock: int, tokens: map<TokenId, Token>, agents: map<AgentId, AgentRow>,
    credentials: map<Fingerprint, AgentId>, attempts: map<AgentId, Attempt>, next: nat)

  // ------------------------------------------------------------- restrictions

  predicate HasLabel(labels: Labels, key: string, value: string) { key in labels && labels[key] == value }

  /** Every restriction the token names holds of the labels; an empty environment names none. */
  predicate Satisfied(r: Option<Restrictions>, labels: Labels) {
    r.Some? ==>
      && (r.value.environment.Some? && r.value.environment.value != "" ==>
            HasLabel(labels, "environment", r.value.environment.value))
      && (r.value.requiredLabels.Some? ==>
            forall i :: 0 <= i < |r.value.requiredLabels.value| ==>
              HasLabel(labels, r.value.requiredLabels.value[i].0, r.value.requiredLabels.value[i].1))
  }

  /** Nothing restricted, or the environment as named and every pair among the labels. */
  ghost predicate Meets(r: Option<Restrictions>, labels: Labels) {
    || r == None
    || (&& (|| r.value.environment == None
            || r.value.environment == Some("")
            || ("environment" in labels && Some(labels["environment"]) == r.value.environment))
        && (|| r.value.requiredLabels == None
            || forall pair :: pair in r.value.requiredLabels.value ==> pair.0 in labels && labels[pair.0] == pair.1))
  }

  lemma SatisfiedMeans(r: Option<Restrictions>, labels: Labels)
    ensures Satisfied(r, labels) <==> Meets(r, labels)
  {
    if r.Some? && r.value.requiredLabels.Some? {
      var required := r.value.requiredLabels.value;
      if forall pair :: pair in required ==> pair.0 in labels && labels[pair.0] == pair.1 {
        assert forall i :: 0 <= i < |required| ==> required[i] in required;
      }
    }
  }

  method RestrictionsSatisfied(r: Option<Restrictions>, labels: Labels) returns (ok: bool)
    ensures ok <==> Satisfied(r, labels)
    ensures ok <==> Meets(r, labels)
  {
    SatisfiedMeans(r, labels);
    if r.None? {
      return true;
    }
    var environment := r.value.environment;
    if environment.Some? && environment.value != "" && !HasLabel(labels, "environment", environment.value) {
      return false;
    }
    if r.value.requiredLabels.Some? {
      var required := r.value.requiredLabels.value;
      for i := 0 to |required|
        invariant forall j :: 0 <= j < i ==> HasLabel(labels, required[j].0, required[j].1)
      {
        var (key, value) := required[i];
        if !HasLabel(labels, key, value) {
          return false;
        }
      }
    }
    return true;
  }

  // -------------------------------------------------------------------- steps

  predicate Claimable(s: Registry, token: TokenId) {
    token in s.tokens && s.tokens[token].usedAt.None? && s.tokens[token].expiresAt > s.clock
  }

  predicate InPhase(s: Registry, agent: AgentId, phase: Phase) {
    agent in s.attempts && s.attempts[agent].phase == phase
  }

  datatype Step =
    | Elapse(ms: nat)
    | CreateToken(restrictions: Option<Restrictions>, ttlMs: int)
    | CreateAgent(token: TokenId, labels: Labels)
    | Claim(agent: AgentId)
    | RefuseMissed(agent: AgentId)
    | CheckRestrictions(agent: AgentId)
    | IssueCredential(agent: AgentId)
    | GoOnline(agent: AgentId)

  predicate Enabled(s: Registry, step: Step) {
    match step
    case Claim(a) => InPhase(s, a, Created)
    case RefuseMissed(a) => InPhase(s, a, Missed)
    case CheckRestrictions(a) => InPhase(s, a, Claimed) && a in s.agents && s.attempts[a].token in s.tokens
    case IssueCredential(a) => InPhase(s, a, Passed)
    case GoOnline(a) => InPhase(s, a, Issued) && a in s.agents
    case _ => true
  }

  function NewToken(s: Registry, restrictions: Option<Restrictions>, ttlMs: int): Registry {
    s.(tokens := s.tokens[s.next := Token(restrictions, s.clock + ttlMs, None, None)], next := s.next + 1)
  }

  function NewAgent(s: Registry, token: TokenId, labels: Labels): Registry {
    s.(agents := s.agents[s.next := AgentRow(labels, false)],
       attempts := s.attempts[s.next := Attempt(token, Created)], next := s.next + 1)
  }

  function MoveTo(s: Registry, agent: AgentId, phase: Phase): Registry
    requires agent in s.attempts
  {
    s.(attempts := s.attempts[agent := s.attempts[agent].(phase := phase)])
  }

  /** The conditional UPDATE: it marks the token used only if it is claimable. */
  function MarkUsed(s: Registry, token: TokenId, agent: AgentId): Registry
    requires token in s.tokens
  {
    s.(tokens := s.tokens[token := s.tokens[token].(usedAt := Some(s.clock), usedBy := Some(agent))])
  }

  /** The agent's row is deleted, and the enrollment is over. */
  function DeleteAgent(s: Registry, agent: AgentId): Registry {
    s.(agents := s.agents - {agent}, attempts := s.attempts - {agent})
  }

  function AddCredential(s: Registry, agent: AgentId): Registry {
    s.(credentials := s.credentials[s.next := agent], next := s.next + 1)
  }

  function FinishOnline(s: Registry, agent: AgentId): Registry
    requires agent in s.agents
  {
    s.(agents := s.agents[agent := s.agents[agent].(online := true)], attempts := s.attempts - {agent})
  }

  function Apply(s: Registry, step: Step): Registry
    requires Enabled(s, step)
  {
    match step
    case Elapse(ms) => s.(clock := s.clock + ms)
    case CreateToken(restrictions, ttlMs) => NewToken(s, restrictions, ttlMs)
    case CreateAgent(token, labels) => NewAgent(s, token, labels)
    case Claim(a) =>
      var token := s.attempts[a].token;
      if Claimable(s, token) then MoveTo(MarkUsed(s, token, a), a, Claimed) else MoveTo(s, a, Missed)
    case RefuseMissed(a) => DeleteAgent(s, a)
    case CheckRestrictions(a) =>
      if Satisfied(s.tokens[s.attempts[a].token].restrictions, s.agents[a].labels) then MoveTo(s, a, Passed)
      else DeleteAgent(s, a)
    case IssueCredential(a) => MoveTo(AddCredential(s, a), a, Issued)
    case GoOnline(a) => FinishOnline(s, a)
  }

  function Init(clock: int): Registry { Registry(clock, map[], map[], map[], map[], 0) }

  predicate Runs(s: Registry, steps: seq<Step>)
    decreases |steps|
  {
    steps == [] || (Enabled(s, steps[0]) && Runs(Apply(s, steps[0]), steps[1..]))
  }

  function End(s: Registry, steps: seq<Step>): Registry
    requires Runs(s, steps)
    decreases |steps|
  {
    if steps == [] then s else End(Apply(s, steps[0]), steps[1..])
  }

  // ------------------------------------------------------- the code as it runs

  datatype ConsumeResult = Consumed(restrictions: Option<Restrictions>) | NotConsumed(reason: Refusal)

  datatype EnrollResult = Accepted(agent: AgentId, fingerprint: Fingerprint) | Refused(reason: Refusal)

  /** Why a token that is not claimable is not; a used one is reported used even if it has also expired. */
  function WhyNot(s: Registry, token: TokenId): Refusal {
    if token !in s.tokens then NotFound else if s.tokens[token].usedAt.Some? then AlreadyUsed else Expired
  }

  /** One enrollment on its own: the steps of handleEnroll one after the other. */
  function Enroll(s: Registry, token: TokenId, labels: Labels): (Registry, EnrollResult) {
    var a := s.next;
    var created := NewAgent(s, token, labels);
    if !Claimable(created, token) then (DeleteAgent(created, a), Refused(WhyNot(s, token)))
    else
      var claimed := MarkUsed(created, token, a);
      if !Satisfied(s.tokens[token].restrictions, labels) then (DeleteAgent(claimed, a), Refused(RestrictionsNotSatisfied))
      else (FinishOnline(AddCredential(claimed, a), a), Accepted(a, claimed.next))
  }

  /** An enrollment is accepted exactly when its token exists, is unused and has not
      expired, and its restrictions hold of the labels. The token is spent by it if it
      was usable at all; what is left of the agent is a row that is online and one
      credential, or nothing. */
  lemma WhatEnrollDoes(s: Registry, token: TokenId, labels: Labels)
    requires s.next !in s.agents && s.next !in s.attempts && s.next !in s.tokens
    ensures var (u, result) := Enroll(s, token, labels);
            var usable := token in s.tokens && s.tokens[token].usedAt == None && s.clock < s.tokens[token].expiresAt;
            && (result.Accepted? <==> usable && Satisfied(s.tokens[token].restrictions, labels))
            && u.tokens == (if usable then s.tokens[token := s.tokens[token].(usedAt := Some(s.clock), usedBy := Some(s.next))]
                            else s.tokens)
            && (result.Accepted? ==>
                  && result.agent == s.next && u.agents == s.agents[s.next := AgentRow(labels, true)]
                  && u.credentials == s.credentials[result.fingerprint := s.next])
            && (result.Refused? ==>
                  && u.agents == s.agents && u.credentials == s.credentials
                  && result.reason == if token !in s.tokens then NotFound
                                      else if s.tokens[token].usedAt.Some? then AlreadyUsed
                                      else if usable then RestrictionsNotSatisfied else Expired)
  {
    hide Satisfied;
  }

  class EnrollmentDb {
    var tokens: map<TokenId, Token>
    var agents: map<AgentId, AgentRow>
    var credentials: map<Fingerprint, AgentId>
    var next: nat

    /** The attempts of other enrollments do not show in the tables. */
    function View(clock: int): Registry
      reads this
    {
      Registry(clock, tokens, agents, credentials, map[], next)
    }

    constructor ()
      ensures forall clock :: View(clock) == Init(clock)
    {
      tokens, agents, credentials, next := map[], map[], map[], 0;
    }

    method CreateEnrollmentToken(restrictions: Option<Restrictions>, ttlMs: int, now: int) returns (token: TokenId)
      modifies this
      ensures token == old(next)
      ensures View(now) == NewToken(old(View(now)), restrictions, ttlMs)
      ensures tokens == old(tokens)[token := Token(restrictions, now + ttlMs, None, None)]
      ensures agents == old(agents) && credentials == old(credentials)
    {
      token := next;
      tokens := tokens[token := Token(restrictions, now + ttlMs, None, None)];
      next := next + 1;
    }

    method ConsumeEnrollmentToken(token: TokenId, agent: AgentId, now: int) returns (result: ConsumeResult)
      modifies this
      ensures result.Consumed? <==> Claimable(old(View(now)), token)
      ensures result.Consumed? ==>
                View(now) == MarkUsed(old(View(now)), token, agent) && result.restrictions == tokens[token].restrictions
      ensures result.NotConsumed? ==>
                View(now) == old(View(now)) && result.reason == WhyNot(View(now), token)
      ensures result.Consumed? <==> token in old(tokens) && old(tokens)[token].usedAt == None && now < old(tokens)[token].expiresAt
      ensures result.Consumed? ==>
                tokens == old(tokens)[token := old(tokens)[token].(usedAt := Some(now), usedBy := Some(agent))]
      ensures result == NotConsumed(NotFound) <==> token !in old(tokens)
      ensures result == NotConsumed(AlreadyUsed) <==> token in old(tokens) && old(tokens)[token].usedAt.Some?
      ensures result == NotConsumed(Expired) <==>
                token in old(tokens) && old(tokens)[token].usedAt == None && old(tokens)[token].expiresAt <= now
    {
      var count := 0;
      if token in tokens && tokens[token].usedAt.None? && tokens[token].expiresAt > now {
        tokens := tokens[token := tokens[token].(usedAt := Some(now), usedBy := Some(agent))];
        count := 1;
      }
      if count == 0 {
        if token !in tokens {
          return NotConsumed(NotFound);
        }
        if tokens[token].usedAt.Some? {
          return NotConsumed(AlreadyUsed);
        }
        return NotConsumed(Expired);
      }
      return Consumed(tokens[token].restrictions);
    }

    method HandleEnroll(token: TokenId, labels: Labels, now: int) returns (result: EnrollResult)
      modifies this
      ensures (View(now), result) == Enroll(old(View(now)), token, labels)
    {
      var agent := next;
      agents, next := agents[agent := AgentRow(labels, false)], next + 1;
      var consumed := ConsumeEnrollmentToken(token, agent, now);
      if consumed.NotConsumed? {
        agents := agents - {agent};
        return Refused(consumed.reason);
      }
      var ok := RestrictionsSatisfied(consumed.restrictions, labels);
      if !ok {
        agents := agents - {agent};
        return Refused(RestrictionsNotSatisfied);
      }
      var fingerprint := next;
      credentials, next := credentials[fingerprint := agent], next + 1;
      agents := agents[agent := agents[agent].(online := true)];
      return Accepted(agent, fingerprint);
    }
  }
}
