/** Enrollment is injective, however enrollments interleave: every credential goes
    back to a token of its own, and a token is spent once and for all. */
module EnrollmentTheorems {
  import opened Wrappers
  import opened Enrollment

  /** The token the agent has spent allows its labels. */
  ghost predicate Vouches(s: Registry, token: TokenId, agent: AgentId) {
    && token in s.tokens && s.tokens[token].usedAt.Some? && s.tokens[token].usedBy == Some(agent)
    && agent in s.agents && Satisfied(s.tokens[token].restrictions, s.agents[agent].labels)
  }

  predicate SpentBy(s: Registry, token: TokenId, agent: AgentId) {
    token in s.tokens && s.tokens[token].usedBy == Some(agent)
  }

  ghost predicate FreshIds(s: Registry) {
    && (forall t :: t in s.tokens ==>
          t < s.next && (s.tokens[t].usedAt.Some? <==> s.tokens[t].usedBy.Some?)
          && (s.tokens[t].usedBy.Some? ==> s.tokens[t].usedBy.value < s.next))
    && (forall a :: a in s.agents ==> a < s.next)
    && (forall a :: a in s.attempts ==> a < s.next && a in s.agents)
    && (forall c :: c in s.credentials ==> c < s.next && s.credentials[c] < s.next)
  }

  /** What an enrollment under way has done so far. */
  ghost predicate AttemptOk(s: Registry, a: AgentId)
    requires a in s.attempts
  {
    var attempt := s.attempts[a];
    && (attempt.phase.Created? || attempt.phase.Missed? ==> forall t :: !SpentBy(s, t, a))
    && (attempt.phase.Claimed? ==> SpentBy(s, attempt.token, a))
    && (attempt.phase.Passed? ==> Vouches(s, attempt.token, a))
    && (!attempt.phase.Issued? ==> forall c :: c in s.credentials ==> s.credentials[c] != a)
  }

  ghost predicate AttemptsOk(s: Registry) { forall a :: a in s.attempts ==> AttemptOk(s, a) }

  /** Nobody has spent two tokens. */
  ghost predicate OneTokenEach(s: Registry) {
    forall t, u, a :: SpentBy(s, t, a) && SpentBy(s, u, a) ==> t == u
  }

  ghost predicate CredentialsTraced(s: Registry) {
    && (forall c :: c in s.credentials ==> exists t :: Vouches(s, t, s.credentials[c]))
    && (forall c, d :: c in s.credentials && d in s.credentials && s.credentials[c] == s.credentials[d] ==> c == d)
  }

  ghost predicate Traced(s: Registry) { FreshIds(s) && AttemptsOk(s) && OneTokenEach(s) && CredentialsTraced(s) }

  /** A token's restrictions and expiry are fixed, and a used token stays as it was used. */
  predicate TokenEvolves(t: Token, u: Token) {
    && u.restrictions == t.restrictions && u.expiresAt == t.expiresAt
    && (t.usedAt.Some? ==> u == t)
  }

  lemma VouchesKept(s: Registry, u: Registry, t: TokenId, a: AgentId)
    requires Vouches(s, t, a) && t in u.tokens && u.tokens[t] == s.tokens[t]
    requires a in u.agents && u.agents[a].labels == s.agents[a].labels
    ensures Vouches(u, t, a)
  {}

  lemma StepKeepsFreshIds(s: Registry, step: Step)
    requires FreshIds(s) && Enabled(s, step)
    ensures FreshIds(Apply(s, step))
  {}

  lemma StepKeepsOneTokenEach(s: Registry, step: Step)
    requires FreshIds(s) && AttemptsOk(s) && OneTokenEach(s) && Enabled(s, step)
    ensures OneTokenEach(Apply(s, step))
  {
    var u := Apply(s, step);
    forall t, x, a | SpentBy(u, t, a) && SpentBy(u, x, a) ensures t == x {
      if step.Claim? && a == step.agent {
        assert AttemptOk(s, a);
        assert !SpentBy(s, t, a) && !SpentBy(s, x, a);
      } else {
        assert SpentBy(s, t, a) && SpentBy(s, x, a);
      }
    }
  }

  /** The agent whose enrollment the step advances. */
  function Actor(s: Registry, step: Step): Option<AgentId> {
    match step
    case Elapse(_) => None
    case CreateToken(_, _) => None
    case CreateAgent(_, _) => Some(s.next)
    case Claim(a) => Some(a)
    case RefuseMissed(a) => Some(a)
    case CheckRestrictions(a) => Some(a)
    case IssueCredential(a) => Some(a)
    case GoOnline(a) => Some(a)
  }

  /** A step leaves other agents' enrollments, rows and spent tokens alone. */
  lemma OthersUntouched(s: Registry, step: Step, a: AgentId)
    requires FreshIds(s) && Enabled(s, step) && Actor(s, step) != Some(a)
    ensures var u := Apply(s, step);
            && (a in u.attempts <==> a in s.attempts) && (a in s.attempts ==> u.attempts[a] == s.attempts[a])
            && (a in u.agents <==> a in s.agents) && (a in s.agents ==> u.agents[a] == s.agents[a])
            && (forall t :: SpentBy(s, t, a) <==> SpentBy(u, t, a))
            && (forall c :: c in s.credentials && s.credentials[c] == a <==> c in u.credentials && u.credentials[c] == a)
  {
    hide Satisfied;
  }

  lemma TokensEvolve(s: Registry, step: Step, t: TokenId)
    requires FreshIds(s) && Enabled(s, step) && t in s.tokens
    ensures t in Apply(s, step).tokens && TokenEvolves(s.tokens[t], Apply(s, step).tokens[t])
  {
    hide Satisfied;
  }

  lemma OtherAttemptKept(s: Registry, step: Step, a: AgentId)
    requires Traced(s) && Enabled(s, step) && Actor(s, step) != Some(a) && a in s.attempts
    ensures var u := Apply(s, step); a in u.attempts && AttemptOk(u, a)
  {
    hide Enabled, Apply, OneTokenEach, CredentialsTraced, Satisfied, Actor;
    OthersUntouched(s, step, a);
    assert AttemptOk(s, a);
    if s.attempts[a].phase.Passed? {
      TokensEvolve(s, step, s.attempts[a].token);
      VouchesKept(s, Apply(s, step), s.attempts[a].token, a);
    }
  }

  lemma OwnAttemptAdvances(s: Registry, step: Step, a: AgentId)
    requires Traced(s) && Enabled(s, step) && Actor(s, step) == Some(a) && a in Apply(s, step).attempts
    ensures AttemptOk(Apply(s, step), a)
  {
    hide OneTokenEach, CredentialsTraced;
    var u := Apply(s, step);
    match step
    case CreateAgent(_, _) => assert forall t :: !SpentBy(u, t, a);
    case Claim(_) =>
      assert AttemptOk(s, a) && u.credentials == s.credentials;
      assert !Claimable(s, s.attempts[a].token) ==> forall t :: SpentBy(u, t, a) ==> SpentBy(s, t, a);
    case CheckRestrictions(_) => assert AttemptOk(s, a);
    case IssueCredential(_) => assert AttemptOk(s, a);
    case _ =>
  }

  lemma StepKeepsAttempts(s: Registry, step: Step)
    requires Traced(s) && Enabled(s, step)
    ensures AttemptsOk(Apply(s, step))
  {
    hide Traced, Enabled, Apply, AttemptOk, Actor;
    var u := Apply(s, step);
    forall a | a in u.attempts ensures AttemptOk(u, a) {
      if Actor(s, step) == Some(a) {
        OwnAttemptAdvances(s, step, a);
      } else {
        OthersAttempt(s, step, a);
        OtherAttemptKept(s, step, a);
      }
    }
  }

  lemma OthersAttempt(s: Registry, step: Step, a: AgentId)
    requires Traced(s) && Enabled(s, step) && Actor(s, step) != Some(a) && a in Apply(s, step).attempts
    ensures a in s.attempts
  {
    hide AttemptsOk, OneTokenEach, CredentialsTraced, Enabled, Apply;
    OthersUntouched(s, step, a);
  }

  /** An agent with a credential keeps its row and its labels. */
  lemma HolderKept(s: Registry, step: Step, c: Fingerprint)
    requires Traced(s) && Enabled(s, step) && c in s.credentials
    ensures var (u, a) := (Apply(s, step), s.credentials[c]);
            && c in u.credentials && u.credentials[c] == a
            && (a in s.agents ==> a in u.agents && u.agents[a].labels == s.agents[a].labels)
  {
    hide OneTokenEach, CredentialsTraced, Satisfied;
    if Actor(s, step) == Some(s.credentials[c]) && s.credentials[c] in s.attempts {
      assert AttemptOk(s, s.credentials[c]);
    }
  }

  lemma NewCredential(s: Registry, step: Step, c: Fingerprint)
    requires Traced(s) && Enabled(s, step) && c !in s.credentials && c in Apply(s, step).credentials
    ensures var (u, a) := (Apply(s, step), Apply(s, step).credentials[c]);
            && step == IssueCredential(a) && a in s.attempts && Vouches(u, s.attempts[a].token, a)
            && forall d :: d in s.credentials ==> s.credentials[d] != a
  {
    hide OneTokenEach, CredentialsTraced, Satisfied;
  }

  lemma StepKeepsCredentials(s: Registry, step: Step)
    requires Traced(s) && Enabled(s, step)
    ensures CredentialsTraced(Apply(s, step))
  {
    hide FreshIds, AttemptsOk, OneTokenEach, Enabled, Apply, Satisfied;
    var u := Apply(s, step);
    forall c | c in u.credentials ensures exists t :: Vouches(u, t, u.credentials[c]) {
      if c in s.credentials {
        HolderKept(s, step, c);
        var t :| Vouches(s, t, s.credentials[c]);
        TokensEvolve(s, step, t);
        VouchesKept(s, u, t, s.credentials[c]);
      } else {
        NewCredential(s, step, c);
      }
    }
    forall c, d | c in u.credentials && d in u.credentials && u.credentials[c] == u.credentials[d] ensures c == d {
      if c in s.credentials && d in s.credentials {
        HolderKept(s, step, c);
        HolderKept(s, step, d);
      } else if c in s.credentials {
        HolderKept(s, step, c);
        NewCredential(s, step, d);
      } else if d in s.credentials {
        HolderKept(s, step, d);
        NewCredential(s, step, c);
      } else {
        NewCredentialIsFresh(s, step, c);
        NewCredentialIsFresh(s, step, d);
      }
    }
  }

  lemma NewCredentialIsFresh(s: Registry, step: Step, c: Fingerprint)
    requires Enabled(s, step) && c !in s.credentials && c in Apply(s, step).credentials
    ensures c == s.next
  {
    hide Satisfied;
  }

  lemma StepKeepsTraced(s: Registry, step: Step)
    requires Traced(s) && Enabled(s, step)
    ensures Traced(Apply(s, step))
  {
    hide FreshIds, AttemptsOk, OneTokenEach, CredentialsTraced, Enabled, Apply;
    StepKeepsFreshIds(s, step);
    StepKeepsAttempts(s, step);
    StepKeepsOneTokenEach(s, step);
    StepKeepsCredentials(s, step);
  }

  lemma InitTraced(clock: int)
    ensures Traced(Init(clock))
  {}

  lemma {:induction false} ReachableIsTraced(s: Registry, steps: seq<Step>)
    requires Traced(s) && Runs(s, steps)
    ensures Traced(End(s, steps))
    decreases |steps|
  {
    hide Traced, Enabled, Apply;
    if steps != [] {
      StepKeepsTraced(s, steps[0]);
      ReachableIsTraced(Apply(s, steps[0]), steps[1..]);
    }
  }

  /** In every state that interleaved enrollments can lead to from the empty one. */
  lemma EveryReachableRegistry(clock: int, steps: seq<Step>)
    requires Runs(Init(clock), steps)
    ensures Traced(End(Init(clock), steps))
  {
    hide Traced, Runs, End;
    InitTraced(clock);
    ReachableIsTraced(Init(clock), steps);
  }

  /** Over every run a used token stays used, by the same agent at the same time,
      whether or not that agent was accepted. */
  lemma {:induction false} UsedStaysUsed(s: Registry, steps: seq<Step>, t: TokenId)
    requires Traced(s) && Runs(s, steps) && t in s.tokens
    ensures t in End(s, steps).tokens && TokenEvolves(s.tokens[t], End(s, steps).tokens[t])
    decreases |steps|
  {
    hide Enabled, Apply, AttemptsOk, OneTokenEach, CredentialsTraced;
    if steps != [] {
      TokensEvolve(s, steps[0], t);
      StepKeepsTraced(s, steps[0]);
      UsedStaysUsed(Apply(s, steps[0]), steps[1..], t);
    }
  }

  /** Over every run a token stays claimable, until it is used, for exactly its lifetime
      from its creation. */
  lemma ClaimableForItsLifetime(s: Registry, restrictions: Option<Restrictions>, ttlMs: int, steps: seq<Step>)
    requires Traced(s) && Runs(Apply(s, CreateToken(restrictions, ttlMs)), steps)
    ensures var (t, u) := (s.next, End(Apply(s, CreateToken(restrictions, ttlMs)), steps));
            && t in u.tokens && u.tokens[t].restrictions == restrictions
            && (Claimable(u, t) <==> u.tokens[t].usedAt == None && u.clock < s.clock + ttlMs)
  {
    hide Runs, End, AttemptsOk, OneTokenEach, CredentialsTraced;
    StepKeepsTraced(s, CreateToken(restrictions, ttlMs));
    UsedStaysUsed(Apply(s, CreateToken(restrictions, ttlMs)), steps, s.next);
  }

  predicate ClaimsToken(s: Registry, step: Step, t: TokenId) {
    step.Claim? && step.agent in s.attempts && s.attempts[step.agent].token == t && Claimable(s, t)
  }

  /** How often a token is claimed with success. */
  function Claims(s: Registry, steps: seq<Step>, t: TokenId): nat
    requires Runs(s, steps)
    decreases |steps|
  {
    if steps == [] then 0
    else (if ClaimsToken(s, steps[0], t) then 1 else 0) + Claims(Apply(s, steps[0]), steps[1..], t)
  }

  lemma ClaimUses(s: Registry, step: Step, t: TokenId)
    requires Enabled(s, step) && ClaimsToken(s, step, t)
    ensures t in Apply(s, step).tokens && Apply(s, step).tokens[t].usedAt.Some?
  {}

  lemma {:induction false} UsedIsNeverClaimed(s: Registry, steps: seq<Step>, t: TokenId)
    requires Traced(s) && Runs(s, steps) && t in s.tokens && s.tokens[t].usedAt.Some?
    ensures Claims(s, steps, t) == 0
    decreases |steps|
  {
    hide Enabled, Apply, AttemptsOk, OneTokenEach, CredentialsTraced;
    if steps != [] {
      TokensEvolve(s, steps[0], t);
      StepKeepsTraced(s, steps[0]);
      UsedIsNeverClaimed(Apply(s, steps[0]), steps[1..], t);
    }
  }

  /** Of all the enrollments that race for a token at most one claims it. */
  lemma {:induction false} ClaimedAtMostOnce(s: Registry, steps: seq<Step>, t: TokenId)
    requires Traced(s) && Runs(s, steps)
    ensures Claims(s, steps, t) <= 1
    decreases |steps|
  {
    hide Enabled, Apply, AttemptsOk, OneTokenEach, CredentialsTraced;
    if steps != [] {
      StepKeepsTraced(s, steps[0]);
      if ClaimsToken(s, steps[0], t) {
        ClaimUses(s, steps[0], t);
        UsedIsNeverClaimed(Apply(s, steps[0]), steps[1..], t);
      } else {
        ClaimedAtMostOnce(Apply(s, steps[0]), steps[1..], t);
      }
    }
  }

  // ---------------------------------------------------------------- injectivity

  /** The token behind a credential. */
  ghost function TokenOf(s: Registry, c: Fingerprint): (t: TokenId)
    requires CredentialsTraced(s) && c in s.credentials
    ensures Vouches(s, t, s.credentials[c])
  {
    var t :| Vouches(s, t, s.credentials[c]);
    t
  }

  /** Two credentials never go back to the same token. */
  lemma DistinctTokens(s: Registry, c: Fingerprint, d: Fingerprint)
    requires CredentialsTraced(s) && c in s.credentials && d in s.credentials && c != d
    ensures TokenOf(s, c) != TokenOf(s, d)
  {}

  lemma {:induction false} InjectionSize(s: Registry, some: set<Fingerprint>, tokens: set<TokenId>)
    requires CredentialsTraced(s) && some <= s.credentials.Keys
    requires forall c :: c in some ==> TokenOf(s, c) in tokens
    ensures |some| <= |tokens|
    decreases some
  {
    if some != {} {
      var c :| c in some;
      forall d | d in some - {c} ensures TokenOf(s, d) in tokens - {TokenOf(s, c)} {
        DistinctTokens(s, c, d);
      }
      InjectionSize(s, some - {c}, tokens - {TokenOf(s, c)});
    }
  }

  function UsedTokens(s: Registry): set<TokenId> { set t | t in s.tokens && s.tokens[t].usedAt.Some? }

  /** There are never more credentials than used tokens. */
  lemma NoMoreCredentialsThanUsedTokens(s: Registry)
    requires Traced(s)
    ensures |s.credentials.Keys| <= |UsedTokens(s)|
  {
    hide FreshIds, AttemptsOk, OneTokenEach;
    InjectionSize(s, s.credentials.Keys, UsedTokens(s));
  }

  // ------------------------------------------------------- rejected enrollments

  /** A rejection for its labels leaves the agent without a row, a credential or an
      enrollment, and the token used by it. */
  lemma RejectionBurnsTheToken(s: Registry, a: AgentId)
    requires Traced(s) && Enabled(s, CheckRestrictions(a))
    requires !Satisfied(s.tokens[s.attempts[a].token].restrictions, s.agents[a].labels)
    ensures var (u, t) := (Apply(s, CheckRestrictions(a)), s.attempts[a].token);
            && a !in u.agents && a !in u.attempts && (forall c :: c in u.credentials ==> u.credentials[c] != a)
            && SpentBy(u, t, a) && !Claimable(u, t)
  {
    assert AttemptOk(s, a);
  }

  lemma Chain(s: Registry, step: Step, rest: seq<Step>)
    requires Enabled(s, step) && Runs(Apply(s, step), rest)
    ensures Runs(s, [step] + rest) && End(s, [step] + rest) == End(Apply(s, step), rest)
  {
    hide Enabled, Apply;
    assert ([step] + rest)[1..] == rest;
  }

  lemma NoSteps(s: Registry)
    ensures Runs(s, []) && End(s, []) == s
  {}

  /** The rest of an enrollment whose token has been claimed. */
  lemma ClaimedRun(s: Registry, a: AgentId) returns (steps: seq<Step>)
    requires InPhase(s, a, Claimed) && a in s.agents && s.attempts[a].token in s.tokens
    ensures Runs(s, steps)
    ensures End(s, steps) == if Satisfied(s.tokens[s.attempts[a].token].restrictions, s.agents[a].labels)
                             then FinishOnline(AddCredential(s, a), a) else DeleteAgent(s, a)
  {
    hide Runs, End, Satisfied;
    var s1 := Apply(s, CheckRestrictions(a));
    if Satisfied(s.tokens[s.attempts[a].token].restrictions, s.agents[a].labels) {
      var s2 := Apply(s1, IssueCredential(a));
      var s3 := Apply(s2, GoOnline(a));
      NoSteps(s3);
      Chain(s2, GoOnline(a), []);
      Chain(s1, IssueCredential(a), [GoOnline(a)] + []);
      steps := [IssueCredential(a)] + ([GoOnline(a)] + []);
      assert s3 == FinishOnline(AddCredential(s, a), a);
    } else {
      NoSteps(s1);
      steps := [];
    }
    Chain(s, CheckRestrictions(a), steps);
    steps := [CheckRestrictions(a)] + steps;
  }

  /** HandleEnroll, left to itself, is a run of the steps that interleave. */
  lemma EnrollIsARun(s: Registry, token: TokenId, labels: Labels) returns (steps: seq<Step>)
    requires s.next !in s.attempts && s.next !in s.agents && s.next !in s.tokens
    ensures Runs(s, steps) && End(s, steps) == Enroll(s, token, labels).0
  {
    hide Runs, End, Satisfied;
    var a := s.next;
    var s1 := Apply(s, CreateAgent(token, labels));
    var s2 := Apply(s1, Claim(a));
    if Claimable(s1, token) {
      steps := ClaimedRun(s2, a);
    } else {
      NoSteps(Apply(s2, RefuseMissed(a)));
      Chain(s2, RefuseMissed(a), []);
      steps := [RefuseMissed(a)] + [];
    }
    Chain(s1, Claim(a), steps);
    Chain(s, CreateAgent(token, labels), [Claim(a)] + steps);
    steps := [CreateAgent(token, labels)] + ([Claim(a)] + steps);
  }
}
