/** Folding generation-wide policies into a task requirement. */
module Policies {
  import opened Options
  import opened Outcomes
  import opened Sorting
  import opened Capability
  import opened Contracts
  import opened Grants

  datatype GenerationPolicy = GenerationPolicy(
    purposes: seq<InformationFunction>,
    maxWorkspace: WorkspaceMode,
    maxNetwork: NetworkPolicy,
    isolation: bool,
    minContinuity: ContinuityMode,
    sandbox: Option<Ref>,
    budget: Amount,
    affinity: Option<set<string>>,
    anchor: Option<string>)

  /** A pin of the policy, or the task's own when the policy has none. */
  function FoldPin<T(==)>(policy: Option<T>, task: Option<T>): Result<Option<T>> {
    if policy.None? then Ok(task)
    else if task.None? || policy == task then Ok(policy)
    else Err(GenerationPolicyConflict)
  }

  /** `fold_generation_policy`. */
  function Fold(policy: GenerationPolicy, task: Requirement): Result<Requirement> {
    if task.purpose !in policy.purposes then Err(GenerationPolicyConflict)
    else if policy.affinity.Some? && !(task.affinity <= policy.affinity.value) then Err(GenerationPolicyConflict)
    else
      var anchor :- FoldPin(policy.anchor, task.anchor);
      if WorkspaceRank(task.workspace) > WorkspaceRank(policy.maxWorkspace) then Err(GenerationPolicyConflict)
      else if NetworkRank(task.network) > NetworkRank(policy.maxNetwork) then Err(GenerationPolicyConflict)
      else
        var sandbox :- FoldPin(policy.sandbox, task.sandbox);
        Ok(task.(
          isolation := policy.isolation || task.isolation,
          continuity := if ContinuityRank(policy.minContinuity) >= ContinuityRank(task.continuity)
            then policy.minContinuity else task.continuity,
          sandbox := sandbox,
          anchor := anchor,
          budget := if policy.budget <= task.budget then policy.budget else task.budget))
  }

  /** Several policies, one after the other. */
  function FoldAll(policies: seq<GenerationPolicy>, task: Requirement): Result<Requirement> {
    if policies == [] then Ok(task)
    else
      var folded :- Fold(policies[0], task);
      FoldAll(policies[1..], folded)
  }

  // ---------------------------------------------------------- what a fold is for

  /** `r` demands everything `t` demands, and asks for the same authority. */
  ghost predicate Tightens(t: Requirement, r: Requirement) {
    && r.purpose == t.purpose
    && r.capabilities == t.capabilities
    && r.affinity == t.affinity
    && r.workspace == t.workspace
    && r.network == t.network
    && (t.isolation ==> r.isolation)
    && ContinuityCovers(r.continuity, t.continuity)
    && (t.sandbox.Some? ==> r.sandbox == t.sandbox)
    && (t.anchor.Some? ==> r.anchor == t.anchor)
    && r.budget <= t.budget
  }

  /** `r` stays under every ceiling of the policy and above every floor. */
  ghost predicate Under(p: GenerationPolicy, r: Requirement) {
    && r.purpose in p.purposes
    && (p.affinity.Some? ==> r.affinity <= p.affinity.value)
    && WorkspaceCovers(p.maxWorkspace, r.workspace)
    && NetworkCovers(p.maxNetwork, r.network)
    && (p.isolation ==> r.isolation)
    && ContinuityCovers(r.continuity, p.minContinuity)
    && (p.sandbox.Some? ==> r.sandbox == p.sandbox)
    && (p.anchor.Some? ==> r.anchor == p.anchor)
    && r.budget <= p.budget
  }

  ghost predicate UnderAll(policies: seq<GenerationPolicy>, r: Requirement) {
    forall p | p in policies :: Under(p, r)
  }

  lemma TightensBothWays(a: Requirement, b: Requirement)
    requires Tightens(a, b) && Tightens(b, a)
    ensures a == b
  {
    assert a.isolation == b.isolation && a.continuity == b.continuity;
    assert a.sandbox == b.sandbox && a.anchor == b.anchor && a.budget == b.budget;
  }

  /** One fold yields the weakest requirement that keeps the task's demands under the
      policy; it fails exactly when there is none. */
  lemma FoldMeets(p: GenerationPolicy, t: Requirement, r: Requirement)
    ensures Tightens(t, r) && Under(p, r) <==> Fold(p, t).Ok? && Tightens(Fold(p, t).value, r)
  {
  }

  /** The same for any list of policies. */
  lemma {:induction false} FoldAllWeakest(policies: seq<GenerationPolicy>, t: Requirement, r: Requirement)
    ensures Tightens(t, r) && UnderAll(policies, r) <==>
      FoldAll(policies, t).Ok? && Tightens(FoldAll(policies, t).value, r)
  {
    if policies != [] {
      FoldMeets(policies[0], t, r);
      assert forall p :: p in policies <==> p == policies[0] || p in policies[1..];
      if Fold(policies[0], t).Ok? {
        FoldAllWeakest(policies[1..], Fold(policies[0], t).value, r);
      }
    }
  }

  /** A successful fold keeps what the task demanded and obeys every policy. */
  lemma FoldAllObeys(policies: seq<GenerationPolicy>, t: Requirement)
    requires FoldAll(policies, t).Ok?
    ensures Tightens(t, FoldAll(policies, t).value) && UnderAll(policies, FoldAll(policies, t).value)
  {
    FoldAllWeakest(policies, t, FoldAll(policies, t).value);
  }

  /** Neither order nor repetition of the policies matters, for success and for the result. */
  lemma FoldAllUnordered(a: seq<GenerationPolicy>, b: seq<GenerationPolicy>, t: Requirement)
    requires forall p :: p in a <==> p in b
    ensures FoldAll(a, t) == FoldAll(b, t)
  {
    OneError(a, t);
    OneError(b, t);
    forall r ensures UnderAll(a, r) <==> UnderAll(b, r) {
    }
    if FoldAll(a, t).Ok? {
      FoldAllWeakest(a, t, FoldAll(a, t).value);
      FoldAllWeakest(b, t, FoldAll(a, t).value);
      FoldAllWeakest(b, t, FoldAll(b, t).value);
      FoldAllWeakest(a, t, FoldAll(b, t).value);
      TightensBothWays(FoldAll(a, t).value, FoldAll(b, t).value);
    } else if FoldAll(b, t).Ok? {
      FoldAllWeakest(b, t, FoldAll(b, t).value);
      FoldAllWeakest(a, t, FoldAll(b, t).value);
    }
  }

  lemma {:induction false} OneError(policies: seq<GenerationPolicy>, t: Requirement)
    ensures FoldAll(policies, t).Err? ==> FoldAll(policies, t).error == GenerationPolicyConflict
  {
    if policies != [] && Fold(policies[0], t).Ok? {
      OneError(policies[1..], Fold(policies[0], t).value);
    }
  }

  /** Folding again changes nothing. */
  lemma FoldIdempotent(p: GenerationPolicy, t: Requirement)
    requires Fold(p, t).Ok?
    ensures Fold(p, Fold(p, t).value) == Fold(p, t)
  {
    FoldAllUnordered([p, p], [p], t);
    assert FoldAll([p], t) == Fold(p, t);
    assert [p, p][1..] == [p];
    assert FoldAll([p, p], t) == FoldAll([p], Fold(p, t).value);
  }
}
