/** Refinement is a preorder along which executability shrinks, in every dimension
    but continuity. */
module Refinement {
  import opened Options
  import opened Sorting
  import opened Capability
  import opened Contracts
  import opened Grants

  ghost predicate Shaped(caps: Capabilities, catalog: Catalog) {
    forall ref | ref in caps :: ref in catalog && catalog[ref].matcher == caps[ref].Kind()
  }

  ghost predicate ValidContract(contract: Contract, catalog: Catalog) {
    contract.lifecycle != {} && Shaped(contract.capabilities, catalog)
  }

  lemma ValidateIff(contract: Contract, catalog: Catalog)
    ensures Validate(contract, catalog).Pass? <==> ValidContract(contract, catalog)
  {
  }

  /** What `can_execute` decides about one demanded capability: an ability must be had, and a
      restriction must be one that can be met together with the contract's own. */
  ghost predicate Meets(contract: Contract, catalog: Catalog, ref: Ref, required: CapabilityValue) {
    && ref in catalog
    && catalog[ref].matcher == required.Kind()
    && (required != Bool(false) ==>
          var kind := catalog[ref].matcher;
          if catalog[ref].polarity == Restriction
          then Given(contract.capabilities, ref) ==> Reconciled(kind, contract.capabilities[ref], required)
          else Given(contract.capabilities, ref) && Satisfies(kind, required, contract.capabilities[ref]))
  }

  /** Some value satisfies both. */
  ghost predicate Reconciled(kind: MatcherKind, a: CapabilityValue, b: CapabilityValue) {
    exists v :: Satisfies(kind, a, v) && Satisfies(kind, b, v)
  }

  ghost predicate MeetsAll(contract: Contract, catalog: Catalog, demanded: Capabilities) {
    forall ref | ref in demanded :: Meets(contract, catalog, ref, demanded[ref])
  }

  /** The dimensions of `can_execute` other than capabilities and continuity. */
  ghost predicate Fits(own: Contract, req: Requirement) {
    && req.purpose in own.purposes
    && (own.affinity == Any || forall tag | tag in req.affinity :: tag in own.affinity.tags)
    && WorkspaceCovers(own.security.workspace, req.workspace)
    && NetworkCovers(own.security.network, req.network)
    && (req.sandbox == None || own.sandbox == None || req.sandbox == own.sandbox)
    && (req.anchor == None || own.anchor == None || req.anchor == own.anchor)
    && req.budget <= own.budget
  }

  ghost predicate Lasts(own: Contract, req: Requirement) {
    ContinuityCovers(own.continuity, req.continuity)
  }

  ghost predicate Executes(agent: AgentType, req: Requirement, catalog: Catalog) {
    && ValidContract(agent.contract, catalog)
    && MeetsAll(agent.contract, catalog, req.capabilities)
    && Fits(agent.contract, req)
    && Lasts(agent.contract, req)
  }

  lemma MeetsIff(contract: Contract, catalog: Catalog, ref: Ref, required: CapabilityValue)
    ensures ExecuteCap(contract, catalog, ref, required).Pass? <==> Meets(contract, catalog, ref, required)
  {
    if ref in catalog && Given(contract.capabilities, ref) {
      JoinExact(catalog[ref].matcher, contract.capabilities[ref], required);
    }
  }

  lemma MeetsAllIff(contract: Contract, catalog: Catalog, demanded: Capabilities)
    ensures CheckCaps(demanded, (ref, required) => ExecuteCap(contract, catalog, ref, required)).Pass?
      <==> MeetsAll(contract, catalog, demanded)
  {
    forall ref | ref in demanded
      ensures ExecuteCap(contract, catalog, ref, demanded[ref]).Pass? <==> Meets(contract, catalog, ref, demanded[ref])
    {
      MeetsIff(contract, catalog, ref, demanded[ref]);
    }
  }

  lemma ExecuteIff(agent: AgentType, req: Requirement, catalog: Catalog)
    ensures CanExecute(agent, req, catalog).Pass? <==> Executes(agent, req, catalog)
  {
    ValidateIff(agent.contract, catalog);
    MeetsAllIff(agent.contract, catalog, req.capabilities);
  }

  /** An added capability is a restriction; an ability may go or shrink to what the old value
      covers, and a restriction stays and covers the old value. */
  ghost predicate CapabilitiesNarrow(a: Contract, b: Contract, catalog: Catalog) {
    && (forall ref | Given(a.capabilities, ref) && !Given(b.capabilities, ref) ::
          ref in catalog && catalog[ref].polarity == Restriction)
    && (forall ref | Given(b.capabilities, ref) :: CapabilityNarrows(a.capabilities, b.capabilities, catalog, ref))
  }

  predicate CapabilityNarrows(a: Capabilities, b: Capabilities, catalog: Catalog, ref: Ref)
    requires Given(b, ref)
  {
    && ref in catalog
    && if catalog[ref].polarity == Ability
       then Given(a, ref) ==> Satisfies(catalog[ref].matcher, a[ref], b[ref])
       else Given(a, ref) && Satisfies(catalog[ref].matcher, b[ref], a[ref])
  }

  /** `a` is granted nothing that `b` is not, dimension by dimension. */
  ghost predicate Narrows(a: Contract, b: Contract, catalog: Catalog) {
    && (forall f | f in a.purposes :: f in b.purposes)
    && (b.affinity == Any || (a.affinity != Any && forall tag | tag in a.affinity.tags :: tag in b.affinity.tags))
    && a.budget <= b.budget
    && (forall mode | mode in a.lifecycle :: mode in b.lifecycle)
    && WorkspaceCovers(b.security.workspace, a.security.workspace)
    && NetworkCovers(b.security.network, a.security.network)
    && (b.security.isolation ==> a.security.isolation)
    && (b.sandbox != None ==> a.sandbox == b.sandbox)
    && (b.anchor != None ==> a.anchor == b.anchor)
    && CapabilitiesNarrow(a, b, catalog)
  }

  lemma CapabilitiesIff(a: Contract, b: Contract, catalog: Catalog)
    ensures CapabilitiesNoWider(a, b, catalog) <==> CapabilitiesNarrow(a, b, catalog)
  {
    forall ref | Given(b.capabilities, ref)
      ensures MayBecome(ref, b.capabilities[ref], PresentCap(a.capabilities, ref), catalog) <==>
        CapabilityNarrows(a.capabilities, b.capabilities, catalog, ref) {
    }
  }

  lemma AuthorityIff(a: Contract, b: Contract, catalog: Catalog)
    ensures AuthorityNoWider(a, b, catalog) <==> Narrows(a, b, catalog)
  {
    CapabilitiesIff(a, b, catalog);
  }

  /** Narrower authority and at least the base's continuity. */
  lemma RefinementIff(base: AgentType, derived: AgentType, catalog: Catalog)
    ensures IsValidRefinement(base, derived, catalog).Pass? <==>
      && ValidContract(base.contract, catalog)
      && ValidContract(derived.contract, catalog)
      && Narrows(derived.contract, base.contract, catalog)
      && ContinuityCovers(derived.contract.continuity, base.contract.continuity)
  {
    ValidateIff(base.contract, catalog);
    ValidateIff(derived.contract, catalog);
    AuthorityIff(derived.contract, base.contract, catalog);
  }

  // ------------------------------------------------------- narrowing is a preorder

  lemma CapabilitiesReflexive(a: Contract, catalog: Catalog)
    requires Shaped(a.capabilities, catalog)
    ensures CapabilitiesNoWider(a, a, catalog)
  {
  }

  lemma CapabilitiesTransit(c: Contract, b: Contract, a: Contract, catalog: Catalog)
    requires CapabilitiesNoWider(c, b, catalog) && CapabilitiesNoWider(b, a, catalog)
    ensures CapabilitiesNoWider(c, a, catalog)
  {
    forall ref | ref in a.capabilities && a.capabilities[ref].Present()
      ensures MayBecome(ref, a.capabilities[ref], PresentCap(c.capabilities, ref), catalog)
    {
      assert MayBecome(ref, a.capabilities[ref], PresentCap(b.capabilities, ref), catalog);
    }
  }

  lemma AuthorityReflexive(a: Contract, catalog: Catalog)
    requires ValidContract(a, catalog)
    ensures AuthorityNoWider(a, a, catalog)
  {
    CapabilitiesReflexive(a, catalog);
  }

  lemma AuthorityTransits(c: Contract, b: Contract, a: Contract, catalog: Catalog)
    requires AuthorityNoWider(c, b, catalog) && AuthorityNoWider(b, a, catalog)
    ensures AuthorityNoWider(c, a, catalog)
  {
    CapabilitiesTransit(c, b, a, catalog);
  }

  /** A type refines itself exactly when its contract is valid. */
  lemma RefinesItself(a: AgentType, catalog: Catalog)
    ensures IsValidRefinement(a, a, catalog).Pass? <==> Validate(a.contract, catalog).Pass?
  {
    RefinementIff(a, a, catalog);
    AuthorityIff(a.contract, a.contract, catalog);
    ValidateIff(a.contract, catalog);
    if ValidContract(a.contract, catalog) {
      AuthorityReflexive(a.contract, catalog);
    }
  }

  lemma RefinementTransits(a: AgentType, b: AgentType, c: AgentType, catalog: Catalog)
    requires IsValidRefinement(a, b, catalog).Pass? && IsValidRefinement(b, c, catalog).Pass?
    ensures IsValidRefinement(a, c, catalog).Pass?
  {
    RefinementIff(a, b, catalog);
    RefinementIff(b, c, catalog);
    RefinementIff(a, c, catalog);
    AuthorityIff(b.contract, a.contract, catalog);
    AuthorityIff(c.contract, b.contract, catalog);
    AuthorityIff(c.contract, a.contract, catalog);
    AuthorityTransits(c.contract, b.contract, a.contract, catalog);
  }

  // ------------------------------------------------------ executability along chains

  lemma MeetsUpward(base: Contract, derived: Contract, catalog: Catalog, demanded: Capabilities)
    requires CapabilitiesNoWider(derived, base, catalog)
    requires Shaped(base.capabilities, catalog) && Shaped(derived.capabilities, catalog)
    requires MeetsAll(derived, catalog, demanded)
    ensures MeetsAll(base, catalog, demanded)
  {
    forall ref | ref in demanded ensures Meets(base, catalog, ref, demanded[ref]) {
      assert Meets(derived, catalog, ref, demanded[ref]);
      if PresentCap(base.capabilities, ref).Some? {
        assert MayBecome(ref, base.capabilities[ref], PresentCap(derived.capabilities, ref), catalog);
      }
    }
  }

  lemma FitsUpward(base: Contract, derived: Contract, req: Requirement, catalog: Catalog)
    requires Narrows(derived, base, catalog) && Fits(derived, req)
    ensures Fits(base, req)
  {
  }

  /** A task the derived type can execute is executable by the base exactly when the
      base lasts as long as the task demands: continuity is the one dimension a
      refinement may add. */
  lemma ExecutesUpward(base: AgentType, derived: AgentType, req: Requirement, catalog: Catalog)
    requires IsValidRefinement(base, derived, catalog).Pass?
    requires CanExecute(derived, req, catalog).Pass?
    ensures CanExecute(base, req, catalog).Pass?
      <==> ContinuityCovers(base.contract.continuity, req.continuity)
  {
    RefinementIff(base, derived, catalog);
    AuthorityIff(derived.contract, base.contract, catalog);
    ExecuteIff(derived, req, catalog);
    ExecuteIff(base, req, catalog);
    MeetsUpward(base.contract, derived.contract, catalog, req.capabilities);
    FitsUpward(base.contract, derived.contract, req, catalog);
  }

  ghost predicate Chain(types: seq<AgentType>, catalog: Catalog) {
    forall i | 0 < i < |types| :: IsValidRefinement(types[i - 1], types[i], catalog).Pass?
  }

  lemma {:induction false} ChainRefines(types: seq<AgentType>, i: nat, j: nat, catalog: Catalog)
    requires Chain(types, catalog) && i < j < |types|
    ensures IsValidRefinement(types[i], types[j], catalog).Pass?
  {
    if i < j - 1 {
      ChainRefines(types, i, j - 1, catalog);
      RefinementTransits(types[i], types[j - 1], types[j], catalog);
    }
  }

  /** Over a whole chain of refinements. */
  lemma ChainExecutes(types: seq<AgentType>, i: nat, j: nat, req: Requirement, catalog: Catalog)
    requires Chain(types, catalog) && i < j < |types|
    requires CanExecute(types[j], req, catalog).Pass?
    ensures CanExecute(types[i], req, catalog).Pass?
      <==> ContinuityCovers(types[i].contract.continuity, req.continuity)
  {
    ChainRefines(types, i, j, catalog);
    ExecutesUpward(types[i], types[j], req, catalog);
  }

  /** The condition is needed: a derived type may promise continuity its base does not. */
  lemma ContinuityGrows()
    ensures exists base: AgentType, derived: AgentType, req: Requirement, catalog: Catalog ::
      && IsValidRefinement(base, derived, catalog).Pass?
      && CanExecute(derived, req, catalog).Pass?
      && CanExecute(base, req, catalog).Fail?
  {
    var contract := Contract([Expand], map[], Any, 1.0, Security(ReadOnly, Disabled, false), {Ephemeral},
                             NoContinuity, None, None);
    var base := AgentType(Ref("worker", 1), None, contract);
    var derived := AgentType(Ref("keeper", 1), Some(base.ref), contract.(continuity := Logical));
    var req := Requirement(Expand, map[], {}, ReadOnly, Disabled, false, Logical, None, None, 1.0);
    var catalog: Catalog := map[];
    RefinementIff(base, derived, catalog);
    AuthorityIff(derived.contract, base.contract, catalog);
    ExecuteIff(derived, req, catalog);
    ExecuteIff(base, req, catalog);
  }
}
