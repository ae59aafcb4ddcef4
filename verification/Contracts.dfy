/** Agent-type contracts and task requirements, and the relations between them:
    who can execute what, who refines whom, who is more specific. */
module Contracts {
  import opened Options
  import opened Outcomes
  import opened Sorting
  import opened Capability

  datatype InformationFunction = Expand | CompressPositive | CompressNegative
  datatype WorkspaceMode = ReadOnly | Write
  datatype NetworkPolicy = Disabled | Restricted | Enabled
  datatype ContinuityMode = NoContinuity | Logical
  datatype LifecycleMode = Ephemeral | Resident | Revivable

  function WorkspaceRank(mode: WorkspaceMode): nat {
    match mode case ReadOnly => 0 case Write => 1
  }

  function NetworkRank(policy: NetworkPolicy): nat {
    match policy case Disabled => 0 case Restricted => 1 case Enabled => 2
  }

  function ContinuityRank(mode: ContinuityMode): nat {
    match mode case NoContinuity => 0 case Logical => 1
  }

  datatype Security = Security(workspace: WorkspaceMode, network: NetworkPolicy, isolation: bool)

  /** Which task tags an agent type accepts. */
  datatype Affinity = Any | Only(tags: set<string>)

  datatype Contract = Contract(
    purposes: seq<InformationFunction>,
    capabilities: Capabilities,
    affinity: Affinity,
    budget: Amount,
    security: Security,
    lifecycle: set<LifecycleMode>,
    continuity: ContinuityMode,
    sandbox: Option<Ref>,
    anchor: Option<string>)

  datatype AgentType = AgentType(ref: Ref, basedOn: Option<Ref>, contract: Contract)

  /** What a task demands of its agent. */
  datatype Requirement = Requirement(
    purpose: InformationFunction,
    capabilities: Capabilities,
    affinity: set<string>,
    workspace: WorkspaceMode,
    network: NetworkPolicy,
    isolation: bool,
    continuity: ContinuityMode,
    sandbox: Option<Ref>,
    anchor: Option<string>,
    budget: Amount)

  /** The keys of a capability map, in the order the map is walked. */
  function Refs(caps: Capabilities): (list: seq<Ref>)
    ensures Increasing(list, RefBefore)
    ensures forall ref :: ref in list <==> ref in caps
  {
    RefTotal();
    Listing(caps.Keys, RefBefore)
  }

  function CheckCaps(caps: Capabilities, check: (Ref, CapabilityValue) -> Check): (c: Check)
    ensures c.Pass? <==> forall ref | ref in caps :: check(ref, caps[ref]).Pass?
  {
    var c := CheckEach(Refs(caps), ref => if ref in caps then check(ref, caps[ref]) else Pass);
    assert c.Pass? <==> forall ref | ref in Refs(caps) :: check(ref, caps[ref]).Pass?;
    c
  }

  /** A capability must be known and carry the value shape its definition asks for. */
  function ShapeCheck(catalog: Catalog, ref: Ref, value: CapabilityValue): Check {
    if ref !in catalog then Fail(CapabilityMismatch(ref.id))
    else Unless(catalog[ref].matcher != value.Kind(), InvariantViolation)
  }

  function Validate(contract: Contract, catalog: Catalog): Check {
    Unless(contract.lifecycle == {}, InvariantViolation)
      .Then(CheckCaps(contract.capabilities, (ref, value) => ShapeCheck(catalog, ref, value)))
  }

  // ----------------------------------------------------------------- execution

  function ExecuteCap(contract: Contract, catalog: Catalog, ref: Ref, required: CapabilityValue): Check {
    var shape := ShapeCheck(catalog, ref, required);
    if shape.Fail? || !required.Present() then shape
    else
      var d := catalog[ref];
      match (PresentCap(contract.capabilities, ref), d.polarity)
      case (Some(own), Restriction) => Unless(Join(d.matcher, own, required).None?, CapabilityMismatch(ref.id))
      case (None, Restriction) => Pass
      case (Some(own), Ability) => Unless(!Satisfies(d.matcher, required, own), CapabilityMismatch(ref.id))
      case (None, Ability) => Fail(CapabilityMismatch(ref.id))
  }

  predicate AffinityAccepts(affinity: Affinity, tags: set<string>) {
    affinity.Only? ==> tags <= affinity.tags
  }

  predicate SandboxWithin(required: Option<Ref>, allowance: Option<Ref>) {
    required.Some? && allowance.Some? ==> required == allowance
  }

  predicate AnchorAgrees(required: Option<string>, constraint: Option<string>) {
    required.Some? && constraint.Some? ==> required == constraint
  }

  function CanExecute(agent: AgentType, req: Requirement, catalog: Catalog): Check {
    var own := agent.contract;
    Validate(own, catalog)
      .Then(Unless(req.purpose !in own.purposes, CapabilityMismatch("information_function")))
      .Then(CheckCaps(req.capabilities, (ref, required) => ExecuteCap(own, catalog, ref, required)))
      .Then(Unless(!AffinityAccepts(own.affinity, req.affinity), CapabilityMismatch("affinity")))
      .Then(Unless(WorkspaceRank(own.security.workspace) < WorkspaceRank(req.workspace), SecurityUnenforceable))
      .Then(Unless(NetworkRank(own.security.network) < NetworkRank(req.network), SecurityUnenforceable))
      .Then(Unless(ContinuityRank(own.continuity) < ContinuityRank(req.continuity), CapabilityMismatch("continuity")))
      .Then(Unless(!SandboxWithin(req.sandbox, own.sandbox), CapabilityMismatch("sandbox_policy")))
      .Then(Unless(!AnchorAgrees(req.anchor, own.anchor), CapabilityMismatch("anchor")))
      .Then(Unless(req.budget > own.budget, CapabilityMismatch("budget")))
  }

  // ------------------------------------------------------------------ narrowing

  predicate AbilityNoWider(kind: MatcherKind, base: CapabilityValue, derived: CapabilityValue) {
    match (kind, base, derived)
    case (MatchBool, Bool(b), Bool(d)) => d ==> b
    case (MatchExact, b, d) => b == d
    case (MatchSet, Set(b), Set(d)) => d <= b
    case (MatchOrdered, Ordered(bg, br), Ordered(dg, dr)) => bg == dg && dr <= br
    case (MatchQuantity, Quantity(b), Quantity(d)) => d <= b
    case _ => false
  }

  predicate RestrictionNoWider(kind: MatcherKind, base: CapabilityValue, derived: CapabilityValue) {
    match (kind, base, derived)
    case (MatchBool, Bool(b), Bool(d)) => b ==> d
    case (MatchExact, b, d) => b == d
    case (MatchSet, Set(b), Set(d)) => b <= d
    case (MatchOrdered, Ordered(bg, br), Ordered(dg, dr)) => bg == dg && dr >= br
    case (MatchQuantity, Quantity(b), Quantity(d)) => d >= b
    case _ => false
  }

  /** Adding a capability may only add a restriction. */
  predicate MayAdd(ref: Ref, catalog: Catalog) {
    ref in catalog && catalog[ref].polarity.Restriction?
  }

  /** A capability of the base may be dropped when it is an ability, and kept when it
      shrinks as an ability or grows as a restriction. */
  predicate MayBecome(ref: Ref, base: CapabilityValue, derived: Option<CapabilityValue>, catalog: Catalog) {
    && ref in catalog
    && var d := catalog[ref];
       match (d.polarity, derived)
       case (Restriction, None) => false
       case (Ability, None) => true
       case (Ability, Some(v)) => AbilityNoWider(d.matcher, base, v)
       case (Restriction, Some(v)) => RestrictionNoWider(d.matcher, base, v)
  }

  predicate CapabilitiesNoWider(derived: Contract, base: Contract, catalog: Catalog) {
    && (forall ref | ref in derived.capabilities && derived.capabilities[ref].Present() ::
          PresentCap(base.capabilities, ref).None? ==> MayAdd(ref, catalog))
    && (forall ref | ref in base.capabilities && base.capabilities[ref].Present() ::
          MayBecome(ref, base.capabilities[ref], PresentCap(derived.capabilities, ref), catalog))
  }

  predicate AffinityNoWider(a: Affinity, b: Affinity) {
    b.Only? ==> a.Only? && a.tags <= b.tags
  }

  /** A pinned value may be added, never changed or dropped. */
  predicate PinNoWider<T(==)>(derived: Option<T>, base: Option<T>) {
    base.Some? ==> derived == base
  }

  predicate PurposesWithin(a: seq<InformationFunction>, b: seq<InformationFunction>) {
    forall f | f in a :: f in b
  }

  /** `a` grants no more authority than `b`. Continuity is not compared. */
  predicate AuthorityNoWider(a: Contract, b: Contract, catalog: Catalog) {
    && PurposesWithin(a.purposes, b.purposes)
    && AffinityNoWider(a.affinity, b.affinity)
    && a.budget <= b.budget
    && a.lifecycle <= b.lifecycle
    && WorkspaceRank(a.security.workspace) <= WorkspaceRank(b.security.workspace)
    && NetworkRank(a.security.network) <= NetworkRank(b.security.network)
    && (b.security.isolation ==> a.security.isolation)
    && PinNoWider(a.sandbox, b.sandbox)
    && PinNoWider(a.anchor, b.anchor)
    && CapabilitiesNoWider(a, b, catalog)
  }

  predicate MoreSpecificFor(a: AgentType, b: AgentType, req: Requirement, catalog: Catalog) {
    && a.ref != b.ref
    && CanExecute(a, req, catalog).Pass?
    && CanExecute(b, req, catalog).Pass?
    && AuthorityNoWider(a.contract, b.contract, catalog)
    && !AuthorityNoWider(b.contract, a.contract, catalog)
  }

  function IsValidRefinement(base: AgentType, derived: AgentType, catalog: Catalog): Check {
    var b, d := base.contract, derived.contract;
    Validate(b, catalog)
      .Then(Validate(d, catalog))
      .Then(Unless(!AffinityNoWider(d.affinity, b.affinity), InvalidRefinement))
      .Then(Unless(d.budget > b.budget, InvalidRefinement))
      .Then(Unless(!(d.lifecycle <= b.lifecycle), InvalidRefinement))
      .Then(Unless(ContinuityRank(d.continuity) < ContinuityRank(b.continuity), InvalidRefinement))
      .Then(Unless(!PinNoWider(d.sandbox, b.sandbox), InvalidRefinement))
      .Then(Unless(!PinNoWider(d.anchor, b.anchor), InvalidRefinement))
      .Then(Unless(WorkspaceRank(d.security.workspace) > WorkspaceRank(b.security.workspace), InvalidRefinement))
      .Then(Unless(NetworkRank(d.security.network) > NetworkRank(b.security.network), InvalidRefinement))
      .Then(Unless(b.security.isolation && !d.security.isolation, InvalidRefinement))
      .Then(Unless(!PurposesWithin(d.purposes, b.purposes), InvalidRefinement))
      .Then(Unless(!CapabilitiesNoWider(d, b, catalog), InvalidRefinement))
  }
}
