/** Spawn sources and their configurations, imported enforcement evidence, and when
    an environment can be provisioned from them. */
module Sources {
  import opened Options
  import opened Outcomes
  import opened Sorting
  import opened Capability
  import opened Contracts

  datatype Assurance = Declared | Enforced

  /** A declaration about one capability; assurance and provenance are labels only. */
  datatype Claim = Claim(ref: Ref, value: CapabilityValue, assurance: Assurance, provenance: Option<string>)

  datatype Status = Active | Draining | Inactive

  datatype SpawnSource = SpawnSource(
    ref: Ref,
    adapterPolicy: Ref,
    lifecycle: set<LifecycleMode>,
    continuity: set<ContinuityMode>,
    envelope: Capabilities,
    claims: seq<Claim>,
    status: Status)

  datatype ConfigRef = ConfigRef(source: Ref, id: string, revision: nat)

  datatype SourceConfig = SourceConfig(
    ref: ConfigRef,
    digest: string,
    lifecycle: Option<set<LifecycleMode>>,
    continuity: Option<set<ContinuityMode>>,
    credentials: seq<string>,
    claims: seq<Claim>,
    status: Status)

  datatype PhysicalSafety = PhysicalSafety(isolation: bool, workspaces: seq<WorkspaceMode>,
                                           networks: set<NetworkPolicy>)

  datatype Evidence = Evidence(
    adapterPolicy: Ref,
    source: Ref,
    config: ConfigRef,
    digest: string,
    safety: PhysicalSafety,
    sandboxes: set<Ref>,
    capabilities: Capabilities)

  // --------------------------------------------------------------------- claims

  predicate Declares(c: Claim, ref: Ref) {
    c.ref == ref && c.value.Present()
  }

  /** The declaration at a reference: conflicting values are refused, an enforced label
      is preferred. */
  function ResolveClaim(claims: seq<Claim>, ref: Ref): Result<Option<Claim>> {
    var matching := Filter(claims, c => Declares(c, ref));
    if matching == [] then Ok(None)
    else if exists c | c in matching :: c.value != matching[0].value then Err(InvariantViolation)
    else
      var enforced := Filter(matching, (c: Claim) => c.assurance.Enforced?);
      Ok(Some(if enforced != [] then enforced[0] else matching[0]))
  }

  function Resolves(claims: seq<Claim>, ref: Ref): Check {
    var r := ResolveClaim(claims, ref);
    if r.Ok? then Pass else Fail(r.error)
  }

  function ClaimsCheck(claims: seq<Claim>, catalog: Catalog): Check {
    CheckEach(claims, (c: Claim) => ShapeCheck(catalog, c.ref, c.value))
      .Then(CheckEach(claims, (c: Claim) => Resolves(claims, c.ref)))
  }

  /** `validate_claims`: shapes first, then one resolution per reference not seen yet. */
  method ValidateClaims(claims: seq<Claim>, catalog: Catalog) returns (r: Check)
    ensures r == ClaimsCheck(claims, catalog)
  {
    ghost var shape := (c: Claim) => ShapeCheck(catalog, c.ref, c.value);
    for i := 0 to |claims|
      invariant CheckEach(claims, shape) == CheckEach(claims[i..], shape)
    {
      assert claims[i..][1..] == claims[i + 1..];
      r := ShapeCheck(catalog, claims[i].ref, claims[i].value);
      if r.Fail? {
        return;
      }
    }
    ghost var resolve := (c: Claim) => Resolves(claims, c.ref);
    var seen: seq<Ref> := [];
    for i := 0 to |claims|
      invariant CheckEach(claims, resolve) == CheckEach(claims[i..], resolve)
      invariant forall ref | ref in seen :: Resolves(claims, ref).Pass?
    {
      assert claims[i..][1..] == claims[i + 1..];
      if claims[i].ref !in seen {
        r := Resolves(claims, claims[i].ref);
        if r.Fail? {
          return;
        }
        seen := seen + [claims[i].ref];
      }
    }
    r := Pass;
  }

  /** A functional declaration stays inside the source's envelope. */
  function ClaimWithin(catalog: Catalog, envelope: Capabilities, c: Claim): Check {
    if !c.value.Present() then Pass
    else if c.ref in catalog && catalog[c.ref].NeedsEvidence() then Pass
    else if c.ref !in envelope then Fail(CapabilityMismatch(c.ref.id))
    else Unless(!Within(envelope[c.ref], c.value), InvariantViolation)
  }

  function ValidateSpawnSource(source: SpawnSource, catalog: Catalog): Check {
    ClaimsCheck(source.claims, catalog)
      .Then(CheckCaps(source.envelope, (ref, value) => ShapeCheck(catalog, ref, value)))
      .Then(CheckEach(source.claims, c => ClaimWithin(catalog, source.envelope, c)))
  }

  predicate Lasting(modes: set<ContinuityMode>, required: ContinuityMode) {
    exists mode | mode in modes :: ContinuityRank(mode) >= ContinuityRank(required)
  }

  predicate LifecycleNarrows(config: SourceConfig, source: SpawnSource) {
    config.lifecycle.Some? ==> config.lifecycle.value <= source.lifecycle
  }

  predicate ContinuityNarrows(config: SourceConfig, source: SpawnSource) {
    config.continuity.Some? ==> forall needed | needed in config.continuity.value :: Lasting(source.continuity, needed)
  }

  function ValidateSourceConfig(config: SourceConfig, source: SpawnSource, catalog: Catalog): Check {
    Unless(config.ref.source != source.ref, SourceConfigInvalid)
      .Then(Unless(!LifecycleNarrows(config, source), SourceConfigInvalid))
      .Then(Unless(!ContinuityNarrows(config, source), SourceConfigInvalid))
      .Then(ClaimsCheck(config.claims, catalog))
      .Then(CheckEach(config.claims, c => ClaimWithin(catalog, source.envelope, c)))
  }

  function EffectiveLifecycle(config: SourceConfig, source: SpawnSource): set<LifecycleMode> {
    if config.lifecycle.Some? then config.lifecycle.value else source.lifecycle
  }

  function EffectiveContinuity(config: SourceConfig, source: SpawnSource): set<ContinuityMode> {
    if config.continuity.Some? then config.continuity.value else source.continuity
  }

  // --------------------------------------------------------------- provisioning

  /** What the config declares, else what the source declares, else the ceiling. */
  function Effective(ceiling: CapabilityValue, own: Option<Claim>, configured: Option<Claim>): CapabilityValue {
    if configured.Some? then configured.value.value else if own.Some? then own.value.value else ceiling
  }

  function ProvisionCap(source: SpawnSource, config: SourceConfig, evidence: Evidence, catalog: Catalog,
                        ref: Ref, required: CapabilityValue): Check {
    if ref !in catalog then Fail(CapabilityMismatch(ref.id))
    else if !required.Present() then Pass
    else if catalog[ref].NeedsEvidence() then
      if ref !in evidence.capabilities then Fail(SecurityUnenforceable)
      else Unless(!Satisfies(catalog[ref].matcher, required, evidence.capabilities[ref]), CapabilityMismatch(ref.id))
    else
      var ceiling := PresentCap(source.envelope, ref);
      if ceiling.None? then Fail(CapabilityMismatch(ref.id))
      else
        var own, configured := ResolveClaim(source.claims, ref), ResolveClaim(config.claims, ref);
        if own.Err? then Fail(own.error)
        else if own.value.Some? && !Within(ceiling.value, own.value.value.value) then Fail(InvariantViolation)
        else if configured.Err? then Fail(configured.error)
        else if configured.value.Some?
          && !Within(ceiling.value, configured.value.value.value) then Fail(InvariantViolation)
        else Unless(!Satisfies(catalog[ref].matcher, required, Effective(ceiling.value, own.value, configured.value)),
                    CapabilityMismatch(ref.id))
  }

  function CanProvision(agent: AgentType, source: SpawnSource, config: SourceConfig, evidence: Evidence,
                        catalog: Catalog): Check {
    var own, safety := agent.contract, evidence.safety;
    Validate(own, catalog)
      .Then(ValidateSpawnSource(source, catalog))
      .Then(ValidateSourceConfig(config, source, catalog))
      .Then(Unless(!source.status.Active? || !config.status.Active?, SourceConfigInvalid))
      .Then(Unless(evidence.adapterPolicy != source.adapterPolicy, EvidencePolicyMismatch))
      .Then(Unless(evidence.source != source.ref || evidence.config != config.ref
                   || evidence.digest != config.digest, EvidenceSubjectMismatch))
      .Then(Unless(!(own.lifecycle <= EffectiveLifecycle(config, source)), CapabilityMismatch("lifecycle")))
      .Then(Unless(!Lasting(EffectiveContinuity(config, source), own.continuity), CapabilityMismatch("continuity")))
      .Then(CheckCaps(own.capabilities,
                      (ref, required) => ProvisionCap(source, config, evidence, catalog, ref, required)))
      .Then(Unless(own.security.workspace !in safety.workspaces, SecurityUnenforceable))
      .Then(Unless(own.security.network !in safety.networks, SecurityUnenforceable))
      .Then(Unless(own.security.isolation && !safety.isolation, SecurityUnenforceable))
      .Then(Unless(own.sandbox.Some? && own.sandbox.value !in evidence.sandboxes, SecurityUnenforceable))
  }

  function EffectiveValue(source: SpawnSource, config: SourceConfig, ref: Ref): Result<CapabilityValue> {
    var ceiling := PresentCap(source.envelope, ref);
    if ceiling.None? then Err(CapabilityMismatch(ref.id))
    else
      var own :- ResolveClaim(source.claims, ref);
      var configured :- ResolveClaim(config.claims, ref);
      Ok(Effective(ceiling.value, own, configured))
  }

  /** A task's restriction, joined with the agent type's own, must be provable. */
  function RestrictCap(agent: AgentType, source: SpawnSource, config: SourceConfig, evidence: Evidence,
                       catalog: Catalog,
                       ref: Ref, demanded: CapabilityValue): Check {
    if ref !in catalog then Fail(CapabilityMismatch(ref.id))
    else if !demanded.Present() || catalog[ref].polarity.Ability? then Pass
    else
      var own := PresentCap(agent.contract.capabilities, ref);
      var effective := if own.Some? then Join(catalog[ref].matcher, own.value, demanded) else Some(demanded);
      if effective.None? then Fail(CapabilityMismatch(ref.id))
      else if catalog[ref].NeedsEvidence() then
        if ref !in evidence.capabilities then Fail(SecurityUnenforceable)
        else Unless(!Satisfies(catalog[ref].matcher, effective.value, evidence.capabilities[ref]),
                    CapabilityMismatch(ref.id))
      else
        var provided := EffectiveValue(source, config, ref);
        if provided.Err? then Fail(provided.error)
        else Unless(!Satisfies(catalog[ref].matcher, effective.value, provided.value), CapabilityMismatch(ref.id))
  }

  function CanProvisionTask(agent: AgentType, source: SpawnSource, config: SourceConfig, evidence: Evidence,
                            catalog: Catalog, task: Requirement): Check {
    var safety := evidence.safety;
    CanExecute(agent, task, catalog)
      .Then(CanProvision(agent, source, config, evidence, catalog))
      .Then(Unless(task.workspace !in safety.workspaces, SecurityUnenforceable))
      .Then(Unless(task.network !in safety.networks, SecurityUnenforceable))
      .Then(Unless((agent.contract.security.isolation || task.isolation) && !safety.isolation, SecurityUnenforceable))
      .Then(Unless(task.sandbox.Some? && task.sandbox.value !in evidence.sandboxes, SecurityUnenforceable))
      .Then(Unless(!Lasting(EffectiveContinuity(config, source), task.continuity), CapabilityMismatch("continuity")))
      .Then(CheckCaps(task.capabilities,
                      (ref, demanded) => RestrictCap(agent, source, config, evidence, catalog, ref, demanded)))
  }
}
