/** What an accepted provisioning proves, stated without the order or the labels of
    the declarations it was read from. */
module Provisioning {
  import opened Options
  import opened Outcomes
  import opened Sorting
  import opened Capability
  import opened Contracts
  import opened Grants
  import opened Refinement
  import opened Sources

  type Declarations = set<(Ref, CapabilityValue)>

  /** What a list of claims says, without order, repetition, labels or absences. */
  ghost function Said(claims: seq<Claim>): Declarations {
    set c | c in claims && c.value != Bool(false) :: (c.ref, c.value)
  }

  /** At most one value is said at `ref`. */
  ghost predicate Single(said: Declarations, ref: Ref) {
    forall v, w | (ref, v) in said && (ref, w) in said :: v == w
  }

  ghost predicate Silent(said: Declarations, ref: Ref) {
    forall v :: (ref, v) !in said
  }

  ghost predicate Coherent(said: Declarations) {
    forall ref :: Single(said, ref)
  }

  lemma SaidBy(claims: seq<Claim>, ref: Ref, v: CapabilityValue)
    ensures (ref, v) in Said(claims) <==> exists c :: c in claims && Declares(c, ref) && c.value == v
  {
  }

  lemma SaidMatches(claims: seq<Claim>, ref: Ref, v: CapabilityValue)
    ensures (ref, v) in Said(claims) <==> exists c :: c in Filter(claims, d => Declares(d, ref)) && c.value == v
  {
    FilterMembers(claims, d => Declares(d, ref));
    SaidBy(claims, ref, v);
  }

  /** Resolution reads off the one value said at a reference. */
  lemma ResolveIff(claims: seq<Claim>, ref: Ref)
    ensures var r := ResolveClaim(claims, ref);
      && (r.Ok? <==> Single(Said(claims), ref))
      && (r.Ok? ==> (r.value.None? <==> Silent(Said(claims), ref)))
      && (r.Ok? && r.value.Some? ==>
        r.value.value in claims && Declares(r.value.value, ref) && (ref, r.value.value.value) in Said(claims))
  {
    var matching := Filter(claims, d => Declares(d, ref));
    FilterMembers(claims, d => Declares(d, ref));
    FilterMembers(matching, (c: Claim) => c.assurance.Enforced?);
    forall v ensures (ref, v) in Said(claims) <==> exists c :: c in matching && c.value == v {
      SaidMatches(claims, ref, v);
    }
    if matching != [] {
      assert matching[0] in matching;
      assert (ref, matching[0].value) in Said(claims);
      if c :| c in matching && c.value != matching[0].value {
        assert (ref, c.value) in Said(claims);
      } else {
        assert Single(Said(claims), ref);
      }
    }
    var enforced := Filter(matching, (c: Claim) => c.assurance.Enforced?);
    if enforced != [] {
      assert enforced[0] in enforced;
    }
  }

  /** A ceiling covers what it satisfies. */
  predicate Covers(ceiling: CapabilityValue, v: CapabilityValue) {
    Satisfies(ceiling.Kind(), v, ceiling)
  }

  /** What the config says, or else the source. */
  function Or<T>(config: Option<T>, source: T): T {
    match config case Some(t) => t case None => source
  }

  /** Some mode on offer covers the demand. */
  ghost predicate Offers(modes: set<ContinuityMode>, demand: ContinuityMode) {
    modes != {} && (demand == Logical ==> Logical in modes)
  }

  ghost predicate ClaimsShaped(claims: seq<Claim>, catalog: Catalog) {
    forall i | 0 <= i < |claims| :: ShapeCheck(catalog, claims[i].ref, claims[i].value).Pass?
  }

  /** Every functional declaration lies inside the envelope. */
  ghost predicate Inside(said: Declarations, envelope: Capabilities, catalog: Catalog) {
    forall ref, v | (ref, v) in said ::
      (ref in catalog && catalog[ref].security != Functional) || (ref in envelope && Covers(envelope[ref], v))
  }

  lemma ClaimsIff(claims: seq<Claim>, catalog: Catalog)
    ensures ClaimsCheck(claims, catalog).Pass? <==> ClaimsShaped(claims, catalog) && Coherent(Said(claims))
  {
    var said := Said(claims);
    forall ref ensures Single(said, ref) <==> Resolves(claims, ref).Pass? { ResolveIff(claims, ref); }
    if forall i | 0 <= i < |claims| :: Resolves(claims, claims[i].ref).Pass? {
      forall ref ensures Single(said, ref) {
        forall v, w | (ref, v) in said && (ref, w) in said ensures v == w {
          SaidBy(claims, ref, v);
          var c :| c in claims && Declares(c, ref) && c.value == v;
          assert Single(said, c.ref);
        }
      }
    }
  }

  lemma WithinIff(claims: seq<Claim>, envelope: Capabilities, catalog: Catalog)
    ensures CheckEach(claims, c => ClaimWithin(catalog, envelope, c)).Pass? <==> Inside(Said(claims), envelope, catalog)
  {
    var said := Said(claims);
    if Inside(said, envelope, catalog) {
      forall i | 0 <= i < |claims| ensures ClaimWithin(catalog, envelope, claims[i]).Pass? {
        assert claims[i].value.Present() ==> (claims[i].ref, claims[i].value) in said;
      }
    }
    if forall i | 0 <= i < |claims| :: ClaimWithin(catalog, envelope, claims[i]).Pass? {
      forall ref, v | (ref, v) in said
        ensures (ref in catalog && catalog[ref].security != Functional) || (ref in envelope && Covers(envelope[ref], v))
      {
        SaidBy(claims, ref, v);
        var c :| c in claims && Declares(c, ref) && c.value == v;
        var i :| 0 <= i < |claims| && claims[i] == c;
        assert ClaimWithin(catalog, envelope, claims[i]).Pass?;
      }
    }
  }

  ghost predicate SourceSound(source: SpawnSource, catalog: Catalog) {
    && ClaimsShaped(source.claims, catalog)
    && Coherent(Said(source.claims))
    && Shaped(source.envelope, catalog)
    && Inside(Said(source.claims), source.envelope, catalog)
  }

  ghost predicate ConfigSound(config: SourceConfig, source: SpawnSource, catalog: Catalog) {
    && config.ref.source == source.ref
    && (config.lifecycle != None ==> forall mode | mode in config.lifecycle.value :: mode in source.lifecycle)
    && (config.continuity != None ==> forall mode | mode in config.continuity.value :: Offers(source.continuity, mode))
    && ClaimsShaped(config.claims, catalog)
    && Coherent(Said(config.claims))
    && Inside(Said(config.claims), source.envelope, catalog)
  }

  lemma SourceIff(source: SpawnSource, catalog: Catalog)
    ensures ValidateSpawnSource(source, catalog).Pass? <==> SourceSound(source, catalog)
  {
    ClaimsIff(source.claims, catalog);
    WithinIff(source.claims, source.envelope, catalog);
  }

  lemma ConfigIff(config: SourceConfig, source: SpawnSource, catalog: Catalog)
    ensures ValidateSourceConfig(config, source, catalog).Pass? <==> ConfigSound(config, source, catalog)
  {
    ClaimsIff(config.claims, catalog);
    WithinIff(config.claims, source.envelope, catalog);
  }

  // ------------------------------------------------------------ what is supplied

  /** `v` is what the declarations come to: the config's word, else the source's, else
      the ceiling. */
  ghost predicate Settles(ceiling: CapabilityValue, own: Declarations, configured: Declarations, ref: Ref,
                          v: CapabilityValue) {
    if !Silent(configured, ref) then (ref, v) in configured
    else if !Silent(own, ref) then (ref, v) in own
    else v == ceiling
  }

  /** `v` is the value the environment stands for at `ref`: imported evidence for a
      security class, a value inside the source's envelope otherwise. */
  ghost predicate Supplies(source: SpawnSource, config: SourceConfig, evidence: Evidence, catalog: Catalog, ref: Ref,
                           v: CapabilityValue) {
    && ref in catalog
    && if catalog[ref].security != Functional then
         ref in evidence.capabilities && v == evidence.capabilities[ref]
       else
         && Given(source.envelope, ref)
         && Covers(source.envelope[ref], v)
         && Settles(source.envelope[ref], Said(source.claims), Said(config.claims), ref, v)
  }

  lemma SuppliedOnce(source: SpawnSource, config: SourceConfig, evidence: Evidence, catalog: Catalog, ref: Ref,
                     v: CapabilityValue, w: CapabilityValue)
    requires Coherent(Said(source.claims)) && Coherent(Said(config.claims))
    requires Supplies(source, config, evidence, catalog, ref, v) && Supplies(source, config, evidence, catalog, ref, w)
    ensures v == w
  {
    assert Single(Said(source.claims), ref) && Single(Said(config.claims), ref);
  }

  /** For a functional capability the effective value is the supplied one. */
  lemma EffectiveSupplied(source: SpawnSource, config: SourceConfig, evidence: Evidence, catalog: Catalog, ref: Ref)
    requires SourceSound(source, catalog) && ConfigSound(config, source, catalog)
    requires ref in catalog && !catalog[ref].NeedsEvidence()
    ensures EffectiveValue(source, config, ref).Ok? <==> PresentCap(source.envelope, ref).Some?
    ensures EffectiveValue(source, config, ref).Ok? ==>
      Supplies(source, config, evidence, catalog, ref, EffectiveValue(source, config, ref).value)
  {
    ResolveIff(source.claims, ref);
    ResolveIff(config.claims, ref);
    assert Single(Said(source.claims), ref) && Single(Said(config.claims), ref);
  }

  /** A demand the environment meets. */
  ghost predicate Met(source: SpawnSource, config: SourceConfig, evidence: Evidence, catalog: Catalog, ref: Ref,
                      required: CapabilityValue) {
    exists v :: Supplies(source, config, evidence, catalog, ref, v) && Satisfies(catalog[ref].matcher, required, v)
  }

  lemma ProvisionCapIff(source: SpawnSource, config: SourceConfig, evidence: Evidence, catalog: Catalog, ref: Ref,
                        required: CapabilityValue)
    requires SourceSound(source, catalog) && ConfigSound(config, source, catalog)
    requires ref in catalog && required.Present()
    ensures ProvisionCap(source, config, evidence, catalog, ref, required).Pass? <==>
      Met(source, config, evidence, catalog, ref, required)
  {
    if catalog[ref].NeedsEvidence() {
      if ref in evidence.capabilities {
        assert Supplies(source, config, evidence, catalog, ref, evidence.capabilities[ref]);
      }
    } else {
      FunctionalIff(source, config, evidence, catalog, ref, required);
    }
  }

  lemma FunctionalIff(source: SpawnSource, config: SourceConfig, evidence: Evidence, catalog: Catalog, ref: Ref,
                      required: CapabilityValue)
    requires SourceSound(source, catalog) && ConfigSound(config, source, catalog)
    requires ref in catalog && required.Present() && !catalog[ref].NeedsEvidence()
    ensures ProvisionCap(source, config, evidence, catalog, ref, required).Pass? <==>
      Met(source, config, evidence, catalog, ref, required)
  {
    if PresentCap(source.envelope, ref).Some? {
      EffectiveSupplied(source, config, evidence, catalog, ref);
      ResolveIff(source.claims, ref);
      ResolveIff(config.claims, ref);
      assert Single(Said(source.claims), ref) && Single(Said(config.claims), ref);
      var v := EffectiveValue(source, config, ref).value;
      assert ProvisionCap(source, config, evidence, catalog, ref, required).Pass? <==>
        Satisfies(catalog[ref].matcher, required, v);
      if Met(source, config, evidence, catalog, ref, required) {
        var w :| Supplies(source, config, evidence, catalog, ref, w) && Satisfies(catalog[ref].matcher, required, w);
        SuppliedOnce(source, config, evidence, catalog, ref, v, w);
      }
    }
  }

  // -------------------------------------------------------------- the two verdicts

  /** Both records are in service and the evidence was imported for exactly them. */
  ghost predicate InService(source: SpawnSource, config: SourceConfig, evidence: Evidence) {
    && source.status.Active? && config.status.Active?
    && evidence.adapterPolicy == source.adapterPolicy
    && evidence.source == source.ref && evidence.config == config.ref && evidence.digest == config.digest
  }

  ghost predicate Enforces(evidence: Evidence, workspace: WorkspaceMode, network: NetworkPolicy, isolation: bool,
                           sandbox: Option<Ref>) {
    && workspace in evidence.safety.workspaces
    && network in evidence.safety.networks
    && (isolation ==> evidence.safety.isolation)
    && (sandbox.Some? ==> sandbox.value in evidence.sandboxes)
  }

  /** Everything `can_provision` asks for besides capabilities. */
  ghost predicate Grounds(agent: AgentType, source: SpawnSource, config: SourceConfig, evidence: Evidence,
                          catalog: Catalog) {
    var own := agent.contract;
    && ValidContract(own, catalog)
    && SourceSound(source, catalog)
    && ConfigSound(config, source, catalog)
    && InService(source, config, evidence)
    && (forall mode | mode in own.lifecycle :: mode in Or(config.lifecycle, source.lifecycle))
    && Offers(Or(config.continuity, source.continuity), own.continuity)
    && Enforces(evidence, own.security.workspace, own.security.network, own.security.isolation, own.sandbox)
  }

  ghost predicate AllMet(source: SpawnSource, config: SourceConfig, evidence: Evidence, catalog: Catalog,
                         demanded: Capabilities) {
    forall ref | Given(demanded, ref) :: Met(source, config, evidence, catalog, ref, demanded[ref])
  }

  lemma CapsIff(source: SpawnSource, config: SourceConfig, evidence: Evidence, catalog: Catalog, demanded: Capabilities)
    requires SourceSound(source, catalog) && ConfigSound(config, source, catalog) && Shaped(demanded, catalog)
    ensures CheckCaps(demanded, (ref, required) => ProvisionCap(source, config, evidence, catalog, ref, required)).Pass?
      <==> AllMet(source, config, evidence, catalog, demanded)
  {
    forall ref | ref in demanded
      ensures ProvisionCap(source, config, evidence, catalog, ref, demanded[ref]).Pass?
        <==> (demanded[ref].Present() ==> Met(source, config, evidence, catalog, ref, demanded[ref]))
    {
      if demanded[ref].Present() {
        ProvisionCapIff(source, config, evidence, catalog, ref, demanded[ref]);
      }
    }
  }

  lemma ProvisionIff(agent: AgentType, source: SpawnSource, config: SourceConfig, evidence: Evidence, catalog: Catalog)
    ensures CanProvision(agent, source, config, evidence, catalog).Pass? <==>
      && Grounds(agent, source, config, evidence, catalog)
      && AllMet(source, config, evidence, catalog, agent.contract.capabilities)
  {
    ValidateIff(agent.contract, catalog);
    SourceIff(source, catalog);
    ConfigIff(config, source, catalog);
    if ValidContract(agent.contract, catalog) && SourceSound(source, catalog) && ConfigSound(config, source, catalog) {
      CapsIff(source, config, evidence, catalog, agent.contract.capabilities);
    }
  }

  /** One supplied value answers both the agent type and the task. */
  ghost predicate Answers(agent: AgentType, task: Requirement, source: SpawnSource, config: SourceConfig,
                          evidence: Evidence, catalog: Catalog, ref: Ref, v: CapabilityValue) {
    && Supplies(source, config, evidence, catalog, ref, v)
    && (Given(agent.contract.capabilities, ref) ==>
          Satisfies(catalog[ref].matcher, agent.contract.capabilities[ref], v))
    && (Given(task.capabilities, ref) ==> Satisfies(catalog[ref].matcher, task.capabilities[ref], v))
  }

  ghost predicate Demanded(agent: AgentType, task: Requirement, ref: Ref) {
    Given(agent.contract.capabilities, ref) || Given(task.capabilities, ref)
  }

  /** One demanded capability, seen from the checks that looked at it. */
  lemma AnswersIff(agent: AgentType, task: Requirement, source: SpawnSource, config: SourceConfig,
                   evidence: Evidence, catalog: Catalog, ref: Ref)
    requires SourceSound(source, catalog) && ConfigSound(config, source, catalog)
    requires AllMet(source, config, evidence, catalog, agent.contract.capabilities)
    requires MeetsAll(agent.contract, catalog, task.capabilities)
    requires ref in task.capabilities
    ensures RestrictCap(agent, source, config, evidence, catalog, ref, task.capabilities[ref]).Pass? <==>
      (Demanded(agent, task, ref) ==> exists v :: Answers(agent, task, source, config, evidence, catalog, ref, v))
  {
    assert Meets(agent.contract, catalog, ref, task.capabilities[ref]);
    var asked, own := task.capabilities[ref], PresentCap(agent.contract.capabilities, ref);
    if own.Some? {
      assert Met(source, config, evidence, catalog, ref, own.value);
    }
    if !asked.Present() {
      if own.Some? {
        var v :| Supplies(source, config, evidence, catalog, ref, v) && Satisfies(catalog[ref].matcher, own.value, v);
        assert Answers(agent, task, source, config, evidence, catalog, ref, v);
      }
    } else if catalog[ref].polarity.Ability? {
      var v :| Supplies(source, config, evidence, catalog, ref, v) && Satisfies(catalog[ref].matcher, own.value, v);
      SatisfiesTransits(catalog[ref].matcher, asked, own.value, v);
      assert Answers(agent, task, source, config, evidence, catalog, ref, v);
    } else {
      RestrictionIff(agent, task, source, config, evidence, catalog, ref);
    }
  }

  lemma RestrictionIff(agent: AgentType, task: Requirement, source: SpawnSource, config: SourceConfig,
                       evidence: Evidence, catalog: Catalog, ref: Ref)
    requires SourceSound(source, catalog) && ConfigSound(config, source, catalog)
    requires ref in catalog && ref in task.capabilities && task.capabilities[ref].Present()
    requires catalog[ref].polarity.Restriction?
    ensures RestrictCap(agent, source, config, evidence, catalog, ref, task.capabilities[ref]).Pass? <==>
      exists v :: Answers(agent, task, source, config, evidence, catalog, ref, v)
  {
    var kind, asked, own := catalog[ref].matcher, task.capabilities[ref], PresentCap(agent.contract.capabilities, ref);
    if own.Some? {
      JoinExact(kind, own.value, asked);
    }
    if exists v :: Answers(agent, task, source, config, evidence, catalog, ref, v) {
      var v :| Answers(agent, task, source, config, evidence, catalog, ref, v);
      if !catalog[ref].NeedsEvidence() {
        EffectiveSupplied(source, config, evidence, catalog, ref);
        SuppliedOnce(source, config, evidence, catalog, ref, v, EffectiveValue(source, config, ref).value);
      }
    }
    if RestrictCap(agent, source, config, evidence, catalog, ref, asked).Pass? {
      if catalog[ref].NeedsEvidence() {
        assert Answers(agent, task, source, config, evidence, catalog, ref, evidence.capabilities[ref]);
      } else {
        EffectiveSupplied(source, config, evidence, catalog, ref);
        assert Answers(agent, task, source, config, evidence, catalog, ref, EffectiveValue(source, config, ref).value);
      }
    }
  }

  ghost predicate Answered(agent: AgentType, task: Requirement, source: SpawnSource, config: SourceConfig,
                           evidence: Evidence, catalog: Catalog) {
    forall ref | Demanded(agent, task, ref) :: exists v ::
      Answers(agent, task, source, config, evidence, catalog, ref, v)
  }

  ghost predicate Accepts(agent: AgentType, task: Requirement, source: SpawnSource, config: SourceConfig,
                          evidence: Evidence, catalog: Catalog) {
    && Executes(agent, task, catalog)
    && Grounds(agent, source, config, evidence, catalog)
    && Enforces(evidence, task.workspace, task.network, task.isolation, task.sandbox)
    && Offers(Or(config.continuity, source.continuity), task.continuity)
    && Answered(agent, task, source, config, evidence, catalog)
  }

  /** `can_provision_task` accepts exactly when the agent type can execute the task, the
      records are sound and in service, the evidence enforces the safety demands of both,
      and each capability either of them demands is answered by one supplied value. */
  lemma ProvisionTaskIff(agent: AgentType, task: Requirement, source: SpawnSource, config: SourceConfig,
                         evidence: Evidence, catalog: Catalog)
    ensures CanProvisionTask(agent, source, config, evidence, catalog, task).Pass? <==>
      Accepts(agent, task, source, config, evidence, catalog)
  {
    ProvisionIff(agent, source, config, evidence, catalog);
    ExecuteIff(agent, task, catalog);
    if Answered(agent, task, source, config, evidence, catalog) {
      forall ref | ref in agent.contract.capabilities && agent.contract.capabilities[ref].Present()
        ensures Met(source, config, evidence, catalog, ref, agent.contract.capabilities[ref])
      {
        assert Demanded(agent, task, ref);
        var v :| Answers(agent, task, source, config, evidence, catalog, ref, v);
      }
    }
    if CanExecute(agent, task, catalog).Pass? && CanProvision(agent, source, config, evidence, catalog).Pass? {
      TaskCapsIff(agent, task, source, config, evidence, catalog);
    }
  }

  lemma TaskCapsIff(agent: AgentType, task: Requirement, source: SpawnSource, config: SourceConfig,
                    evidence: Evidence, catalog: Catalog)
    requires SourceSound(source, catalog) && ConfigSound(config, source, catalog)
    requires AllMet(source, config, evidence, catalog, agent.contract.capabilities)
    requires MeetsAll(agent.contract, catalog, task.capabilities)
    ensures CheckCaps(task.capabilities,
                      (ref, demanded) => RestrictCap(agent, source, config, evidence, catalog, ref, demanded)).Pass?
      <==> Answered(agent, task, source, config, evidence, catalog)
  {
    forall ref | ref in task.capabilities
      ensures RestrictCap(agent, source, config, evidence, catalog, ref, task.capabilities[ref]).Pass? <==>
        (Demanded(agent, task, ref) ==> exists v :: Answers(agent, task, source, config, evidence, catalog, ref, v))
    {
      AnswersIff(agent, task, source, config, evidence, catalog, ref);
    }
    forall ref | Demanded(agent, task, ref) && ref !in task.capabilities
      ensures exists v :: Answers(agent, task, source, config, evidence, catalog, ref, v)
    {
      assert Met(source, config, evidence, catalog, ref, agent.contract.capabilities[ref]);
      var v :| Supplies(source, config, evidence, catalog, ref, v)
        && Satisfies(catalog[ref].matcher, agent.contract.capabilities[ref], v);
      assert Answers(agent, task, source, config, evidence, catalog, ref, v);
    }
  }
}
