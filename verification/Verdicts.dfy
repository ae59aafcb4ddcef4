/** Canonical records, and the verdicts that do not see the difference. */
module Verdicts {
  import opened Outcomes
  import opened Sorting
  import opened Capability
  import opened Contracts
  import opened Refinement
  import opened Sources
  import opened Provisioning
  import opened Claims
  import opened Names

  // ------------------------------------------------------------ canonical records

  function CanonicalPurposes(list: seq<InformationFunction>): seq<InformationFunction> {
    Dedup(Sort(list, PurposeBefore))
  }

  function CanonicalCaps(caps: Capabilities, catalog: Catalog): Result<Capabilities> {
    var shapes := CheckCaps(caps, (ref, value) => ShapeCheck(catalog, ref, value));
    if shapes.Fail? then Err(shapes.error)
    else Ok(map ref | ref in caps && caps[ref].Present() :: caps[ref])
  }

  function CanonicalAgent(agent: AgentType, catalog: Catalog): Result<AgentType> {
    var valid := Validate(agent.contract, catalog);
    if valid.Fail? then Err(valid.error)
    else
      var caps :- CanonicalCaps(agent.contract.capabilities, catalog);
      Ok(agent.(contract := agent.contract.(purposes := CanonicalPurposes(agent.contract.purposes),
                                            capabilities := caps)))
  }

  function CanonicalSource(source: SpawnSource, catalog: Catalog): Result<SpawnSource> {
    var valid := ValidateSpawnSource(source, catalog);
    if valid.Fail? then Err(valid.error)
    else
      var claims :- CanonicalClaims(source.claims, catalog);
      var envelope :- CanonicalCaps(source.envelope, catalog);
      Ok(source.(claims := claims, envelope := envelope))
  }

  function CanonicalConfig(config: SourceConfig, source: SpawnSource, catalog: Catalog): Result<SourceConfig> {
    var valid := ValidateSourceConfig(config, source, catalog);
    if valid.Fail? then Err(valid.error)
    else
      var claims :- CanonicalClaims(config.claims, catalog);
      Ok(config.(claims := claims, credentials := Dedup(Sort(config.credentials, TextBefore))))
  }

  // ------------------------------------------------------- what a verdict looks at

  ghost predicate SameCaps(a: Capabilities, b: Capabilities) {
    forall ref :: PresentCap(a, ref) == PresentCap(b, ref)
  }

  /** Alike up to the order, repetition and labels of claims and up to written absences. */
  ghost predicate SameSource(a: SpawnSource, b: SpawnSource, catalog: Catalog) {
    && b == a.(claims := b.claims, envelope := b.envelope)
    && Said(a.claims) == Said(b.claims)
    && (ClaimsShaped(a.claims, catalog) <==> ClaimsShaped(b.claims, catalog))
    && SameCaps(a.envelope, b.envelope)
    && (Shaped(a.envelope, catalog) <==> Shaped(b.envelope, catalog))
  }

  ghost predicate SameConfig(a: SourceConfig, b: SourceConfig, catalog: Catalog) {
    && b == a.(claims := b.claims, credentials := b.credentials)
    && Said(a.claims) == Said(b.claims)
    && (ClaimsShaped(a.claims, catalog) <==> ClaimsShaped(b.claims, catalog))
  }

  ghost predicate SameAgent(a: AgentType, b: AgentType, catalog: Catalog) {
    && b == a.(contract := a.contract.(purposes := b.contract.purposes, capabilities := b.contract.capabilities))
    && (forall f :: f in a.contract.purposes <==> f in b.contract.purposes)
    && SameCaps(a.contract.capabilities, b.contract.capabilities)
    && (Shaped(a.contract.capabilities, catalog) <==> Shaped(b.contract.capabilities, catalog))
  }

  lemma InsideAlike(said: Declarations, a: Capabilities, b: Capabilities, catalog: Catalog)
    requires SameCaps(a, b) && forall ref, v | (ref, v) in said :: v.Present()
    ensures Inside(said, a, catalog) ==> Inside(said, b, catalog)
  {
    forall ref, v | (ref, v) in said && ref in a && Within(a[ref], v) ensures ref in b && Within(b[ref], v) {
      assert PresentCap(a, ref) == PresentCap(b, ref);
    }
  }

  lemma SoundAlike(a: SpawnSource, b: SpawnSource, c: SourceConfig, d: SourceConfig, catalog: Catalog)
    requires SameSource(a, b, catalog) && SameConfig(c, d, catalog)
    ensures SourceSound(a, catalog) <==> SourceSound(b, catalog)
    ensures ConfigSound(c, a, catalog) <==> ConfigSound(d, b, catalog)
  {
    InsideAlike(Said(a.claims), a.envelope, b.envelope, catalog);
    InsideAlike(Said(a.claims), b.envelope, a.envelope, catalog);
    InsideAlike(Said(c.claims), a.envelope, b.envelope, catalog);
    InsideAlike(Said(c.claims), b.envelope, a.envelope, catalog);
  }

  lemma SuppliesAlike(a: SpawnSource, b: SpawnSource, c: SourceConfig, d: SourceConfig, evidence: Evidence,
                      catalog: Catalog,
                      ref: Ref, v: CapabilityValue)
    requires SameSource(a, b, catalog) && SameConfig(c, d, catalog)
    ensures Supplies(a, c, evidence, catalog, ref, v) <==> Supplies(b, d, evidence, catalog, ref, v)
  {
    assert PresentCap(a.envelope, ref) == PresentCap(b.envelope, ref);
  }

  lemma MetAlike(a: SpawnSource, b: SpawnSource, c: SourceConfig, d: SourceConfig, evidence: Evidence, catalog: Catalog,
                 ref: Ref, required: CapabilityValue)
    requires SameSource(a, b, catalog) && SameConfig(c, d, catalog)
    ensures Met(a, c, evidence, catalog, ref, required) <==> Met(b, d, evidence, catalog, ref, required)
  {
    forall v ensures Supplies(a, c, evidence, catalog, ref, v) <==> Supplies(b, d, evidence, catalog, ref, v) {
      SuppliesAlike(a, b, c, d, evidence, catalog, ref, v);
    }
  }

  lemma ExecutesAlike(a: AgentType, b: AgentType, task: Requirement, catalog: Catalog)
    requires SameAgent(a, b, catalog)
    ensures CanExecute(a, task, catalog).Pass? <==> CanExecute(b, task, catalog).Pass?
    ensures Executes(a, task, catalog) <==> Executes(b, task, catalog)
  {
    ExecuteIff(a, task, catalog);
    ExecuteIff(b, task, catalog);
    forall ref, v ensures Meets(a.contract, catalog, ref, v) <==> Meets(b.contract, catalog, ref, v) {
      assert PresentCap(a.contract.capabilities, ref) == PresentCap(b.contract.capabilities, ref);
    }
  }

  lemma GroundsAlike(x: AgentType, y: AgentType, a: SpawnSource, b: SpawnSource, c: SourceConfig, d: SourceConfig,
                     evidence: Evidence, catalog: Catalog)
    requires SameAgent(x, y, catalog) && SameSource(a, b, catalog) && SameConfig(c, d, catalog)
    ensures Grounds(x, a, c, evidence, catalog) <==> Grounds(y, b, d, evidence, catalog)
  {
    SoundAlike(a, b, c, d, catalog);
  }

  lemma AllMetAlike(x: Capabilities, y: Capabilities, a: SpawnSource, b: SpawnSource, c: SourceConfig, d: SourceConfig,
                    evidence: Evidence, catalog: Catalog)
    requires SameCaps(x, y) && SameSource(a, b, catalog) && SameConfig(c, d, catalog)
    requires AllMet(a, c, evidence, catalog, x)
    ensures AllMet(b, d, evidence, catalog, y)
  {
    forall ref | ref in y && y[ref].Present() ensures Met(b, d, evidence, catalog, ref, y[ref]) {
      assert PresentCap(x, ref) == PresentCap(y, ref);
      MetAlike(a, b, c, d, evidence, catalog, ref, y[ref]);
    }
  }

  /** `can_provision` does not see the difference. */
  lemma ProvisionsAlike(x: AgentType, y: AgentType, a: SpawnSource, b: SpawnSource, c: SourceConfig, d: SourceConfig,
                        evidence: Evidence, catalog: Catalog)
    requires SameAgent(x, y, catalog) && SameSource(a, b, catalog) && SameConfig(c, d, catalog)
    ensures CanProvision(x, a, c, evidence, catalog).Pass? <==> CanProvision(y, b, d, evidence, catalog).Pass?
  {
    ProvisionIff(x, a, c, evidence, catalog);
    ProvisionIff(y, b, d, evidence, catalog);
    GroundsAlike(x, y, a, b, c, d, evidence, catalog);
    if AllMet(a, c, evidence, catalog, x.contract.capabilities) {
      AllMetAlike(x.contract.capabilities, y.contract.capabilities, a, b, c, d, evidence, catalog);
    }
    if AllMet(b, d, evidence, catalog, y.contract.capabilities) {
      AllMetAlike(y.contract.capabilities, x.contract.capabilities, b, a, d, c, evidence, catalog);
    }
  }

  lemma AnsweredAlike(x: AgentType, y: AgentType, task: Requirement, a: SpawnSource, b: SpawnSource, c: SourceConfig,
                      d: SourceConfig,
                      evidence: Evidence, catalog: Catalog)
    requires SameAgent(x, y, catalog) && SameSource(a, b, catalog) && SameConfig(c, d, catalog)
    requires Answered(x, task, a, c, evidence, catalog)
    ensures Answered(y, task, b, d, evidence, catalog)
  {
    forall ref | Demanded(y, task, ref) ensures exists v :: Answers(y, task, b, d, evidence, catalog, ref, v) {
      assert PresentCap(x.contract.capabilities, ref) == PresentCap(y.contract.capabilities, ref);
      assert Demanded(x, task, ref);
      var v :| Answers(x, task, a, c, evidence, catalog, ref, v);
      SuppliesAlike(a, b, c, d, evidence, catalog, ref, v);
      assert Answers(y, task, b, d, evidence, catalog, ref, v);
    }
  }

  lemma OffersAlike(a: SpawnSource, b: SpawnSource, c: SourceConfig, d: SourceConfig, catalog: Catalog,
                    demand: ContinuityMode)
    requires SameSource(a, b, catalog) && SameConfig(c, d, catalog)
    ensures Offers(Or(c.continuity, a.continuity), demand) <==> Offers(Or(d.continuity, b.continuity), demand)
  {
  }

  lemma AcceptsAlike(x: AgentType, y: AgentType, task: Requirement, a: SpawnSource, b: SpawnSource,
                     c: SourceConfig, d: SourceConfig, evidence: Evidence, catalog: Catalog)
    requires SameAgent(x, y, catalog) && SameSource(a, b, catalog) && SameConfig(c, d, catalog)
    requires Accepts(x, task, a, c, evidence, catalog)
    ensures Accepts(y, task, b, d, evidence, catalog)
  {
    ExecutesAlike(x, y, task, catalog);
    GroundsAlike(x, y, a, b, c, d, evidence, catalog);
    OffersAlike(a, b, c, d, catalog, task.continuity);
    AnsweredAlike(x, y, task, a, b, c, d, evidence, catalog);
  }

  lemma AlikeBack(x: AgentType, y: AgentType, a: SpawnSource, b: SpawnSource, c: SourceConfig, d: SourceConfig,
                  catalog: Catalog)
    requires SameAgent(x, y, catalog) && SameSource(a, b, catalog) && SameConfig(c, d, catalog)
    ensures SameAgent(y, x, catalog) && SameSource(b, a, catalog) && SameConfig(d, c, catalog)
  {
  }

  /** Neither does `can_provision_task`. */
  lemma ProvisionsTaskAlike(x: AgentType, y: AgentType, task: Requirement, a: SpawnSource, b: SpawnSource,
                            c: SourceConfig, d: SourceConfig, evidence: Evidence, catalog: Catalog)
    requires SameAgent(x, y, catalog) && SameSource(a, b, catalog) && SameConfig(c, d, catalog)
    ensures CanProvisionTask(x, a, c, evidence, catalog, task).Pass? <==>
      CanProvisionTask(y, b, d, evidence, catalog, task).Pass?
  {
    ProvisionTaskIff(x, task, a, c, evidence, catalog);
    ProvisionTaskIff(y, task, b, d, evidence, catalog);
    AlikeBack(x, y, a, b, c, d, catalog);
    if Accepts(x, task, a, c, evidence, catalog) {
      AcceptsAlike(x, y, task, a, b, c, d, evidence, catalog);
    }
    if Accepts(y, task, b, d, evidence, catalog) {
      AcceptsAlike(y, x, task, b, a, d, c, evidence, catalog);
    }
  }

  // --------------------------------------------------------------- main results

  lemma CapsKept(caps: Capabilities, catalog: Catalog)
    requires CanonicalCaps(caps, catalog).Ok?
    ensures SameCaps(caps, CanonicalCaps(caps, catalog).value)
    ensures Shaped(caps, catalog) && Shaped(CanonicalCaps(caps, catalog).value, catalog)
  {
    forall ref | ref in caps ensures ref in catalog && catalog[ref].matcher == caps[ref].Kind() {
      assert ShapeCheck(catalog, ref, caps[ref]).Pass?;
    }
  }

  lemma PurposesKept(list: seq<InformationFunction>)
    ensures forall f :: f in CanonicalPurposes(list) <==> f in list
  {
    SortMembers(list, PurposeBefore);
    DedupMembers(Sort(list, PurposeBefore));
  }

  /** Canonicalizing every record changes neither verdict. */
  lemma CanonicalVerdict(agent: AgentType, task: Requirement, source: SpawnSource, config: SourceConfig,
                         evidence: Evidence, catalog: Catalog)
    requires CanonicalAgent(agent, catalog).Ok?
    requires CanonicalSource(source, catalog).Ok?
    requires CanonicalConfig(config, source, catalog).Ok?
    ensures var x, a, c := CanonicalAgent(agent, catalog).value, CanonicalSource(source, catalog).value,
      CanonicalConfig(config, source, catalog).value;
      && (CanExecute(x, task, catalog).Pass? <==> CanExecute(agent, task, catalog).Pass?)
      && (CanProvision(x, a, c, evidence, catalog).Pass? <==>
        CanProvision(agent, source, config, evidence, catalog).Pass?)
      && (CanProvisionTask(x, a, c, evidence, catalog, task).Pass? <==>
        CanProvisionTask(agent, source, config, evidence, catalog, task).Pass?)
  {
    var x, a, c := CanonicalAgent(agent, catalog).value, CanonicalSource(source, catalog).value,
      CanonicalConfig(config, source, catalog).value;
    AgentKept(agent, catalog);
    SourceKept(source, catalog);
    ConfigKept(config, source, catalog);
    ExecutesAlike(agent, x, task, catalog);
    ProvisionsAlike(agent, x, source, a, config, c, evidence, catalog);
    ProvisionsTaskAlike(agent, x, task, source, a, config, c, evidence, catalog);
  }

  lemma AgentKept(agent: AgentType, catalog: Catalog)
    requires CanonicalAgent(agent, catalog).Ok?
    ensures SameAgent(agent, CanonicalAgent(agent, catalog).value, catalog)
  {
    CapsKept(agent.contract.capabilities, catalog);
    PurposesKept(agent.contract.purposes);
  }

  lemma SourceKept(source: SpawnSource, catalog: Catalog)
    requires CanonicalSource(source, catalog).Ok?
    ensures SameSource(source, CanonicalSource(source, catalog).value, catalog)
  {
    CapsKept(source.envelope, catalog);
    CanonicalSays(source.claims, catalog);
  }

  lemma ConfigKept(config: SourceConfig, source: SpawnSource, catalog: Catalog)
    requires CanonicalConfig(config, source, catalog).Ok?
    ensures SameConfig(config, CanonicalConfig(config, source, catalog).value, catalog)
  {
    CanonicalSays(config.claims, catalog);
  }

  /** The same, when only the claim lists are canonicalized. */
  lemma ClaimsVerdict(agent: AgentType, task: Requirement, source: SpawnSource, config: SourceConfig,
                      evidence: Evidence, catalog: Catalog)
    requires CanonicalClaims(source.claims, catalog).Ok? && CanonicalClaims(config.claims, catalog).Ok?
    ensures var a := source.(claims := CanonicalClaims(source.claims, catalog).value);
      var c := config.(claims := CanonicalClaims(config.claims, catalog).value);
      && (CanProvision(agent, a, c, evidence, catalog).Pass? <==>
        CanProvision(agent, source, config, evidence, catalog).Pass?)
      && (CanProvisionTask(agent, a, c, evidence, catalog, task).Pass? <==>
        CanProvisionTask(agent, source, config, evidence, catalog, task).Pass?)
  {
    var a := source.(claims := CanonicalClaims(source.claims, catalog).value);
    var c := config.(claims := CanonicalClaims(config.claims, catalog).value);
    CanonicalSays(source.claims, catalog);
    CanonicalSays(config.claims, catalog);
    ProvisionsAlike(agent, agent, source, a, config, c, evidence, catalog);
    ProvisionsTaskAlike(agent, agent, task, source, a, config, c, evidence, catalog);
  }

  /** The same references and values, in the same places, under any labels. */
  ghost predicate Relabelled(a: seq<Claim>, b: seq<Claim>) {
    |a| == |b| && forall i | 0 <= i < |a| :: a[i].ref == b[i].ref && a[i].value == b[i].value
  }

  lemma RelabelledSays(a: seq<Claim>, b: seq<Claim>, catalog: Catalog)
    requires Relabelled(a, b)
    ensures Said(a) == Said(b)
    ensures ClaimsShaped(a, catalog) <==> ClaimsShaped(b, catalog)
  {
    RelabelledPart(a, b);
    RelabelledPart(b, a);
  }

  lemma RelabelledPart(a: seq<Claim>, b: seq<Claim>)
    requires Relabelled(a, b)
    ensures Said(a) <= Said(b)
  {
    forall ref, v | (ref, v) in Said(a) ensures (ref, v) in Said(b) {
      SaidBy(a, ref, v);
      var c :| c in a && Declares(c, ref) && c.value == v;
      var i :| 0 <= i < |a| && a[i] == c;
      assert b[i] in b;
    }
  }

  /** Assurance labels and provenance never decide a provisioning. */
  lemma LabelsIrrelevant(agent: AgentType, task: Requirement, source: SpawnSource, config: SourceConfig,
                         evidence: Evidence, catalog: Catalog,
                         sourceClaims: seq<Claim>, configClaims: seq<Claim>)
    requires Relabelled(source.claims, sourceClaims) && Relabelled(config.claims, configClaims)
    ensures var a, c := source.(claims := sourceClaims), config.(claims := configClaims);
      && (CanProvision(agent, a, c, evidence, catalog).Pass? <==>
        CanProvision(agent, source, config, evidence, catalog).Pass?)
      && (CanProvisionTask(agent, a, c, evidence, catalog, task).Pass? <==>
        CanProvisionTask(agent, source, config, evidence, catalog, task).Pass?)
  {
    var a, c := source.(claims := sourceClaims), config.(claims := configClaims);
    RelabelledSays(source.claims, sourceClaims, catalog);
    RelabelledSays(config.claims, configClaims, catalog);
    ProvisionsAlike(agent, agent, source, a, config, c, evidence, catalog);
    ProvisionsTaskAlike(agent, agent, task, source, a, config, c, evidence, catalog);
  }
}
