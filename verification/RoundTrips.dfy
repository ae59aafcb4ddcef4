/** Every valid record is read back from its document, and no two share one. */
module RoundTrips {
  import opened Options
  import opened Outcomes
  import opened Sorting
  import opened Json
  import C = Capability
  import opened Contracts
  import opened Sources
  import opened Names
  import P = Policies
  import M = Matching
  import opened Documents
  import opened Decoding

  ghost predicate Has(o: Fields, name: string, v: Value) {
    name in o && o[name] == v
  }

  // ----------------------------------------------------------------------- lists

  lemma {:induction false} ReadBack<T>(items: seq<Value>, list: seq<T>, read: Value -> Result<T>)
    requires |items| == |list| && forall i | 0 <= i < |list| :: read(items[i]) == Ok(list[i])
    ensures ReadAll(items, read) == Ok(list)
  {
    if items != [] {
      var n := |items| - 1;
      ReadBack(items[..n], list[..n], read);
      assert list == list[..n] + [list[n]];
    }
  }

  lemma ListBack<T(!new)>(list: seq<T>, show: T -> Value, read: Value -> Result<T>)
    requires forall x | x in list :: read(show(x)) == Ok(x)
    ensures ListOf(ListDoc(list, show), read) == Ok(list)
  {
    ReadBack(ListDoc(list, show).items, list, read);
  }

  lemma SetBack<T(!new)>(elements: set<T>, list: seq<T>, show: T -> Value, read: Value -> Result<T>)
    requires forall x :: x in list <==> x in elements
    requires forall x | x in list :: read(show(x)) == Ok(x)
    ensures SetOf(ListDoc(list, show), read) == Ok(elements)
  {
    ListBack(list, show, read);
    assert (set x | x in list) == elements;
  }

  lemma TextsBack(texts: set<string>)
    ensures TextSetOf(TextSetDoc(texts)) == Ok(texts)
  {
    TextTotal();
    SetBack(texts, Listing(texts, TextBefore), t => Text(t), TextOf);
  }

  lemma LifecycleBack(modes: set<LifecycleMode>)
    ensures LifecycleSetOf(LifecycleDoc(modes)) == Ok(modes)
  {
    ModeOrders();
    SetBack(modes, Listing(modes, LifecycleBefore), m => Text(LifecycleText(m)), ReadLifecycle);
  }

  lemma ContinuityBack(modes: set<ContinuityMode>)
    ensures ContinuitySetOf(ContinuityDoc(modes)) == Ok(modes)
  {
    ModeOrders();
    SetBack(modes, Listing(modes, ContinuityBefore), m => Text(ContinuityText(m)), ReadContinuity);
  }

  lemma NetworksBack(policies: set<NetworkPolicy>)
    ensures SetOf(NetworkDoc(policies), ReadNetwork) == Ok(policies)
  {
    ModeOrders();
    SetBack(policies, Listing(policies, NetworkBefore), p => Text(NetworkText(p)), ReadNetwork);
  }

  lemma PurposesBack(list: seq<InformationFunction>)
    ensures ListOf(PurposesDoc(list), ReadPurpose) == Ok(list)
  {
    ListBack(list, f => Text(PurposeText(f)), ReadPurpose);
  }

  lemma WorkspacesBack(list: seq<WorkspaceMode>)
    ensures ListOf(ListDoc(list, m => Text(WorkspaceText(m))), ReadWorkspace) == Ok(list)
  {
    ListBack(list, m => Text(WorkspaceText(m)), ReadWorkspace);
  }

  // ------------------------------------------------------------------ references

  lemma RefBack(o: Fields, idName: string, revisionName: string, ref: Ref)
    requires ValidRef(ref) && Has(o, idName, Text(ref.id)) && Has(o, revisionName, Integer(ref.revision))
    ensures RefFrom(o, idName, revisionName) == Ok(ref)
  {
  }

  lemma RefDocBack(o: Fields, name: string, idName: string, ref: Ref)
    requires ValidRef(ref) && idName != "revision" && Has(o, name, RefDoc(idName, ref))
    ensures RefAt(o, name, idName) == Ok(ref)
  {
    RefBack(RefDoc(idName, ref).fields, idName, "revision", ref);
  }

  lemma PinBack(o: Fields, name: string, idName: string, pin: Option<Ref>)
    requires ValidPin(pin) && idName != "revision" && Has(o, name, PinDoc(pin, idName))
    ensures PinAt(o, name, idName) == Ok(pin)
  {
    if pin.Some? {
      RefBack(RefDoc(idName, pin.value).fields, idName, "revision", pin.value);
    }
  }

  lemma ConfigRefFieldsBack(o: Fields, ref: ConfigRef)
    requires ValidConfigRef(ref)
    requires Has(o, "source_id", Text(ref.source.id)) && Has(o, "source_revision", Integer(ref.source.revision))
    requires Has(o, "config_id", Text(ref.id)) && Has(o, "revision", Integer(ref.revision))
    ensures ConfigRefFrom(o) == Ok(ref)
  {
    RefBack(o, "source_id", "source_revision", ref.source);
    RefBack(o, "config_id", "revision", Ref(ref.id, ref.revision));
  }

  lemma ConfigRefBack(o: Fields, name: string, ref: ConfigRef)
    requires ValidConfigRef(ref) && Has(o, name, ConfigRefDoc(ref))
    ensures ConfigRefAt(o, name) == Ok(ref)
  {
    ConfigRefFieldsBack(ConfigRefDoc(ref).fields, ref);
  }

  // ---------------------------------------------------------------- capabilities

  lemma ValueBack(value: C.CapabilityValue)
    requires ValidValue(value)
    ensures ValueOf(ValueDoc(value)) == Ok(value)
  {
    match value
    case Bool(on) =>
      assert Has(ValueDoc(value).fields, "kind", Text("BOOL")) && Has(ValueDoc(value).fields, "value", Value.Bool(on));
    case Set(items) =>
      assert Has(ValueDoc(value).fields, "kind", Text("SET"))
        && Has(ValueDoc(value).fields, "value", TextSetDoc(items));
      TextsBack(items);
    case Ordered(grade, rank) =>
      var o := ValueDoc(value).fields;
      assert Has(o, "kind", Text("ORDERED")) && Has(o, "class", Text(grade)) && Has(o, "rank", Integer(rank));
    case Quantity(amount) =>
      assert Has(ValueDoc(value).fields, "kind", Text("QUANTITY"))
        && Has(ValueDoc(value).fields, "value", Number(amount));
    case Exact(v) =>
      assert Has(ValueDoc(value).fields, "kind", Text("EXACT")) && Has(ValueDoc(value).fields, "value", v);
  }

  lemma CapBack(ref: Ref, value: C.CapabilityValue)
    requires ValidRef(ref) && ValidValue(value)
    ensures CapOf(CapDoc(ref, value)) == Ok((ref, value))
  {
    var o := CapDoc(ref, value).fields;
    assert Has(o, "capability_id", Text(ref.id)) && Has(o, "revision", Integer(ref.revision))
      && Has(o, "value", ValueDoc(value));
    RefBack(o, "capability_id", "revision", ref);
    ValueBack(value);
  }

  ghost predicate Distinct<K>(keys: seq<K>) {
    forall i, j | 0 <= i < j < |keys| :: keys[i] != keys[j]
  }

  ghost function Part<K, V>(entries: map<K, V>, keys: seq<K>): map<K, V> {
    map k | k in keys && k in entries :: entries[k]
  }

  lemma {:induction false} EntriesBack<K(!new), V(!new)>(items: seq<Value>, keys: seq<K>, entries: map<K, V>,
                                                         read: Value -> Result<(K, V)>)
    requires |items| == |keys| && Distinct(keys)
    requires forall i | 0 <= i < |keys| :: keys[i] in entries && read(items[i]) == Ok((keys[i], entries[keys[i]]))
    ensures ReadMap(items, read) == Ok(Part(entries, keys))
  {
    if items == [] {
      assert Part(entries, keys) == map[];
    } else {
      var n := |items| - 1;
      EntriesBack(items[..n], keys[..n], entries, read);
      assert keys == keys[..n] + [keys[n]] && keys[n] !in keys[..n];
      assert Part(entries, keys) == Part(entries, keys[..n])[keys[n] := entries[keys[n]]];
    }
  }

  lemma RefsDistinct(caps: C.Capabilities)
    ensures Distinct(Refs(caps)) && Part(caps, Refs(caps)) == caps
  {
    RefTotal();
    assert forall ref :: ref in Refs(caps) <==> ref in caps;
  }

  lemma CapsBack(o: Fields, name: string, caps: C.Capabilities)
    requires ValidCaps(caps) && Has(o, name, CapsDoc(caps))
    ensures CapsAt(o, name) == Ok(caps)
  {
    var refs, items := Refs(caps), CapsDoc(caps).items;
    forall i | 0 <= i < |refs| ensures refs[i] in caps && CapOf(items[i]) == Ok((refs[i], caps[refs[i]])) {
      assert refs[i] in refs;
      CapBack(refs[i], caps[refs[i]]);
    }
    RefsDistinct(caps);
    EntriesBack(items, refs, caps, CapOf);
  }

  lemma ClaimBack(c: Claim)
    requires ValidClaim(c)
    ensures ClaimOf(ClaimDoc(c)) == Ok(c)
  {
    var o := ClaimDoc(c).fields;
    assert Has(o, "capability_id", Text(c.ref.id)) && Has(o, "revision", Integer(c.ref.revision))
      && Has(o, "value", ValueDoc(c.value));
    assert Has(o, "assurance", Text(AssuranceText(c.assurance)));
    assert Has(o, "declaration_provenance_ref", OptionalDoc(c.provenance, TextDoc));
    RefBack(o, "capability_id", "revision", c.ref);
    ValueBack(c.value);
  }

  lemma ClaimsBack(o: Fields, name: string, claims: seq<Claim>)
    requires ValidClaims(claims) && Has(o, name, ListDoc(claims, ClaimDoc))
    ensures ClaimsAt(o, name) == Ok(claims)
  {
    forall c | c in claims ensures ClaimOf(ClaimDoc(c)) == Ok(c) {
      ClaimBack(c);
    }
    ListBack(claims, ClaimDoc, ClaimOf);
  }

  // ------------------------------------------------------------------ sub-records

  lemma AffinityBack(o: Fields, name: string, affinity: Affinity)
    requires Has(o, name, AffinityDoc(affinity))
    ensures AffinityAt(o, name) == Ok(affinity)
  {
    match affinity
    case Any =>
      assert Has(AffinityDoc(affinity).fields, "kind", Text("ANY"));
    case Only(tags) =>
      assert Has(AffinityDoc(affinity).fields, "kind", Text("ONLY"))
        && Has(AffinityDoc(affinity).fields, "tags", TextSetDoc(tags));
      TextsBack(tags);
  }

  lemma SecurityBack(o: Fields, name: string, s: Security)
    requires Has(o, name, SecurityDoc(s))
    ensures SecurityAt(o, name) == Ok(s)
  {
    var f := SecurityDoc(s).fields;
    assert Has(f, "workspace", Text(WorkspaceText(s.workspace))) && Has(f, "network", Text(NetworkText(s.network)));
    assert Has(f, "requires_attempt_isolation", Value.Bool(s.isolation));
  }

  lemma SafetyBack(o: Fields, name: string, s: PhysicalSafety)
    requires ValidSafety(s) && Has(o, name, SafetyDoc(s))
    ensures SafetyAt(o, name) == Ok(s)
  {
    var f := SafetyDoc(s).fields;
    assert Has(f, "attempt_isolation", Value.Bool(s.isolation)) && Has(f, "network_modes", NetworkDoc(s.networks));
    assert Has(f, "workspace_modes", ListDoc(s.workspaces, m => Text(WorkspaceText(m))));
    WorkspacesBack(s.workspaces);
    NetworksBack(s.networks);
  }

  // ------------------------------------------ what each document holds, field by field

  lemma ContractHas1(c: Contract, o: Fields)
    requires o == ContractFields(c)
    ensures Has(o, "allowed_information_functions", PurposesDoc(c.purposes))
    ensures Has(o, "required_capabilities", CapsDoc(c.capabilities))
    ensures Has(o, "affinity", AffinityDoc(c.affinity))
    ensures Has(o, "budget_ceiling", Number(c.budget))
    ensures Has(o, "security", SecurityDoc(c.security))
  {
  }

  lemma ContractHas2(c: Contract, o: Fields)
    requires o == ContractFields(c)
    ensures Has(o, "lifecycle", LifecycleDoc(c.lifecycle))
    ensures Has(o, "continuity", Text(ContinuityText(c.continuity)))
    ensures Has(o, "sandbox_policy", PinDoc(c.sandbox, "sandbox_policy_id"))
    ensures Has(o, "anchor_constraint", OptionalDoc(c.anchor, TextDoc))
  {
  }

  lemma RequirementHas1(r: Requirement, o: Fields)
    requires o == RequirementFields(r)
    ensures Has(o, "information_function", Text(PurposeText(r.purpose)))
    ensures Has(o, "required_capabilities", CapsDoc(r.capabilities))
    ensures Has(o, "required_affinity", TextSetDoc(r.affinity))
    ensures Has(o, "required_workspace", Text(WorkspaceText(r.workspace)))
    ensures Has(o, "required_network", Text(NetworkText(r.network)))
  {
  }

  lemma RequirementHas2(r: Requirement, o: Fields)
    requires o == RequirementFields(r)
    ensures Has(o, "required_attempt_isolation", Value.Bool(r.isolation))
    ensures Has(o, "required_continuity", Text(ContinuityText(r.continuity)))
    ensures Has(o, "sandbox_policy", PinDoc(r.sandbox, "sandbox_policy_id"))
    ensures Has(o, "required_anchor", OptionalDoc(r.anchor, TextDoc))
    ensures Has(o, "budget", Number(r.budget))
  {
  }

  lemma PolicyHas1(p: P.GenerationPolicy, o: Fields)
    requires o == PolicyFields(p)
    ensures Has(o, "allowed_information_functions", PurposesDoc(p.purposes))
    ensures Has(o, "max_workspace", Text(WorkspaceText(p.maxWorkspace)))
    ensures Has(o, "max_network", Text(NetworkText(p.maxNetwork)))
    ensures Has(o, "requires_attempt_isolation", Value.Bool(p.isolation))
    ensures Has(o, "min_continuity", Text(ContinuityText(p.minContinuity)))
  {
  }

  lemma PolicyHas2(p: P.GenerationPolicy, o: Fields)
    requires o == PolicyFields(p)
    ensures Has(o, "sandbox_policy", PinDoc(p.sandbox, "sandbox_policy_id"))
    ensures Has(o, "budget_ceiling", Number(p.budget))
    ensures Has(o, "allowed_affinity", OptionalDoc(p.affinity, TextSetDoc))
    ensures Has(o, "anchor_constraint", OptionalDoc(p.anchor, TextDoc))
  {
  }

  lemma AgentTypeHas(agent: AgentType, o: Fields)
    requires o == AgentTypeFields(agent)
    ensures Has(o, "canonical", Text(FORMAT))
    ensures Has(o, "kind", Text("AGENT_TYPE"))
    ensures Has(o, "type_id", Text(agent.ref.id))
    ensures Has(o, "revision", Integer(agent.ref.revision))
    ensures Has(o, "based_on", PinDoc(agent.basedOn, "type_id"))
    ensures Has(o, "contract", Object(ContractFields(agent.contract)))
  {
  }

  lemma SourceHas1(source: SpawnSource, o: Fields)
    requires o == SourceFields(source)
    ensures Has(o, "canonical", Text(FORMAT))
    ensures Has(o, "kind", Text("SPAWN_SOURCE"))
    ensures Has(o, "source_id", Text(source.ref.id))
    ensures Has(o, "revision", Integer(source.ref.revision))
    ensures Has(o, "adapter_policy", RefDoc("adapter_policy_id", source.adapterPolicy))
  {
  }

  lemma SourceHas2(source: SpawnSource, o: Fields)
    requires o == SourceFields(source)
    ensures Has(o, "lifecycle_modes", LifecycleDoc(source.lifecycle))
    ensures Has(o, "continuity_modes", ContinuityDoc(source.continuity))
    ensures Has(o, "functional_envelope", CapsDoc(source.envelope))
    ensures Has(o, "claims", ListDoc(source.claims, ClaimDoc))
  {
  }

  lemma ConfigHas1(config: SourceConfig, locator: Option<string>, o: Fields)
    requires o == ConfigFields(config, locator)
    ensures Has(o, "canonical", Text(FORMAT))
    ensures Has(o, "kind", Text("SOURCE_CONFIG"))
    ensures Has(o, "source_id", Text(config.ref.source.id))
    ensures Has(o, "source_revision", Integer(config.ref.source.revision))
    ensures Has(o, "config_id", Text(config.ref.id))
    ensures Has(o, "revision", Integer(config.ref.revision))
  {
  }

  lemma ConfigHas2(config: SourceConfig, locator: Option<string>, o: Fields)
    requires o == ConfigFields(config, locator)
    ensures Has(o, "config_digest", Text(config.digest))
    ensures Has(o, "config_locator", OptionalDoc(locator, TextDoc))
    ensures Has(o, "lifecycle_modes", OptionalDoc(config.lifecycle, LifecycleDoc))
    ensures Has(o, "continuity_modes", OptionalDoc(config.continuity, ContinuityDoc))
    ensures Has(o, "credential_refs", ListDoc(config.credentials, TextDoc))
    ensures Has(o, "claims", ListDoc(config.claims, ClaimDoc))
  {
  }

  lemma AdapterPolicyHas(policy: AdapterPolicy, o: Fields)
    requires o == AdapterPolicyFields(policy)
    ensures Has(o, "canonical", Text(FORMAT))
    ensures Has(o, "kind", Text("ADAPTER_BINDING_POLICY"))
    ensures Has(o, "adapter_policy_id", Text(policy.ref.id))
    ensures Has(o, "revision", Integer(policy.ref.revision))
    ensures Has(o, "adapter_kind", Text(policy.kind))
    ensures Has(o, "binding_ref", Text(policy.bindingRef))
    ensures Has(o, "required_safety", SafetyDoc(policy.safety))
  {
  }

  lemma DefinitionHas(ref: Ref, d: C.Definition, o: Fields)
    requires o == DefinitionFields(ref, d)
    ensures Has(o, "canonical", Text(FORMAT))
    ensures Has(o, "kind", Text("CAPABILITY_DEFINITION"))
    ensures Has(o, "capability_id", Text(ref.id))
    ensures Has(o, "revision", Integer(ref.revision))
    ensures Has(o, "matcher_kind", Text(MatcherText(d.matcher)))
    ensures Has(o, "security_class", Text(ClassText(d.security)))
    ensures Has(o, "polarity", Text(PolarityText(d.polarity)))
  {
  }

  lemma TaskRequirementHas(req: M.TaskAgentRequirement, o: Fields)
    requires o == TaskRequirementFields(req)
    ensures Has(o, "canonical", Text(FORMAT))
    ensures Has(o, "kind", Text("TASK_AGENT_REQUIREMENT"))
    ensures Has(o, "required_type", RefDoc("type_id", req.requiredType))
    ensures Has(o, "hard", Object(RequirementFields(req.hard)))
  {
  }

  lemma GenerationPolicyHas(policy: P.GenerationPolicy, o: Fields)
    requires o == GenerationPolicyFields(policy)
    ensures Has(o, "canonical", Text(FORMAT))
    ensures Has(o, "kind", Text("GENERATION_POLICY"))
    ensures Has(o, "policy", Object(PolicyFields(policy)))
  {
  }

  lemma BindingHas1(b: Binding, o: Fields)
    requires o == BindingFields(b)
    ensures Has(o, "canonical", Text(FORMAT))
    ensures Has(o, "kind", Text("PROVISIONING_BINDING"))
    ensures Has(o, "provisioning_binding_id", Text(b.id))
    ensures Has(o, "logical_agent_id", Text(b.agent))
    ensures Has(o, "incarnation_id", Text(b.incarnation))
  {
  }

  lemma BindingHas2(b: Binding, o: Fields)
    requires o == BindingFields(b)
    ensures Has(o, "agent_type", RefDoc("type_id", b.agentType))
    ensures Has(o, "spawn_source", RefDoc("source_id", b.source))
    ensures Has(o, "source_config", ConfigRefDoc(b.config))
    ensures Has(o, "adapter_policy", RefDoc("adapter_policy_id", b.policy))
    ensures Has(o, "adapter_kind", Text(b.adapterKind))
  {
  }

  lemma BindingHas3(b: Binding, o: Fields)
    requires o == BindingFields(b)
    ensures Has(o, "adapter_binding_key", Text(b.adapterKey))
    ensures Has(o, "attested_materialization_digest", Text(b.digest))
    ensures Has(o, "provisioning_protocol", Text(b.protocol))
    ensures Has(o, "effective_security", SafetyDoc(b.safety))
  {
  }

  lemma SnapshotHas1(s: Snapshot, o: Fields)
    requires o == SnapshotFields(s)
    ensures Has(o, "canonical", Text(FORMAT))
    ensures Has(o, "kind", Text("BINDING_SNAPSHOT"))
    ensures Has(o, "snapshot_id", Text(s.id))
  {
  }

  lemma SnapshotHas2(s: Snapshot, o: Fields)
    requires o == SnapshotFields(s)
    ensures Has(o, "execution_id", Text(s.execution))
    ensures Has(o, "provisioning_binding_id", Text(s.binding))
    ensures Has(o, "adapter_kind", Text(s.adapterKind))
  {
  }

  lemma SnapshotHas3(s: Snapshot, o: Fields)
    requires o == SnapshotFields(s)
    ensures Has(o, "adapter_binding_key", Text(s.adapterKey))
    ensures Has(o, "spawn_source", RefDoc("source_id", s.source))
    ensures Has(o, "source_config", ConfigRefDoc(s.config))
    ensures Has(o, "source_config_digest", Text(s.configDigest))
    ensures Has(o, "attested_materialization_digest", Text(s.digest))
    ensures Has(o, "launch_descriptor", Text(s.descriptor))
  {
  }

  lemma SnapshotHas4(s: Snapshot, o: Fields)
    requires o == SnapshotFields(s)
    ensures Has(o, "execution_target", Text(s.target))
    ensures Has(o, "execution_profile", Text(s.profile))
    ensures Has(o, "required_capabilities", CapsDoc(s.capabilities))
    ensures Has(o, "enforceable_security", SafetyDoc(s.safety))
    ensures Has(o, "effective_isolation", Value.Bool(s.isolation))
    ensures Has(o, "effective_workspace", Text(WorkspaceText(s.workspace)))
  {
  }

  lemma SnapshotHas5(s: Snapshot, o: Fields)
    requires o == SnapshotFields(s)
    ensures Has(o, "effective_network", Text(NetworkText(s.network)))
    ensures Has(o, "credential_refs_digest", OptionalDoc(s.credentials, TextDoc))
    ensures Has(o, "resolver_version", Text(s.resolver))
  {
  }

  // ------------------------------------------------------------- reading them back

  lemma ContractBack(c: Contract)
    requires ValidContract(c)
    ensures ContractFrom(ContractFields(c)) == Ok(c)
  {
    var o := ContractFields(c);
    ContractHas1(c, o);
    ContractHas2(c, o);
    PurposesBack(c.purposes);
    CapsBack(o, "required_capabilities", c.capabilities);
    AffinityBack(o, "affinity", c.affinity);
    SecurityBack(o, "security", c.security);
    LifecycleBack(c.lifecycle);
    PinBack(o, "sandbox_policy", "sandbox_policy_id", c.sandbox);
  }

  lemma RequirementBack(r: Requirement)
    requires ValidRequirement(r)
    ensures RequirementFrom(RequirementFields(r)) == Ok(r)
  {
    var o := RequirementFields(r);
    RequirementHas1(r, o);
    RequirementHas2(r, o);
    CapsBack(o, "required_capabilities", r.capabilities);
    TextsBack(r.affinity);
    PinBack(o, "sandbox_policy", "sandbox_policy_id", r.sandbox);
  }

  lemma PolicyBack(p: P.GenerationPolicy)
    requires ValidPolicy(p)
    ensures PolicyFrom(PolicyFields(p)) == Ok(p)
  {
    var o := PolicyFields(p);
    PolicyHas1(p, o);
    PolicyHas2(p, o);
    PurposesBack(p.purposes);
    if p.affinity.Some? {
      TextsBack(p.affinity.value);
    }
    PinBack(o, "sandbox_policy", "sandbox_policy_id", p.sandbox);
  }

  lemma EnvelopeBack(o: Fields, kind: string)
    requires Has(o, "canonical", Text(FORMAT)) && Has(o, "kind", Text(kind))
    ensures Opened(Object(o), kind) == Ok(o)
  {
  }

  lemma AgentTypeRead(o: Fields, agent: AgentType, contract: Fields)
    requires Opened(Object(o), "AGENT_TYPE") == Ok(o) && RefFrom(o, "type_id", "revision") == Ok(agent.ref)
    requires PinAt(o, "based_on", "type_id") == Ok(agent.basedOn)
    requires Has(o, "contract", Object(contract)) && ContractFrom(contract) == Ok(agent.contract)
    ensures AgentTypeOf(Object(o)) == Ok(agent)
  {
  }

  lemma AgentTypeBack(agent: AgentType)
    requires ValidAgentType(agent)
    ensures AgentTypeOf(Object(AgentTypeFields(agent))) == Ok(agent)
  {
    var o := AgentTypeFields(agent);
    AgentTypeHas(agent, o);
    EnvelopeBack(o, "AGENT_TYPE");
    RefBack(o, "type_id", "revision", agent.ref);
    PinBack(o, "based_on", "type_id", agent.basedOn);
    ContractBack(agent.contract);
    AgentTypeRead(o, agent, ContractFields(agent.contract));
  }

  lemma SourceBack(source: SpawnSource)
    requires ValidSource(source)
    ensures SourceOf(Object(SourceFields(source)), source.status) == Ok(source)
  {
    var o := SourceFields(source);
    SourceHas1(source, o);
    SourceHas2(source, o);
    EnvelopeBack(o, "SPAWN_SOURCE");
    RefBack(o, "source_id", "revision", source.ref);
    RefDocBack(o, "adapter_policy", "adapter_policy_id", source.adapterPolicy);
    LifecycleBack(source.lifecycle);
    ContinuityBack(source.continuity);
    CapsBack(o, "functional_envelope", source.envelope);
    ClaimsBack(o, "claims", source.claims);
  }

  lemma CredentialsBack(o: Fields, name: string, credentials: seq<string>)
    requires Has(o, name, ListDoc(credentials, TextDoc))
    requires forall i | 0 <= i < |credentials| :: !Blank(credentials[i])
    ensures CredentialsAt(o, name) == Ok(credentials)
  {
    ListBack(credentials, TextDoc, ReadCredential);
  }

  lemma NullableBack<T>(o: Fields, name: string, value: Option<T>, show: T -> Value, read: Value -> Result<T>)
    requires Has(o, name, OptionalDoc(value, show))
    requires value.Some? ==> show(value.value) != Null && read(show(value.value)) == Ok(value.value)
    ensures NullableAt(o, name, read) == Ok(value)
  {
  }

  lemma ModesBack(o: Fields, lifecycle: Option<set<LifecycleMode>>, continuity: Option<set<ContinuityMode>>)
    requires Has(o, "lifecycle_modes", OptionalDoc(lifecycle, LifecycleDoc))
    requires Has(o, "continuity_modes", OptionalDoc(continuity, ContinuityDoc))
    ensures NullableAt(o, "lifecycle_modes", LifecycleSetOf) == Ok(lifecycle)
    ensures NullableAt(o, "continuity_modes", ContinuitySetOf) == Ok(continuity)
  {
    if lifecycle.Some? {
      LifecycleBack(lifecycle.value);
    }
    NullableBack(o, "lifecycle_modes", lifecycle, LifecycleDoc, LifecycleSetOf);
    if continuity.Some? {
      ContinuityBack(continuity.value);
    }
    NullableBack(o, "continuity_modes", continuity, ContinuityDoc, ContinuitySetOf);
  }

  lemma ConfigRead(o: Fields, config: SourceConfig, locator: Option<string>)
    requires ValidConfig(config) && ValidLocator(locator)
    requires Opened(Object(o), "SOURCE_CONFIG") == Ok(o) && ConfigRefFrom(o) == Ok(config.ref)
    requires CredentialsAt(o, "credential_refs") == Ok(config.credentials)
    requires Has(o, "config_locator", OptionalDoc(locator, TextDoc)) && Has(o, "config_digest", Text(config.digest))
    requires NullableAt(o, "lifecycle_modes", LifecycleSetOf) == Ok(config.lifecycle)
    requires NullableAt(o, "continuity_modes", ContinuitySetOf) == Ok(config.continuity)
    requires ClaimsAt(o, "claims") == Ok(config.claims)
    ensures ConfigOf(Object(o), config.status) == Ok((config, locator))
  {
  }

  lemma ConfigBack(config: SourceConfig, locator: Option<string>)
    requires ValidConfig(config) && ValidLocator(locator)
    ensures ConfigOf(Object(ConfigFields(config, locator)), config.status) == Ok((config, locator))
  {
    var o := ConfigFields(config, locator);
    ConfigHas1(config, locator, o);
    ConfigHas2(config, locator, o);
    EnvelopeBack(o, "SOURCE_CONFIG");
    ConfigRefFieldsBack(o, config.ref);
    CredentialsBack(o, "credential_refs", config.credentials);
    ModesBack(o, config.lifecycle, config.continuity);
    ClaimsBack(o, "claims", config.claims);
    ConfigRead(o, config, locator);
  }

  lemma AdapterPolicyBack(policy: AdapterPolicy)
    requires ValidAdapterPolicy(policy)
    ensures AdapterPolicyOf(Object(AdapterPolicyFields(policy)), policy.status) == Ok(policy)
  {
    var o := AdapterPolicyFields(policy);
    AdapterPolicyHas(policy, o);
    EnvelopeBack(o, "ADAPTER_BINDING_POLICY");
    RefBack(o, "adapter_policy_id", "revision", policy.ref);
    SafetyBack(o, "required_safety", policy.safety);
  }

  lemma DefinitionBack(ref: Ref, d: C.Definition)
    requires ValidRef(ref)
    ensures DefinitionOf(Object(DefinitionFields(ref, d))) == Ok((ref, d))
  {
    var o := DefinitionFields(ref, d);
    DefinitionHas(ref, d, o);
    EnvelopeBack(o, "CAPABILITY_DEFINITION");
    RefBack(o, "capability_id", "revision", ref);
  }

  lemma TaskRequirementBack(req: M.TaskAgentRequirement)
    requires ValidTaskRequirement(req)
    ensures TaskRequirementOf(Object(TaskRequirementFields(req))) == Ok(req)
  {
    var o := TaskRequirementFields(req);
    TaskRequirementHas(req, o);
    EnvelopeBack(o, "TASK_AGENT_REQUIREMENT");
    RefDocBack(o, "required_type", "type_id", req.requiredType);
    RequirementBack(req.hard);
  }

  lemma GenerationPolicyBack(policy: P.GenerationPolicy)
    requires ValidPolicy(policy)
    ensures GenerationPolicyOf(Object(GenerationPolicyFields(policy))) == Ok(policy)
  {
    var o := GenerationPolicyFields(policy);
    GenerationPolicyHas(policy, o);
    EnvelopeBack(o, "GENERATION_POLICY");
    PolicyBack(policy);
  }

  lemma BindingRead(o: Fields, b: Binding)
    requires ValidBinding(b) && Opened(Object(o), "PROVISIONING_BINDING") == Ok(o)
    requires Has(o, "provisioning_binding_id", Text(b.id)) && Has(o, "logical_agent_id", Text(b.agent))
    requires Has(o, "incarnation_id", Text(b.incarnation)) && RefAt(o, "agent_type", "type_id") == Ok(b.agentType)
    requires RefAt(o, "spawn_source", "source_id") == Ok(b.source) && ConfigRefAt(o, "source_config") == Ok(b.config)
    requires RefAt(o, "adapter_policy", "adapter_policy_id") == Ok(b.policy)
      && Has(o, "adapter_kind", Text(b.adapterKind))
    requires Has(o, "adapter_binding_key", Text(b.adapterKey))
      && Has(o, "attested_materialization_digest", Text(b.digest))
    requires Has(o, "provisioning_protocol", Text(b.protocol)) && SafetyAt(o, "effective_security") == Ok(b.safety)
    ensures BindingOf(Object(o)) == Ok(b)
  {
  }

  lemma BindingBack(b: Binding)
    requires ValidBinding(b)
    ensures BindingOf(Object(BindingFields(b))) == Ok(b)
  {
    var o := BindingFields(b);
    BindingHas1(b, o);
    BindingHas2(b, o);
    BindingHas3(b, o);
    EnvelopeBack(o, "PROVISIONING_BINDING");
    RefDocBack(o, "agent_type", "type_id", b.agentType);
    RefDocBack(o, "spawn_source", "source_id", b.source);
    ConfigRefBack(o, "source_config", b.config);
    RefDocBack(o, "adapter_policy", "adapter_policy_id", b.policy);
    SafetyBack(o, "effective_security", b.safety);
    BindingRead(o, b);
  }

  function ChosenIn(s: Snapshot): Chosen {
    Chosen(s.id, s.execution, s.binding, s.adapterKind, s.adapterKey, s.source, s.config, s.configDigest, s.digest)
  }

  lemma ChosenRead(o: Fields, s: Snapshot)
    requires ValidSnapshot(s)
    requires Has(o, "snapshot_id", Text(s.id)) && Has(o, "execution_id", Text(s.execution))
    requires Has(o, "provisioning_binding_id", Text(s.binding)) && Has(o, "adapter_kind", Text(s.adapterKind))
    requires Has(o, "adapter_binding_key", Text(s.adapterKey)) && RefAt(o, "spawn_source", "source_id") == Ok(s.source)
    requires ConfigRefAt(o, "source_config") == Ok(s.config) && Has(o, "source_config_digest", Text(s.configDigest))
    requires Has(o, "attested_materialization_digest", Text(s.digest))
    ensures ChosenFrom(o) == Ok(ChosenIn(s))
  {
  }

  lemma SnapshotRead(o: Fields, s: Snapshot)
    requires ValidSnapshot(s)
    requires Has(o, "launch_descriptor", Text(s.descriptor)) && Has(o, "execution_target", Text(s.target))
    requires Has(o, "execution_profile", Text(s.profile)) && CapsAt(o, "required_capabilities") == Ok(s.capabilities)
    requires SafetyAt(o, "enforceable_security") == Ok(s.safety)
      && Has(o, "effective_isolation", Value.Bool(s.isolation))
    requires Has(o, "effective_workspace", Text(WorkspaceText(s.workspace)))
    requires Has(o, "effective_network", Text(NetworkText(s.network)))
    requires Has(o, "credential_refs_digest", OptionalDoc(s.credentials, TextDoc))
      && Has(o, "resolver_version", Text(s.resolver))
    ensures SnapshotFrom(o, ChosenIn(s)) == Ok(s)
  {
  }

  /** The fields of a snapshot's document. */
  ghost predicate HoldsSnapshot(o: Fields, s: Snapshot) {
    && Has(o, "canonical", Text(FORMAT))
    && Has(o, "kind", Text("BINDING_SNAPSHOT"))
    && Has(o, "snapshot_id", Text(s.id))
    && Has(o, "execution_id", Text(s.execution))
    && Has(o, "provisioning_binding_id", Text(s.binding))
    && Has(o, "adapter_kind", Text(s.adapterKind))
    && Has(o, "adapter_binding_key", Text(s.adapterKey))
    && Has(o, "spawn_source", RefDoc("source_id", s.source))
    && Has(o, "source_config", ConfigRefDoc(s.config))
    && Has(o, "source_config_digest", Text(s.configDigest))
    && Has(o, "attested_materialization_digest", Text(s.digest))
    && Has(o, "launch_descriptor", Text(s.descriptor))
    && Has(o, "execution_target", Text(s.target))
    && Has(o, "execution_profile", Text(s.profile))
    && Has(o, "required_capabilities", CapsDoc(s.capabilities))
    && Has(o, "enforceable_security", SafetyDoc(s.safety))
    && Has(o, "effective_isolation", Value.Bool(s.isolation))
    && Has(o, "effective_workspace", Text(WorkspaceText(s.workspace)))
    && Has(o, "effective_network", Text(NetworkText(s.network)))
    && Has(o, "credential_refs_digest", OptionalDoc(s.credentials, TextDoc))
    && Has(o, "resolver_version", Text(s.resolver))
  }

  lemma SnapshotHolds(s: Snapshot)
    ensures HoldsSnapshot(SnapshotFields(s), s)
  {
    var o := SnapshotFields(s);
    SnapshotHas1(s, o);
    SnapshotHas2(s, o);
    SnapshotHas3(s, o);
    SnapshotHas4(s, o);
    SnapshotHas5(s, o);
  }

  lemma SnapshotParts(o: Fields, s: Snapshot)
    requires ValidChosen(ChosenIn(s)) && Opened(Object(o), "BINDING_SNAPSHOT") == Ok(o)
    requires ChosenFrom(o) == Ok(ChosenIn(s)) && SnapshotFrom(o, ChosenIn(s)) == Ok(s)
    ensures SnapshotOf(Object(o)) == Ok(s)
  {
  }

  lemma HeldChosenBack(o: Fields, s: Snapshot)
    requires ValidSnapshot(s) && HoldsSnapshot(o, s)
    ensures ChosenFrom(o) == Ok(ChosenIn(s))
  {
    RefDocBack(o, "spawn_source", "source_id", s.source);
    ConfigRefBack(o, "source_config", s.config);
    ChosenRead(o, s);
  }

  lemma HeldSnapshotBack(o: Fields, s: Snapshot)
    requires ValidSnapshot(s) && HoldsSnapshot(o, s)
    ensures SnapshotOf(Object(o)) == Ok(s)
  {
    EnvelopeBack(o, "BINDING_SNAPSHOT");
    HeldChosenBack(o, s);
    CapsBack(o, "required_capabilities", s.capabilities);
    SafetyBack(o, "enforceable_security", s.safety);
    SnapshotRead(o, s);
    SnapshotParts(o, s);
  }

  lemma SnapshotBack(s: Snapshot)
    requires ValidSnapshot(s)
    ensures SnapshotOf(Object(SnapshotFields(s))) == Ok(s)
  {
    SnapshotHolds(s);
    HeldSnapshotBack(SnapshotFields(s), s);
  }

  // ---------------------------------------------------------------- main results

  /** The decoder of a record's kind, given the disposition the document leaves out. */
  function Decoded(v: Value, like: Record): Result<Record> {
    match like
    case AgentTypeRecord(_) => Mapped(AgentTypeOf(v), x => AgentTypeRecord(x))
    case SourceRecord(s) => Mapped(SourceOf(v, s.status), x => SourceRecord(x))
    case ConfigRecord(c, _) => Mapped(ConfigOf(v, c.status),
                                      (x: (SourceConfig, Option<string>)) => ConfigRecord(x.0, x.1))
    case AdapterPolicyRecord(p) => Mapped(AdapterPolicyOf(v, p.status), x => AdapterPolicyRecord(x))
    case DefinitionRecord(_, _) => Mapped(DefinitionOf(v), (x: (Ref, C.Definition)) => DefinitionRecord(x.0, x.1))
    case TaskRequirementRecord(_) => Mapped(TaskRequirementOf(v), x => TaskRequirementRecord(x))
    case GenerationPolicyRecord(_) => Mapped(GenerationPolicyOf(v), x => GenerationPolicyRecord(x))
    case BindingRecord(_) => Mapped(BindingOf(v), x => BindingRecord(x))
    case SnapshotRecord(_) => Mapped(SnapshotOf(v), x => SnapshotRecord(x))
  }

  function Mapped<T, U>(r: Result<T>, f: T -> U): Result<U> {
    match r case Ok(x) => Ok(f(x)) case Err(e) => Err(e)
  }

  /** Whatever a decoder accepts is a valid record. */
  lemma DecodedValid(v: Value, like: Record)
    ensures Decoded(v, like).Ok? ==> Valid(Decoded(v, like).value)
  {
  }

  lemma CatalogBack(r: Record)
    requires Valid(r) && (r.AgentTypeRecord? || r.DefinitionRecord?)
    ensures Decoded(Document(r), r) == Ok(r)
  {
    match r
    case AgentTypeRecord(agent) => AgentTypeBack(agent);
    case DefinitionRecord(ref, d) => DefinitionBack(ref, d);
  }

  lemma ProviderBack(r: Record)
    requires Valid(r) && (r.SourceRecord? || r.ConfigRecord?)
    ensures Decoded(Document(r), r) == Ok(r)
  {
    match r
    case SourceRecord(source) => SourceBack(source);
    case ConfigRecord(config, locator) => ConfigBack(config, locator);
  }

  lemma DemandBack(r: Record)
    requires Valid(r) && (r.TaskRequirementRecord? || r.GenerationPolicyRecord?)
    ensures Decoded(Document(r), r) == Ok(r)
  {
    match r
    case TaskRequirementRecord(req) => TaskRequirementBack(req);
    case GenerationPolicyRecord(policy) => GenerationPolicyBack(policy);
  }

  lemma AdapterBack(r: Record)
    requires Valid(r) && (r.AdapterPolicyRecord? || r.BindingRecord?)
    ensures Decoded(Document(r), r) == Ok(r)
  {
    match r
    case AdapterPolicyRecord(policy) => AdapterPolicyBack(policy);
    case BindingRecord(b) => BindingBack(b);
  }

  lemma ValidBack(r: Record)
    requires Valid(r)
    ensures Decoded(Document(r), r) == Ok(r)
  {
    if r.AgentTypeRecord? || r.DefinitionRecord? {
      CatalogBack(r);
    } else if r.SourceRecord? || r.ConfigRecord? {
      ProviderBack(r);
    } else if r.TaskRequirementRecord? || r.GenerationPolicyRecord? {
      DemandBack(r);
    } else if r.AdapterPolicyRecord? || r.BindingRecord? {
      AdapterBack(r);
    } else {
      SnapshotBack(r.snapshot);
    }
  }

  /** A record of any kind comes back from its document exactly when it is valid. */
  lemma RoundTrip(r: Record)
    ensures Decoded(Document(r), r) == Ok(r) <==> Valid(r)
  {
    DecodedValid(Document(r), r);
    if Valid(r) {
      ValidBack(r);
    }
  }

  /** `r` under the disposition of `like`. */
  function Disposed(r: Record, like: Record): Record {
    match (r, like)
    case (SourceRecord(x), SourceRecord(y)) => SourceRecord(x.(status := y.status))
    case (ConfigRecord(x, l), ConfigRecord(y, _)) => ConfigRecord(x.(status := y.status), l)
    case (AdapterPolicyRecord(x), AdapterPolicyRecord(y)) => AdapterPolicyRecord(x.(status := y.status))
    case _ => r
  }

  /** The same content; the disposition is not part of it. */
  predicate SameContent(a: Record, b: Record) {
    a == Disposed(b, a)
  }

  function KindText(r: Record): string {
    match r
    case AgentTypeRecord(_) => "AGENT_TYPE"
    case SourceRecord(_) => "SPAWN_SOURCE"
    case ConfigRecord(_, _) => "SOURCE_CONFIG"
    case AdapterPolicyRecord(_) => "ADAPTER_BINDING_POLICY"
    case DefinitionRecord(_, _) => "CAPABILITY_DEFINITION"
    case TaskRequirementRecord(_) => "TASK_AGENT_REQUIREMENT"
    case GenerationPolicyRecord(_) => "GENERATION_POLICY"
    case BindingRecord(_) => "PROVISIONING_BINDING"
    case SnapshotRecord(_) => "BINDING_SNAPSHOT"
  }

  ghost predicate SameKind(a: Record, b: Record) {
    match a
    case AgentTypeRecord(_) => b.AgentTypeRecord?
    case SourceRecord(_) => b.SourceRecord?
    case ConfigRecord(_, _) => b.ConfigRecord?
    case AdapterPolicyRecord(_) => b.AdapterPolicyRecord?
    case DefinitionRecord(_, _) => b.DefinitionRecord?
    case TaskRequirementRecord(_) => b.TaskRequirementRecord?
    case GenerationPolicyRecord(_) => b.GenerationPolicyRecord?
    case BindingRecord(_) => b.BindingRecord?
    case SnapshotRecord(_) => b.SnapshotRecord?
  }

  lemma KindsDiffer(a: Record, b: Record)
    requires KindText(a) == KindText(b)
    ensures SameKind(a, b)
  {
    assert KindText(a)[0] == KindText(b)[0] && |KindText(a)| == |KindText(b)|;
  }

  /** A decoder opens documents of its own kind only. */
  lemma DecodedKind(v: Value, like: Record)
    requires Decoded(v, like).Ok?
    ensures Opened(v, KindText(like)).Ok?
  {
  }

  lemma OneKind(v: Value, a: string, b: string)
    requires Opened(v, a).Ok? && Opened(v, b).Ok?
    ensures a == b
  {
  }

  lemma DispositionUnseen(r: Record, like: Record)
    ensures Document(Disposed(r, like)) == Document(r)
    ensures Valid(Disposed(r, like)) <==> Valid(r)
  {
  }

  lemma DecodedAlike(v: Value, a: Record, b: Record)
    requires SameKind(a, b)
    ensures Decoded(v, Disposed(b, a)) == Decoded(v, a)
  {
  }

  /** Two valid records share a document exactly when they have the same content. */
  lemma DocumentsDiffer(a: Record, b: Record)
    requires Valid(a) && Valid(b)
    ensures Document(a) == Document(b) <==> SameContent(a, b)
  {
    var c := Disposed(b, a);
    DispositionUnseen(b, a);
    if Document(a) == Document(b) {
      ValidBack(a);
      ValidBack(b);
      DecodedKind(Document(a), a);
      DecodedKind(Document(b), b);
      OneKind(Document(a), KindText(a), KindText(b));
      KindsDiffer(a, b);
      ValidBack(c);
      DecodedAlike(Document(a), a, b);
    }
  }

  /** However their fields were handed out, two valid records have one canonical document
      exactly when they have the same content. */
  lemma CanonicalDocuments(a: Record, b: Record, w: Written, v: Written)
    requires Valid(a) && Valid(b)
    requires Proper(w) && Meaning(w) == Document(a)
    requires Proper(v) && Meaning(v) == Document(b)
    ensures Canonical(w) == Canonical(v) <==> SameContent(a, b)
  {
    CanonicalExactly(w, v);
    DocumentsDiffer(a, b);
  }

  /** What is stored is the canonical form, and it is read back from there. */
  lemma StoredBack(r: Record, w: Written)
    requires Valid(r) && Proper(w) && Meaning(w) == Document(r)
    ensures Proper(Canonical(w)) && Decoded(Meaning(Canonical(w)), r) == Ok(r)
  {
    CanonicalKeeps(w);
    ValidBack(r);
  }

  /** Every valid record has such a form. */
  lemma Stored(r: Record)
    requires Valid(r)
    ensures var w := Canonical(Spell(Document(r))); Proper(w) && Decoded(Meaning(w), r) == Ok(r)
  {
    Spells(Document(r));
    StoredBack(r, Spell(Document(r)));
  }
}
