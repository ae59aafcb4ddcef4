/** The nine kinds of durable record, when they are valid, and the document tree each
    one is written as. */
module Documents {
  import opened Options
  import opened Sorting
  import opened Json
  import C = Capability
  import opened Contracts
  import opened Sources
  import opened Names
  import P = Policies
  import M = Matching

  datatype AdapterPolicy = AdapterPolicy(ref: Ref, kind: string, bindingRef: string, safety: PhysicalSafety,
                                         status: Status)

  /** One incarnation's frozen provisioning choice. */
  datatype Binding = Binding(
    id: string,
    agent: string,
    incarnation: string,
    agentType: Ref,
    source: Ref,
    config: ConfigRef,
    policy: Ref,
    adapterKind: string,
    adapterKey: string,
    digest: string,
    protocol: string,
    safety: PhysicalSafety)

  /** One execution's frozen physical choice. */
  datatype Snapshot = Snapshot(
    id: string,
    execution: string,
    binding: string,
    adapterKind: string,
    adapterKey: string,
    source: Ref,
    config: ConfigRef,
    configDigest: string,
    digest: string,
    descriptor: string,
    target: string,
    profile: string,
    capabilities: C.Capabilities,
    safety: PhysicalSafety,
    isolation: bool,
    workspace: WorkspaceMode,
    network: NetworkPolicy,
    credentials: Option<string>,
    resolver: string)

  // ------------------------------------------------------------------- validity

  /** The characters `trim` removes. */
  predicate Space(c: char) {
    var n := c as int;
    || 0x9 <= n <= 0xD || n == 0x20 || n == 0x85 || n == 0xA0 || n == 0x1680 || 0x2000 <= n <= 0x200A
    || n == 0x2028 || n == 0x2029 || n == 0x202F || n == 0x205F || n == 0x3000
  }

  predicate Blank(text: string) {
    forall i | 0 <= i < |text| :: Space(text[i])
  }

  const U64: nat := 0x1_0000_0000_0000_0000
  const U32: nat := 0x1_0000_0000

  predicate ValidRef(ref: Ref) {
    !Blank(ref.id) && 1 <= ref.revision < U64
  }

  predicate ValidConfigRef(ref: ConfigRef) {
    ValidRef(ref.source) && !Blank(ref.id) && 1 <= ref.revision < U64
  }

  predicate ValidPin(pin: Option<Ref>) {
    pin.Some? ==> ValidRef(pin.value)
  }

  /** A rank fits 32 bits; the other shapes are valid by their types. */
  predicate ValidValue(value: C.CapabilityValue) {
    value.Ordered? ==> value.rank < U32
  }

  predicate ValidCaps(caps: C.Capabilities) {
    forall ref | ref in caps :: ValidRef(ref) && ValidValue(caps[ref])
  }

  predicate ValidClaim(c: Claim) {
    ValidRef(c.ref) && ValidValue(c.value)
  }

  predicate ValidClaims(claims: seq<Claim>) {
    forall i | 0 <= i < |claims| :: ValidClaim(claims[i])
  }

  function Workspaces(modes: seq<WorkspaceMode>): seq<WorkspaceMode> {
    Dedup(Sort(modes, WorkspaceBefore))
  }

  /** Safety facts come out of their constructor sorted and without repetition. */
  predicate ValidSafety(safety: PhysicalSafety) {
    safety.workspaces == Workspaces(safety.workspaces)
  }

  predicate Hex(c: char) {
    '0' <= c <= '9' || 'a' <= c <= 'f'
  }

  /** `sha256:` and 64 lower-case hexadecimal digits. */
  predicate ValidDigest(digest: string) {
    |digest| == 71 && digest[..7] == "sha256:" && forall i | 7 <= i < 71 :: Hex(digest[i])
  }

  predicate ValidContract(contract: Contract) {
    ValidCaps(contract.capabilities) && ValidPin(contract.sandbox)
  }

  predicate ValidAgentType(agent: AgentType) {
    ValidRef(agent.ref) && ValidPin(agent.basedOn) && ValidContract(agent.contract)
  }

  predicate ValidSource(source: SpawnSource) {
    ValidRef(source.ref) && ValidRef(source.adapterPolicy) && ValidCaps(source.envelope) && ValidClaims(source.claims)
  }

  predicate ValidConfig(config: SourceConfig) {
    && ValidConfigRef(config.ref) && !Blank(config.digest)
    && (forall i | 0 <= i < |config.credentials| :: !Blank(config.credentials[i]))
    && ValidClaims(config.claims)
  }

  predicate ValidLocator(locator: Option<string>) {
    locator.Some? ==> !Blank(locator.value)
  }

  predicate ValidAdapterPolicy(policy: AdapterPolicy) {
    ValidRef(policy.ref) && !Blank(policy.kind) && !Blank(policy.bindingRef) && ValidSafety(policy.safety)
  }

  predicate ValidRequirement(req: Requirement) {
    ValidCaps(req.capabilities) && ValidPin(req.sandbox)
  }

  predicate ValidTaskRequirement(req: M.TaskAgentRequirement) {
    ValidRef(req.requiredType) && ValidRequirement(req.hard)
  }

  predicate ValidPolicy(policy: P.GenerationPolicy) {
    ValidPin(policy.sandbox)
  }

  predicate ValidBinding(b: Binding) {
    && !Blank(b.id) && !Blank(b.adapterKind) && !Blank(b.adapterKey) && !Blank(b.protocol)
    && ValidRef(b.agentType) && ValidRef(b.source) && ValidConfigRef(b.config) && ValidRef(b.policy)
    && ValidDigest(b.digest) && ValidSafety(b.safety)
  }

  predicate ValidSnapshot(s: Snapshot) {
    && !Blank(s.id) && !Blank(s.binding) && !Blank(s.adapterKind) && !Blank(s.adapterKey)
    && !Blank(s.target) && !Blank(s.profile) && !Blank(s.descriptor) && !Blank(s.resolver)
    && ValidRef(s.source) && ValidConfigRef(s.config) && !Blank(s.configDigest) && ValidDigest(s.digest)
    && ValidCaps(s.capabilities) && ValidSafety(s.safety)
  }

  // ------------------------------------------------------------- parts of documents

  function ListDoc<T>(list: seq<T>, show: T -> Value): Value {
    Array(seq(|list|, i requires 0 <= i < |list| => show(list[i])))
  }

  function TextSetDoc(texts: set<string>): Value {
    TextTotal();
    ListDoc(Listing(texts, TextBefore), t => Text(t))
  }

  function PurposesDoc(list: seq<InformationFunction>): Value {
    ListDoc(list, f => Text(PurposeText(f)))
  }

  function LifecycleDoc(modes: set<LifecycleMode>): Value {
    ModeOrders();
    ListDoc(Listing(modes, LifecycleBefore), m => Text(LifecycleText(m)))
  }

  function ContinuityDoc(modes: set<ContinuityMode>): Value {
    ModeOrders();
    ListDoc(Listing(modes, ContinuityBefore), m => Text(ContinuityText(m)))
  }

  function NetworkDoc(policies: set<NetworkPolicy>): Value {
    ModeOrders();
    ListDoc(Listing(policies, NetworkBefore), p => Text(NetworkText(p)))
  }

  function OptionalDoc<T>(value: Option<T>, show: T -> Value): Value {
    if value.Some? then show(value.value) else Null
  }

  function TextDoc(text: string): Value {
    Text(text)
  }

  /** A reference under the field name of its own kind. */
  function RefDoc(name: string, ref: Ref): Value {
    Object(map[name := Text(ref.id), "revision" := Integer(ref.revision)])
  }

  function ConfigRefDoc(ref: ConfigRef): Value {
    Object(map[
      "source_id" := Text(ref.source.id),
      "source_revision" := Integer(ref.source.revision),
      "config_id" := Text(ref.id),
      "revision" := Integer(ref.revision)])
  }

  function ValueDoc(value: C.CapabilityValue): Value {
    match value
    case Bool(on) => Object(map["kind" := Text("BOOL"), "value" := Value.Bool(on)])
    case Set(items) => Object(map["kind" := Text("SET"), "value" := TextSetDoc(items)])
    case Ordered(grade, rank) => Object(map["kind" := Text("ORDERED"), "class" := Text(grade), "rank" := Integer(rank)])
    case Quantity(amount) => Object(map["kind" := Text("QUANTITY"), "value" := Number(amount)])
    case Exact(v) => Object(map["kind" := Text("EXACT"), "value" := v])
  }

  function CapDoc(ref: Ref, value: C.CapabilityValue): Value {
    Object(map["capability_id" := Text(ref.id), "revision" := Integer(ref.revision), "value" := ValueDoc(value)])
  }

  function CapsDoc(caps: C.Capabilities): Value {
    var refs := Refs(caps);
    Array(seq(|refs|, i requires 0 <= i < |refs| => CapDoc(refs[i], caps[refs[i]])))
  }

  function ClaimDoc(c: Claim): Value {
    Object(map[
      "capability_id" := Text(c.ref.id),
      "revision" := Integer(c.ref.revision),
      "value" := ValueDoc(c.value),
      "assurance" := Text(AssuranceText(c.assurance)),
      "declaration_provenance_ref" := OptionalDoc(c.provenance, TextDoc)])
  }

  function AffinityDoc(affinity: Affinity): Value {
    match affinity
    case Any => Object(map["kind" := Text("ANY")])
    case Only(tags) => Object(map["kind" := Text("ONLY"), "tags" := TextSetDoc(tags)])
  }

  function PinDoc(pin: Option<Ref>, name: string): Value {
    if pin.Some? then RefDoc(name, pin.value) else Null
  }

  function SecurityDoc(security: Security): Value {
    Object(map[
      "workspace" := Text(WorkspaceText(security.workspace)),
      "network" := Text(NetworkText(security.network)),
      "requires_attempt_isolation" := Value.Bool(security.isolation)])
  }

  function SafetyDoc(safety: PhysicalSafety): Value {
    Object(map[
      "attempt_isolation" := Value.Bool(safety.isolation),
      "workspace_modes" := ListDoc(safety.workspaces, m => Text(WorkspaceText(m))),
      "network_modes" := NetworkDoc(safety.networks)])
  }

  function ContractFields(c: Contract): map<string, Value> {
    map[
      "allowed_information_functions" := PurposesDoc(c.purposes),
      "required_capabilities" := CapsDoc(c.capabilities),
      "affinity" := AffinityDoc(c.affinity),
      "budget_ceiling" := Number(c.budget),
      "security" := SecurityDoc(c.security),
      "lifecycle" := LifecycleDoc(c.lifecycle),
      "continuity" := Text(ContinuityText(c.continuity)),
      "sandbox_policy" := PinDoc(c.sandbox, "sandbox_policy_id"),
      "anchor_constraint" := OptionalDoc(c.anchor, TextDoc)]
  }

  function RequirementFields(r: Requirement): map<string, Value> {
    map[
      "information_function" := Text(PurposeText(r.purpose)),
      "required_capabilities" := CapsDoc(r.capabilities),
      "required_affinity" := TextSetDoc(r.affinity),
      "required_workspace" := Text(WorkspaceText(r.workspace)),
      "required_network" := Text(NetworkText(r.network)),
      "required_attempt_isolation" := Value.Bool(r.isolation),
      "required_continuity" := Text(ContinuityText(r.continuity)),
      "sandbox_policy" := PinDoc(r.sandbox, "sandbox_policy_id"),
      "required_anchor" := OptionalDoc(r.anchor, TextDoc),
      "budget" := Number(r.budget)]
  }

  function PolicyFields(p: P.GenerationPolicy): map<string, Value> {
    map[
      "allowed_information_functions" := PurposesDoc(p.purposes),
      "max_workspace" := Text(WorkspaceText(p.maxWorkspace)),
      "max_network" := Text(NetworkText(p.maxNetwork)),
      "requires_attempt_isolation" := Value.Bool(p.isolation),
      "min_continuity" := Text(ContinuityText(p.minContinuity)),
      "sandbox_policy" := PinDoc(p.sandbox, "sandbox_policy_id"),
      "budget_ceiling" := Number(p.budget),
      "allowed_affinity" := OptionalDoc(p.affinity, TextSetDoc),
      "anchor_constraint" := OptionalDoc(p.anchor, TextDoc)]
  }

  // ------------------------------------------------------------- the nine documents

  const FORMAT := "agentype-contract/1"

  function AgentTypeFields(agent: AgentType): map<string, Value> {
    map[
      "canonical" := Text(FORMAT),
      "kind" := Text("AGENT_TYPE"),
      "type_id" := Text(agent.ref.id),
      "revision" := Integer(agent.ref.revision),
      "based_on" := PinDoc(agent.basedOn, "type_id"),
      "contract" := Object(ContractFields(agent.contract))]
  }

  function SourceFields(source: SpawnSource): map<string, Value> {
    map[
      "canonical" := Text(FORMAT),
      "kind" := Text("SPAWN_SOURCE"),
      "source_id" := Text(source.ref.id),
      "revision" := Integer(source.ref.revision),
      "adapter_policy" := RefDoc("adapter_policy_id", source.adapterPolicy),
      "lifecycle_modes" := LifecycleDoc(source.lifecycle),
      "continuity_modes" := ContinuityDoc(source.continuity),
      "functional_envelope" := CapsDoc(source.envelope),
      "claims" := ListDoc(source.claims, ClaimDoc)]
  }

  function ConfigFields(config: SourceConfig, locator: Option<string>): map<string, Value> {
    map[
      "canonical" := Text(FORMAT),
      "kind" := Text("SOURCE_CONFIG"),
      "source_id" := Text(config.ref.source.id),
      "source_revision" := Integer(config.ref.source.revision),
      "config_id" := Text(config.ref.id),
      "revision" := Integer(config.ref.revision),
      "config_digest" := Text(config.digest),
      "config_locator" := OptionalDoc(locator, TextDoc),
      "lifecycle_modes" := OptionalDoc(config.lifecycle, LifecycleDoc),
      "continuity_modes" := OptionalDoc(config.continuity, ContinuityDoc),
      "credential_refs" := ListDoc(config.credentials, TextDoc),
      "claims" := ListDoc(config.claims, ClaimDoc)]
  }

  function AdapterPolicyFields(policy: AdapterPolicy): map<string, Value> {
    map[
      "canonical" := Text(FORMAT),
      "kind" := Text("ADAPTER_BINDING_POLICY"),
      "adapter_policy_id" := Text(policy.ref.id),
      "revision" := Integer(policy.ref.revision),
      "adapter_kind" := Text(policy.kind),
      "binding_ref" := Text(policy.bindingRef),
      "required_safety" := SafetyDoc(policy.safety)]
  }

  function DefinitionFields(ref: Ref, d: C.Definition): map<string, Value> {
    map[
      "canonical" := Text(FORMAT),
      "kind" := Text("CAPABILITY_DEFINITION"),
      "capability_id" := Text(ref.id),
      "revision" := Integer(ref.revision),
      "matcher_kind" := Text(MatcherText(d.matcher)),
      "security_class" := Text(ClassText(d.security)),
      "polarity" := Text(PolarityText(d.polarity))]
  }

  function TaskRequirementFields(req: M.TaskAgentRequirement): map<string, Value> {
    map[
      "canonical" := Text(FORMAT),
      "kind" := Text("TASK_AGENT_REQUIREMENT"),
      "required_type" := RefDoc("type_id", req.requiredType),
      "hard" := Object(RequirementFields(req.hard))]
  }

  function GenerationPolicyFields(policy: P.GenerationPolicy): map<string, Value> {
    map[
      "canonical" := Text(FORMAT),
      "kind" := Text("GENERATION_POLICY"),
      "policy" := Object(PolicyFields(policy))]
  }

  function BindingFields(b: Binding): map<string, Value> {
    map[
      "canonical" := Text(FORMAT),
      "kind" := Text("PROVISIONING_BINDING"),
      "provisioning_binding_id" := Text(b.id),
      "logical_agent_id" := Text(b.agent),
      "incarnation_id" := Text(b.incarnation),
      "agent_type" := RefDoc("type_id", b.agentType),
      "spawn_source" := RefDoc("source_id", b.source),
      "source_config" := ConfigRefDoc(b.config),
      "adapter_policy" := RefDoc("adapter_policy_id", b.policy),
      "adapter_kind" := Text(b.adapterKind),
      "adapter_binding_key" := Text(b.adapterKey),
      "attested_materialization_digest" := Text(b.digest),
      "provisioning_protocol" := Text(b.protocol),
      "effective_security" := SafetyDoc(b.safety)]
  }

  function SnapshotFields(s: Snapshot): map<string, Value> {
    map[
      "canonical" := Text(FORMAT),
      "kind" := Text("BINDING_SNAPSHOT"),
      "snapshot_id" := Text(s.id),
      "execution_id" := Text(s.execution),
      "provisioning_binding_id" := Text(s.binding),
      "adapter_kind" := Text(s.adapterKind),
      "adapter_binding_key" := Text(s.adapterKey),
      "spawn_source" := RefDoc("source_id", s.source),
      "source_config" := ConfigRefDoc(s.config),
      "source_config_digest" := Text(s.configDigest),
      "attested_materialization_digest" := Text(s.digest),
      "launch_descriptor" := Text(s.descriptor),
      "execution_target" := Text(s.target),
      "execution_profile" := Text(s.profile),
      "required_capabilities" := CapsDoc(s.capabilities),
      "enforceable_security" := SafetyDoc(s.safety),
      "effective_isolation" := Value.Bool(s.isolation),
      "effective_workspace" := Text(WorkspaceText(s.workspace)),
      "effective_network" := Text(NetworkText(s.network)),
      "credential_refs_digest" := OptionalDoc(s.credentials, TextDoc),
      "resolver_version" := Text(s.resolver)]
  }

  /** Any of the nine. */
  datatype Record =
    | AgentTypeRecord(agent: AgentType)
    | SourceRecord(source: SpawnSource)
    | ConfigRecord(config: SourceConfig, locator: Option<string>)
    | AdapterPolicyRecord(adapter: AdapterPolicy)
    | DefinitionRecord(ref: Ref, definition: C.Definition)
    | TaskRequirementRecord(req: M.TaskAgentRequirement)
    | GenerationPolicyRecord(policy: P.GenerationPolicy)
    | BindingRecord(binding: Binding)
    | SnapshotRecord(snapshot: Snapshot)

  predicate Valid(r: Record) {
    match r
    case AgentTypeRecord(agent) => ValidAgentType(agent)
    case SourceRecord(source) => ValidSource(source)
    case ConfigRecord(config, locator) => ValidConfig(config) && ValidLocator(locator)
    case AdapterPolicyRecord(policy) => ValidAdapterPolicy(policy)
    case DefinitionRecord(ref, _) => ValidRef(ref)
    case TaskRequirementRecord(req) => ValidTaskRequirement(req)
    case GenerationPolicyRecord(policy) => ValidPolicy(policy)
    case BindingRecord(b) => ValidBinding(b)
    case SnapshotRecord(s) => ValidSnapshot(s)
  }

  function Document(r: Record): Value {
    match r
    case AgentTypeRecord(agent) => Object(AgentTypeFields(agent))
    case SourceRecord(source) => Object(SourceFields(source))
    case ConfigRecord(config, locator) => Object(ConfigFields(config, locator))
    case AdapterPolicyRecord(policy) => Object(AdapterPolicyFields(policy))
    case DefinitionRecord(ref, d) => Object(DefinitionFields(ref, d))
    case TaskRequirementRecord(req) => Object(TaskRequirementFields(req))
    case GenerationPolicyRecord(policy) => Object(GenerationPolicyFields(policy))
    case BindingRecord(b) => Object(BindingFields(b))
    case SnapshotRecord(s) => Object(SnapshotFields(s))
  }
}
