/** Reading a document tree back into a record. Missing fields, wrong shapes and unknown
    spellings are refused; whatever is accepted is valid. */
module Decoding {
  import opened Options
  import opened Outcomes
  import opened Sorting
  import opened Json
  import C = Capability
  import opened Contracts
  import opened Sources
  import opened Names
  import P = Policies
  import M = Matching
  import opened Documents

  type Fields = map<string, Value>

  // --------------------------------------------------------------------- scalars

  function ObjectOf(v: Value): Result<Fields> {
    if v.Object? then Ok(v.fields) else Err(InvariantViolation)
  }

  function FieldOf(o: Fields, name: string): Result<Value> {
    if name in o then Ok(o[name]) else Err(InvariantViolation)
  }

  function TextOf(v: Value): Result<string> {
    if v.Text? then Ok(v.text) else Err(InvariantViolation)
  }

  function ArrayOf(v: Value): Result<seq<Value>> {
    if v.Array? then Ok(v.items) else Err(InvariantViolation)
  }

  function TextAt(o: Fields, name: string): Result<string> {
    var v :- FieldOf(o, name);
    TextOf(v)
  }

  /** An unsigned 64-bit integer. */
  function NatAt(o: Fields, name: string): (r: Result<nat>)
    ensures r.Ok? ==> r.value < U64
  {
    var v :- FieldOf(o, name);
    if v.Integer? && 0 <= v.n < U64 then Ok(v.n) else Err(InvariantViolation)
  }

  function BoolAt(o: Fields, name: string): Result<bool> {
    var v :- FieldOf(o, name);
    if v.Bool? then Ok(v.on) else Err(InvariantViolation)
  }

  /** A non-negative number; integers are numbers too. */
  function AmountAt(o: Fields, name: string): Result<C.Amount> {
    var v :- FieldOf(o, name);
    var x :- if v.Number? then Ok(v.x) else if v.Integer? then Ok(v.n as real) else Err(InvariantViolation);
    if x >= 0.0 then Ok(x) else Err(InvalidNumber)
  }

  function OptionalText(v: Value): Result<Option<string>> {
    if v.Null? then Ok(None)
    else
      var text :- TextOf(v);
      Ok(Some(text))
  }

  function OptionalTextAt(o: Fields, name: string): Result<Option<string>> {
    var v :- FieldOf(o, name);
    OptionalText(v)
  }

  function NonBlankAt(o: Fields, name: string): (r: Result<string>)
    ensures r.Ok? ==> !Blank(r.value)
  {
    var text :- TextAt(o, name);
    if Blank(text) then Err(InvalidRef) else Ok(text)
  }

  function WorkspaceAt(o: Fields, name: string): Result<WorkspaceMode> {
    var text :- TextAt(o, name);
    WorkspaceOf(text)
  }

  function NetworkAt(o: Fields, name: string): Result<NetworkPolicy> {
    var text :- TextAt(o, name);
    NetworkOf(text)
  }

  function ContinuityAt(o: Fields, name: string): Result<ContinuityMode> {
    var text :- TextAt(o, name);
    ContinuityOf(text)
  }

  // ----------------------------------------------------------------------- lists

  /** Read element after element; the first one refused ends it. */
  function ReadAll<T>(items: seq<Value>, read: Value -> Result<T>): (r: Result<seq<T>>)
    ensures r.Ok? ==> |r.value| == |items| && forall i | 0 <= i < |items| :: read(items[i]) == Ok(r.value[i])
  {
    if items == [] then Ok([])
    else
      var n := |items| - 1;
      var init :- ReadAll(items[..n], read);
      var last :- read(items[n]);
      Ok(init + [last])
  }

  lemma {:induction false} ReadFails<T>(items: seq<Value>, read: Value -> Result<T>, i: nat)
    requires i <= |items| && ReadAll(items[..i], read).Err?
    ensures ReadAll(items, read) == Err(ReadAll(items[..i], read).error)
    decreases |items| - i
  {
    if i < |items| {
      assert items[..i + 1][..i] == items[..i];
      ReadFails(items, read, i + 1);
    } else {
      assert items[..i] == items;
    }
  }

  /** The loop of every list and set decoder. */
  method ReadEach<T>(items: seq<Value>, read: Value -> Result<T>) returns (r: Result<seq<T>>)
    ensures r == ReadAll(items, read)
  {
    var list: seq<T> := [];
    for i := 0 to |items|
      invariant ReadAll(items[..i], read) == Ok(list)
    {
      assert items[..i + 1][..i] == items[..i];
      var x := read(items[i]);
      if x.Err? {
        ReadFails(items, read, i + 1);
        return Err(x.error);
      }
      list := list + [x.value];
    }
    assert items[..|items|] == items;
    return Ok(list);
  }

  function ListOf<T>(v: Value, read: Value -> Result<T>): Result<seq<T>> {
    var items :- ArrayOf(v);
    ReadAll(items, read)
  }

  function SetOf<T(==)>(v: Value, read: Value -> Result<T>): Result<set<T>> {
    var list :- ListOf(v, read);
    Ok(set x | x in list)
  }

  function ReadPurpose(v: Value): Result<InformationFunction> {
    var text :- TextOf(v);
    PurposeOf(text)
  }

  function ReadLifecycle(v: Value): Result<LifecycleMode> {
    var text :- TextOf(v);
    LifecycleOf(text)
  }

  function ReadContinuity(v: Value): Result<ContinuityMode> {
    var text :- TextOf(v);
    ContinuityOf(text)
  }

  function ReadNetwork(v: Value): Result<NetworkPolicy> {
    var text :- TextOf(v);
    NetworkOf(text)
  }

  function ReadWorkspace(v: Value): Result<WorkspaceMode> {
    var text :- TextOf(v);
    WorkspaceOf(text)
  }

  function ReadCredential(v: Value): (r: Result<string>)
    ensures r.Ok? ==> !Blank(r.value)
  {
    var text :- TextOf(v);
    if Blank(text) then Err(InvalidRef) else Ok(text)
  }

  function PurposesAt(o: Fields, name: string): Result<seq<InformationFunction>> {
    var v :- FieldOf(o, name);
    ListOf(v, ReadPurpose)
  }

  function TextSetOf(v: Value): Result<set<string>> {
    SetOf(v, TextOf)
  }

  function TextSetAt(o: Fields, name: string): Result<set<string>> {
    var v :- FieldOf(o, name);
    TextSetOf(v)
  }

  function LifecycleSetOf(v: Value): Result<set<LifecycleMode>> {
    SetOf(v, ReadLifecycle)
  }

  function ContinuitySetOf(v: Value): Result<set<ContinuityMode>> {
    SetOf(v, ReadContinuity)
  }

  function LifecycleSetAt(o: Fields, name: string): Result<set<LifecycleMode>> {
    var v :- FieldOf(o, name);
    LifecycleSetOf(v)
  }

  function ContinuitySetAt(o: Fields, name: string): Result<set<ContinuityMode>> {
    var v :- FieldOf(o, name);
    ContinuitySetOf(v)
  }

  function NullableAt<T>(o: Fields, name: string, read: Value -> Result<T>): Result<Option<T>> {
    var v :- FieldOf(o, name);
    if v.Null? then Ok(None)
    else
      var x :- read(v);
      Ok(Some(x))
  }

  // ------------------------------------------------------------------ references

  function NewRef(id: string, revision: nat): (r: Result<Ref>)
    requires revision < U64
    ensures r.Ok? ==> ValidRef(r.value)
  {
    if Blank(id) || revision == 0 then Err(InvalidRef) else Ok(Ref(id, revision))
  }

  function RefFrom(o: Fields, idName: string, revisionName: string): (r: Result<Ref>)
    ensures r.Ok? ==> ValidRef(r.value)
  {
    var id :- TextAt(o, idName);
    var revision :- NatAt(o, revisionName);
    NewRef(id, revision)
  }

  function RefAt(o: Fields, name: string, idName: string): (r: Result<Ref>)
    ensures r.Ok? ==> ValidRef(r.value)
  {
    var v :- FieldOf(o, name);
    var ref :- ObjectOf(v);
    RefFrom(ref, idName, "revision")
  }

  function PinAt(o: Fields, name: string, idName: string): (r: Result<Option<Ref>>)
    ensures r.Ok? ==> ValidPin(r.value)
  {
    var v :- FieldOf(o, name);
    if v.Null? then Ok(None)
    else
      var pin :- ObjectOf(v);
      var ref :- RefFrom(pin, idName, "revision");
      Ok(Some(ref))
  }

  function ConfigRefFrom(o: Fields): (r: Result<ConfigRef>)
    ensures r.Ok? ==> ValidConfigRef(r.value)
  {
    var source :- RefFrom(o, "source_id", "source_revision");
    var own :- RefFrom(o, "config_id", "revision");
    Ok(ConfigRef(source, own.id, own.revision))
  }

  function ConfigRefAt(o: Fields, name: string): (r: Result<ConfigRef>)
    ensures r.Ok? ==> ValidConfigRef(r.value)
  {
    var v :- FieldOf(o, name);
    var ref :- ObjectOf(v);
    ConfigRefFrom(ref)
  }

  // ---------------------------------------------------------------- capabilities

  function ValueOf(v: Value): (r: Result<C.CapabilityValue>)
    ensures r.Ok? ==> ValidValue(r.value)
  {
    var o :- ObjectOf(v);
    var kind :- TextAt(o, "kind");
    if kind == "BOOL" then
      var on :- BoolAt(o, "value");
      Ok(C.Bool(on))
    else if kind == "SET" then
      var items :- TextSetAt(o, "value");
      Ok(C.Set(items))
    else if kind == "ORDERED" then
      var rank :- NatAt(o, "rank");
      if rank >= U32 then Err(InvariantViolation)
      else
        var grade :- TextAt(o, "class");
        Ok(C.Ordered(grade, rank))
    else if kind == "QUANTITY" then
      var amount :- AmountAt(o, "value");
      Ok(C.Quantity(amount))
    else if kind == "EXACT" then
      var exact :- FieldOf(o, "value");
      Ok(C.Exact(exact))
    else Err(InvariantViolation)
  }

  function ValueAt(o: Fields, name: string): (r: Result<C.CapabilityValue>)
    ensures r.Ok? ==> ValidValue(r.value)
  {
    var v :- FieldOf(o, name);
    ValueOf(v)
  }

  function CapOf(v: Value): (r: Result<(Ref, C.CapabilityValue)>)
    ensures r.Ok? ==> ValidRef(r.value.0) && ValidValue(r.value.1)
  {
    var o :- ObjectOf(v);
    var ref :- RefFrom(o, "capability_id", "revision");
    var value :- ValueAt(o, "value");
    Ok((ref, value))
  }

  /** Entries in order; a key that comes twice is refused. */
  function ReadMap<K(==), V>(items: seq<Value>, read: Value -> Result<(K, V)>): (r: Result<map<K, V>>)
    ensures r.Ok? ==> forall k | k in r.value :: exists i | 0 <= i < |items| :: read(items[i]) == Ok((k, r.value[k]))
  {
    if items == [] then Ok(map[])
    else
      var n := |items| - 1;
      var entries :- ReadMap(items[..n], read);
      var entry :- read(items[n]);
      if entry.0 in entries then Err(InvariantViolation) else Ok(entries[entry.0 := entry.1])
  }

  lemma {:induction false} MapFails<K, V>(items: seq<Value>, read: Value -> Result<(K, V)>, i: nat)
    requires i <= |items| && ReadMap(items[..i], read).Err?
    ensures ReadMap(items, read) == ReadMap(items[..i], read)
    decreases |items| - i
  {
    if i < |items| {
      assert items[..i + 1][..i] == items[..i];
      MapFails(items, read, i + 1);
    } else {
      assert items[..i] == items;
    }
  }

  /** The loop of `capability_map_from`. */
  method FillMap<K(==), V>(items: seq<Value>, read: Value -> Result<(K, V)>) returns (r: Result<map<K, V>>)
    ensures r == ReadMap(items, read)
  {
    var entries: map<K, V> := map[];
    for i := 0 to |items|
      invariant ReadMap(items[..i], read) == Ok(entries)
    {
      assert items[..i + 1][..i] == items[..i];
      var entry := read(items[i]);
      if entry.Err? {
        MapFails(items, read, i + 1);
        return Err(entry.error);
      }
      if entry.value.0 in entries {
        MapFails(items, read, i + 1);
        return Err(InvariantViolation);
      }
      entries := entries[entry.value.0 := entry.value.1];
    }
    assert items[..|items|] == items;
    return Ok(entries);
  }

  function CapsAt(o: Fields, name: string): (r: Result<C.Capabilities>)
    ensures r.Ok? ==> ValidCaps(r.value)
  {
    var v :- FieldOf(o, name);
    var items :- ArrayOf(v);
    ReadMap(items, CapOf)
  }

  function ClaimOf(v: Value): (r: Result<Claim>)
    ensures r.Ok? ==> ValidClaim(r.value)
  {
    var o :- ObjectOf(v);
    var ref :- RefFrom(o, "capability_id", "revision");
    var value :- ValueAt(o, "value");
    var text :- TextAt(o, "assurance");
    var assurance :- AssuranceOf(text);
    var provenance :- OptionalTextAt(o, "declaration_provenance_ref");
    Ok(Claim(ref, value, assurance, provenance))
  }

  function ClaimsAt(o: Fields, name: string): (r: Result<seq<Claim>>)
    ensures r.Ok? ==> ValidClaims(r.value)
  {
    var v :- FieldOf(o, name);
    ListOf(v, ClaimOf)
  }

  // ------------------------------------------------------------------ sub-records

  function AffinityAt(o: Fields, name: string): Result<Affinity> {
    var v :- FieldOf(o, name);
    var affinity :- ObjectOf(v);
    var kind :- TextAt(affinity, "kind");
    if kind == "ANY" then Ok(Any)
    else if kind == "ONLY" then
      var tags :- TextSetAt(affinity, "tags");
      Ok(Only(tags))
    else Err(InvariantViolation)
  }

  function SecurityAt(o: Fields, name: string): Result<Security> {
    var v :- FieldOf(o, name);
    var security :- ObjectOf(v);
    var workspace :- WorkspaceAt(security, "workspace");
    var network :- NetworkAt(security, "network");
    var isolation :- BoolAt(security, "requires_attempt_isolation");
    Ok(Security(workspace, network, isolation))
  }

  lemma WorkspacesAgain(modes: seq<WorkspaceMode>)
    ensures Workspaces(Workspaces(modes)) == Workspaces(modes)
  {
    ModeOrders();
    SortMembers(modes, WorkspaceBefore);
    DedupMembers(Sort(modes, WorkspaceBefore));
    SortedSetUnique(Workspaces(modes), modes, WorkspaceBefore);
  }

  function SafetyAt(o: Fields, name: string): (r: Result<PhysicalSafety>)
    ensures r.Ok? ==> ValidSafety(r.value)
  {
    var v :- FieldOf(o, name);
    var safety :- ObjectOf(v);
    var isolation :- BoolAt(safety, "attempt_isolation");
    var modes :- FieldOf(safety, "workspace_modes");
    var workspaces :- ListOf(modes, ReadWorkspace);
    var policies :- FieldOf(safety, "network_modes");
    var networks :- SetOf(policies, ReadNetwork);
    WorkspacesAgain(workspaces);
    Ok(PhysicalSafety(isolation, Workspaces(workspaces), networks))
  }

  function ContractFrom(o: Fields): (r: Result<Contract>)
    ensures r.Ok? ==> ValidContract(r.value)
  {
    var purposes :- PurposesAt(o, "allowed_information_functions");
    var capabilities :- CapsAt(o, "required_capabilities");
    var affinity :- AffinityAt(o, "affinity");
    var budget :- AmountAt(o, "budget_ceiling");
    var security :- SecurityAt(o, "security");
    var lifecycle :- LifecycleSetAt(o, "lifecycle");
    var continuity :- ContinuityAt(o, "continuity");
    var sandbox :- PinAt(o, "sandbox_policy", "sandbox_policy_id");
    var anchor :- OptionalTextAt(o, "anchor_constraint");
    Ok(Contract(purposes, capabilities, affinity, budget, security, lifecycle, continuity, sandbox, anchor))
  }

  function RequirementFrom(o: Fields): (r: Result<Requirement>)
    ensures r.Ok? ==> ValidRequirement(r.value)
  {
    var text :- TextAt(o, "information_function");
    var purpose :- PurposeOf(text);
    var capabilities :- CapsAt(o, "required_capabilities");
    var affinity :- TextSetAt(o, "required_affinity");
    var workspace :- WorkspaceAt(o, "required_workspace");
    var network :- NetworkAt(o, "required_network");
    var isolation :- BoolAt(o, "required_attempt_isolation");
    var continuity :- ContinuityAt(o, "required_continuity");
    var sandbox :- PinAt(o, "sandbox_policy", "sandbox_policy_id");
    var anchor :- OptionalTextAt(o, "required_anchor");
    var budget :- AmountAt(o, "budget");
    Ok(Requirement(purpose, capabilities, affinity, workspace, network, isolation, continuity, sandbox, anchor, budget))
  }

  function PolicyFrom(o: Fields): (r: Result<P.GenerationPolicy>)
    ensures r.Ok? ==> ValidPolicy(r.value)
  {
    var purposes :- PurposesAt(o, "allowed_information_functions");
    var affinity :- NullableAt(o, "allowed_affinity", TextSetOf);
    var workspace :- WorkspaceAt(o, "max_workspace");
    var network :- NetworkAt(o, "max_network");
    var isolation :- BoolAt(o, "requires_attempt_isolation");
    var continuity :- ContinuityAt(o, "min_continuity");
    var sandbox :- PinAt(o, "sandbox_policy", "sandbox_policy_id");
    var budget :- AmountAt(o, "budget_ceiling");
    var anchor :- OptionalTextAt(o, "anchor_constraint");
    Ok(P.GenerationPolicy(purposes, workspace, network, isolation, continuity, sandbox, budget, affinity, anchor))
  }

  // ------------------------------------------------------------------- documents

  /** The envelope: the format version and the kind the caller expects. */
  function Opened(v: Value, kind: string): Result<Fields> {
    var o :- ObjectOf(v);
    var format :- TextAt(o, "canonical");
    if format != FORMAT then Err(InvariantViolation)
    else
      var actual :- TextAt(o, "kind");
      if actual != kind then Err(InvariantViolation) else Ok(o)
  }

  function AgentTypeOf(v: Value): (r: Result<AgentType>)
    ensures r.Ok? ==> ValidAgentType(r.value)
  {
    var o :- Opened(v, "AGENT_TYPE");
    var ref :- RefFrom(o, "type_id", "revision");
    var basedOn :- PinAt(o, "based_on", "type_id");
    var c :- FieldOf(o, "contract");
    var fields :- ObjectOf(c);
    var contract :- ContractFrom(fields);
    Ok(AgentType(ref, basedOn, contract))
  }

  function SourceOf(v: Value, status: Status): (r: Result<SpawnSource>)
    ensures r.Ok? ==> ValidSource(r.value)
  {
    var o :- Opened(v, "SPAWN_SOURCE");
    var ref :- RefFrom(o, "source_id", "revision");
    var policy :- RefAt(o, "adapter_policy", "adapter_policy_id");
    var lifecycle :- LifecycleSetAt(o, "lifecycle_modes");
    var continuity :- ContinuitySetAt(o, "continuity_modes");
    var envelope :- CapsAt(o, "functional_envelope");
    var claims :- ClaimsAt(o, "claims");
    Ok(SpawnSource(ref, policy, lifecycle, continuity, envelope, claims, status))
  }

  function LocatorAt(o: Fields, name: string): (r: Result<Option<string>>)
    ensures r.Ok? ==> ValidLocator(r.value)
  {
    var locator :- OptionalTextAt(o, name);
    if locator.Some? && Blank(locator.value) then Err(InvariantViolation) else Ok(locator)
  }

  function CredentialsAt(o: Fields, name: string): (r: Result<seq<string>>)
    ensures r.Ok? ==> forall i | 0 <= i < |r.value| :: !Blank(r.value[i])
  {
    var v :- FieldOf(o, name);
    ListOf(v, ReadCredential)
  }

  function ConfigOf(v: Value, status: Status): (r: Result<(SourceConfig, Option<string>)>)
    ensures r.Ok? ==> ValidConfig(r.value.0) && ValidLocator(r.value.1)
  {
    var o :- Opened(v, "SOURCE_CONFIG");
    var ref :- ConfigRefFrom(o);
    var credentials :- CredentialsAt(o, "credential_refs");
    var locator :- LocatorAt(o, "config_locator");
    var digest :- NonBlankAt(o, "config_digest");
    var lifecycle :- NullableAt(o, "lifecycle_modes", LifecycleSetOf);
    var continuity :- NullableAt(o, "continuity_modes", ContinuitySetOf);
    var claims :- ClaimsAt(o, "claims");
    Ok((SourceConfig(ref, digest, lifecycle, continuity, credentials, claims, status), locator))
  }

  function AdapterPolicyOf(v: Value, status: Status): (r: Result<AdapterPolicy>)
    ensures r.Ok? ==> ValidAdapterPolicy(r.value)
  {
    var o :- Opened(v, "ADAPTER_BINDING_POLICY");
    var ref :- RefFrom(o, "adapter_policy_id", "revision");
    var safety :- SafetyAt(o, "required_safety");
    var kind :- TextAt(o, "adapter_kind");
    var binding :- TextAt(o, "binding_ref");
    if Blank(kind) || Blank(binding) then Err(InvalidRef)
    else Ok(AdapterPolicy(ref, kind, binding, safety, status))
  }

  function DefinitionOf(v: Value): (r: Result<(Ref, C.Definition)>)
    ensures r.Ok? ==> ValidRef(r.value.0)
  {
    var o :- Opened(v, "CAPABILITY_DEFINITION");
    var ref :- RefFrom(o, "capability_id", "revision");
    var kind :- TextAt(o, "matcher_kind");
    var matcher :- MatcherOf(kind);
    var class' :- TextAt(o, "security_class");
    var security :- ClassOf(class');
    var direction :- TextAt(o, "polarity");
    var polarity :- PolarityOf(direction);
    Ok((ref, C.Definition(matcher, security, polarity)))
  }

  function TaskRequirementOf(v: Value): (r: Result<M.TaskAgentRequirement>)
    ensures r.Ok? ==> ValidTaskRequirement(r.value)
  {
    var o :- Opened(v, "TASK_AGENT_REQUIREMENT");
    var ref :- RefAt(o, "required_type", "type_id");
    var h :- FieldOf(o, "hard");
    var fields :- ObjectOf(h);
    var hard :- RequirementFrom(fields);
    Ok(M.TaskAgentRequirement(ref, hard))
  }

  function GenerationPolicyOf(v: Value): (r: Result<P.GenerationPolicy>)
    ensures r.Ok? ==> ValidPolicy(r.value)
  {
    var o :- Opened(v, "GENERATION_POLICY");
    var p :- FieldOf(o, "policy");
    var fields :- ObjectOf(p);
    PolicyFrom(fields)
  }

  function DigestAt(o: Fields, name: string): (r: Result<string>)
    ensures r.Ok? ==> ValidDigest(r.value)
  {
    var text :- TextAt(o, name);
    if ValidDigest(text) then Ok(text) else Err(InvalidRef)
  }

  function BindingOf(v: Value): (r: Result<Binding>)
    ensures r.Ok? ==> ValidBinding(r.value)
  {
    var o :- Opened(v, "PROVISIONING_BINDING");
    var id :- TextAt(o, "provisioning_binding_id");
    var agent :- TextAt(o, "logical_agent_id");
    var incarnation :- TextAt(o, "incarnation_id");
    var agentType :- RefAt(o, "agent_type", "type_id");
    var source :- RefAt(o, "spawn_source", "source_id");
    var config :- ConfigRefAt(o, "source_config");
    var policy :- RefAt(o, "adapter_policy", "adapter_policy_id");
    var kind :- TextAt(o, "adapter_kind");
    var key :- TextAt(o, "adapter_binding_key");
    var digest :- DigestAt(o, "attested_materialization_digest");
    var protocol :- TextAt(o, "provisioning_protocol");
    var safety :- SafetyAt(o, "effective_security");
    if Blank(id) || Blank(kind) || Blank(key) || Blank(protocol) then Err(InvalidRef)
    else Ok(Binding(id, agent, incarnation, agentType, source, config, policy, kind, key, digest, protocol, safety))
  }

  /** The identity half of a snapshot. */
  datatype Chosen = Chosen(
    id: string, execution: string, binding: string, kind: string, key: string, source: Ref, config: ConfigRef,
    configDigest: string, digest: string)

  predicate ValidChosen(c: Chosen) {
    ValidRef(c.source) && ValidConfigRef(c.config) && !Blank(c.configDigest) && ValidDigest(c.digest)
  }

  function ChosenFrom(o: Fields): (r: Result<Chosen>)
    ensures r.Ok? ==> ValidChosen(r.value)
  {
    var id :- TextAt(o, "snapshot_id");
    var execution :- TextAt(o, "execution_id");
    var binding :- TextAt(o, "provisioning_binding_id");
    var kind :- TextAt(o, "adapter_kind");
    var key :- TextAt(o, "adapter_binding_key");
    var source :- RefAt(o, "spawn_source", "source_id");
    var config :- ConfigRefAt(o, "source_config");
    var configDigest :- NonBlankAt(o, "source_config_digest");
    var digest :- DigestAt(o, "attested_materialization_digest");
    Ok(Chosen(id, execution, binding, kind, key, source, config, configDigest, digest))
  }

  function SnapshotFrom(o: Fields, c: Chosen): (r: Result<Snapshot>)
    requires ValidChosen(c)
    ensures r.Ok? ==> ValidSnapshot(r.value)
  {
    var descriptor :- TextAt(o, "launch_descriptor");
    var target :- TextAt(o, "execution_target");
    var profile :- TextAt(o, "execution_profile");
    var capabilities :- CapsAt(o, "required_capabilities");
    var safety :- SafetyAt(o, "enforceable_security");
    var isolation :- BoolAt(o, "effective_isolation");
    var workspace :- WorkspaceAt(o, "effective_workspace");
    var network :- NetworkAt(o, "effective_network");
    var credentials :- OptionalTextAt(o, "credential_refs_digest");
    var resolver :- TextAt(o, "resolver_version");
    if Blank(c.id) || Blank(c.kind) || Blank(c.key) || Blank(c.binding) then Err(InvalidRef)
    else if Blank(target) || Blank(profile) || Blank(descriptor) || Blank(resolver) then Err(InvalidRef)
    else Ok(Snapshot(c.id, c.execution, c.binding, c.kind, c.key, c.source, c.config, c.configDigest, c.digest,
                     descriptor,
                     target, profile, capabilities, safety, isolation, workspace, network, credentials, resolver))
  }

  function SnapshotOf(v: Value): (r: Result<Snapshot>)
    ensures r.Ok? ==> ValidSnapshot(r.value)
  {
    var o :- Opened(v, "BINDING_SNAPSHOT");
    var chosen :- ChosenFrom(o);
    SnapshotFrom(o, chosen)
  }
}
