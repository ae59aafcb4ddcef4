/** How the closed enumerations are spelled in a document; every spelling reads back
    as what it spells. */
module Names {
  import opened Outcomes
  import opened Sorting
  import opened Capability
  import opened Contracts
  import opened Sources

  function PurposeText(f: InformationFunction): (text: string)
    ensures PurposeOf(text) == Ok(f)
  {
    match f
    case Expand => "EXPAND"
    case CompressPositive => "COMPRESS_POSITIVE"
    case CompressNegative => "COMPRESS_NEGATIVE"
  }

  function PurposeOf(text: string): Result<InformationFunction> {
    if text == "EXPAND" then Ok(Expand)
    else if text == "COMPRESS_POSITIVE" then Ok(CompressPositive)
    else if text == "COMPRESS_NEGATIVE" then Ok(CompressNegative)
    else Err(InvariantViolation)
  }

  function WorkspaceText(mode: WorkspaceMode): (text: string)
    ensures WorkspaceOf(text) == Ok(mode)
  {
    match mode case ReadOnly => "read_only" case Write => "write"
  }

  function WorkspaceOf(text: string): Result<WorkspaceMode> {
    if text == "read_only" then Ok(ReadOnly) else if text == "write" then Ok(Write) else Err(InvariantViolation)
  }

  function NetworkText(policy: NetworkPolicy): (text: string)
    ensures NetworkOf(text) == Ok(policy)
  {
    match policy case Disabled => "DISABLED" case Restricted => "RESTRICTED" case Enabled => "ENABLED"
  }

  function NetworkOf(text: string): Result<NetworkPolicy> {
    if text == "DISABLED" then Ok(Disabled)
    else if text == "RESTRICTED" then Ok(Restricted)
    else if text == "ENABLED" then Ok(Enabled)
    else Err(InvariantViolation)
  }

  function LifecycleText(mode: LifecycleMode): (text: string)
    ensures LifecycleOf(text) == Ok(mode)
  {
    match mode case Ephemeral => "EPHEMERAL" case Resident => "RESIDENT" case Revivable => "REVIVABLE"
  }

  function LifecycleOf(text: string): Result<LifecycleMode> {
    if text == "EPHEMERAL" then Ok(Ephemeral)
    else if text == "RESIDENT" then Ok(Resident)
    else if text == "REVIVABLE" then Ok(Revivable)
    else Err(InvariantViolation)
  }

  function ContinuityText(mode: ContinuityMode): (text: string)
    ensures ContinuityOf(text) == Ok(mode)
  {
    match mode case NoContinuity => "NONE" case Logical => "LOGICAL"
  }

  function ContinuityOf(text: string): Result<ContinuityMode> {
    if text == "NONE" then Ok(NoContinuity) else if text == "LOGICAL" then Ok(Logical) else Err(InvariantViolation)
  }

  function MatcherText(kind: MatcherKind): (text: string)
    ensures MatcherOf(text) == Ok(kind)
  {
    match kind
    case MatchBool => "BOOL"
    case MatchSet => "SET"
    case MatchOrdered => "ORDERED"
    case MatchQuantity => "QUANTITY"
    case MatchExact => "EXACT"
  }

  function MatcherOf(text: string): Result<MatcherKind> {
    if text == "BOOL" then Ok(MatchBool)
    else if text == "SET" then Ok(MatchSet)
    else if text == "ORDERED" then Ok(MatchOrdered)
    else if text == "QUANTITY" then Ok(MatchQuantity)
    else if text == "EXACT" then Ok(MatchExact)
    else Err(InvariantViolation)
  }

  function ClassText(class': SecurityClass): (text: string)
    ensures ClassOf(text) == Ok(class')
  {
    match class'
    case Functional => "FUNCTIONAL"
    case Authority => "AUTHORITY"
    case Sandbox => "SANDBOX"
    case Continuity => "CONTINUITY"
  }

  function ClassOf(text: string): Result<SecurityClass> {
    if text == "FUNCTIONAL" then Ok(Functional)
    else if text == "AUTHORITY" then Ok(Authority)
    else if text == "SANDBOX" then Ok(Sandbox)
    else if text == "CONTINUITY" then Ok(Continuity)
    else Err(InvariantViolation)
  }

  function PolarityText(polarity: Polarity): (text: string)
    ensures PolarityOf(text) == Ok(polarity)
  {
    match polarity case Ability => "ABILITY" case Restriction => "RESTRICTION"
  }

  function PolarityOf(text: string): Result<Polarity> {
    if text == "ABILITY" then Ok(Ability) else if text == "RESTRICTION" then Ok(Restriction)
      else Err(InvariantViolation)
  }

  function AssuranceText(assurance: Assurance): (text: string)
    ensures AssuranceOf(text) == Ok(assurance)
  {
    match assurance case Declared => "DECLARED" case Enforced => "ENFORCED"
  }

  function AssuranceOf(text: string): Result<Assurance> {
    if text == "DECLARED" then Ok(Declared) else if text == "ENFORCED" then Ok(Enforced) else Err(InvariantViolation)
  }

  // ------------------------------------------------------------------ list orders

  predicate PurposeBefore(a: InformationFunction, b: InformationFunction) {
    TextBefore(PurposeText(a), PurposeText(b))
  }

  predicate WorkspaceBefore(a: WorkspaceMode, b: WorkspaceMode) {
    WorkspaceRank(a) < WorkspaceRank(b)
  }

  predicate NetworkBefore(a: NetworkPolicy, b: NetworkPolicy) {
    NetworkRank(a) < NetworkRank(b)
  }

  predicate ContinuityBefore(a: ContinuityMode, b: ContinuityMode) {
    ContinuityRank(a) < ContinuityRank(b)
  }

  function LifecycleRank(mode: LifecycleMode): nat {
    match mode case Ephemeral => 0 case Resident => 1 case Revivable => 2
  }

  predicate LifecycleBefore(a: LifecycleMode, b: LifecycleMode) {
    LifecycleRank(a) < LifecycleRank(b)
  }

  lemma ModeOrders()
    ensures StrictTotal(WorkspaceBefore) && StrictTotal(NetworkBefore)
    ensures StrictTotal(ContinuityBefore) && StrictTotal(LifecycleBefore)
  {
  }

  // ------------------------------------------------------------------ as written

  lemma Spellings()
    ensures PurposeText(Expand) == "EXPAND" && PurposeText(CompressPositive) == "COMPRESS_POSITIVE"
      && PurposeText(CompressNegative) == "COMPRESS_NEGATIVE"
    ensures WorkspaceText(ReadOnly) == "read_only" && WorkspaceText(Write) == "write"
    ensures NetworkText(Disabled) == "DISABLED" && NetworkText(Restricted) == "RESTRICTED"
      && NetworkText(Enabled) == "ENABLED"
    ensures LifecycleText(Ephemeral) == "EPHEMERAL" && LifecycleText(Resident) == "RESIDENT"
      && LifecycleText(Revivable) == "REVIVABLE"
    ensures ContinuityText(NoContinuity) == "NONE" && ContinuityText(Logical) == "LOGICAL"
    ensures MatcherText(MatchBool) == "BOOL" && MatcherText(MatchSet) == "SET" && MatcherText(MatchOrdered) == "ORDERED"
      && MatcherText(MatchQuantity) == "QUANTITY" && MatcherText(MatchExact) == "EXACT"
    ensures ClassText(Functional) == "FUNCTIONAL" && ClassText(Authority) == "AUTHORITY"
      && ClassText(Sandbox) == "SANDBOX" && ClassText(Continuity) == "CONTINUITY"
    ensures PolarityText(Ability) == "ABILITY" && PolarityText(Restriction) == "RESTRICTION"
    ensures AssuranceText(Declared) == "DECLARED" && AssuranceText(Enforced) == "ENFORCED"
  {
  }

  /** Modes are listed from the weakest up, and lifecycles from EPHEMERAL to REVIVABLE. */
  lemma ListOrders()
    ensures WorkspaceBefore(ReadOnly, Write) && ContinuityBefore(NoContinuity, Logical)
    ensures NetworkBefore(Disabled, Restricted) && NetworkBefore(Restricted, Enabled)
    ensures LifecycleBefore(Ephemeral, Resident) && LifecycleBefore(Resident, Revivable)
  {
  }
}
