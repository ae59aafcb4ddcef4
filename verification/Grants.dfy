/** Which demand a grant covers, mode by mode. */
module Grants {
  import opened Sorting
  import opened Capability
  import opened Contracts

  /** Something is said at the reference; `Bool(false)` says nothing. */
  predicate Given(caps: Capabilities, ref: Ref) {
    ref in caps && caps[ref] != Bool(false)
  }

  /** A WRITE demand needs WRITE. */
  predicate WorkspaceCovers(grant: WorkspaceMode, demand: WorkspaceMode) {
    demand == Write ==> grant == Write
  }

  /** ENABLED needs ENABLED, and DISABLED covers nothing but itself. */
  predicate NetworkCovers(grant: NetworkPolicy, demand: NetworkPolicy) {
    (demand == Enabled ==> grant == Enabled) && (grant == Disabled ==> demand == Disabled)
  }

  /** A LOGICAL demand needs LOGICAL. */
  predicate ContinuityCovers(grant: ContinuityMode, demand: ContinuityMode) {
    demand == Logical ==> grant == Logical
  }
}
