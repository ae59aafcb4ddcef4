/** Capability values, what it means for one to satisfy another, and the join of
    two requirements. */
module Capability {
  import opened Options
  import opened Sorting
  import Json

  /** A finite, non-negative number. */
  type Amount = a: real | 0.0 <= a

  datatype MatcherKind = MatchBool | MatchSet | MatchOrdered | MatchQuantity | MatchExact

  datatype CapabilityValue =
    | Bool(on: bool)
    | Set(items: set<string>)
    | Ordered(grade: string, rank: nat)
    | Quantity(amount: Amount)
    | Exact(value: Json.Value)
  {
    function Kind(): MatcherKind {
      match this
      case Bool(_) => MatchBool
      case Set(_) => MatchSet
      case Ordered(_, _) => MatchOrdered
      case Quantity(_) => MatchQuantity
      case Exact(_) => MatchExact
    }

    /** `Bool(false)` is the same as saying nothing. */
    predicate Present() {
      this != Bool(false)
    }
  }

  datatype SecurityClass = Functional | Authority | Sandbox | Continuity

  datatype Polarity = Ability | Restriction

  datatype Definition = Definition(matcher: MatcherKind, security: SecurityClass, polarity: Polarity) {
    /** Only imported enforcement evidence can prove such a capability. */
    predicate NeedsEvidence() {
      !security.Functional?
    }
  }

  type Catalog = map<Ref, Definition>

  type Capabilities = map<Ref, CapabilityValue>

  /** An explicit absence is never handed out. */
  function PresentCap(caps: Capabilities, ref: Ref): Option<CapabilityValue> {
    if ref in caps && caps[ref].Present() then Some(caps[ref]) else None
  }

  // ----------------------------------------------------------------- relations

  predicate Satisfies(kind: MatcherKind, required: CapabilityValue, provided: CapabilityValue) {
    match (kind, required, provided)
    case (MatchBool, Bool(r), Bool(p)) => r ==> p
    case (MatchSet, Set(r), Set(p)) => r <= p
    case (MatchOrdered, Ordered(rg, rr), Ordered(pg, pr)) => rg == pg && rr <= pr
    case (MatchQuantity, Quantity(r), Quantity(p)) => r <= p
    case (MatchExact, r, p) => r == p
    case _ => false
  }

  predicate Within(ceiling: CapabilityValue, value: CapabilityValue) {
    match (ceiling, value)
    case (Bool(a), Bool(b)) => b ==> a
    case (Set(a), Set(b)) => b <= a
    case (Ordered(ag, ar), Ordered(bg, br)) => ag == bg && br <= ar
    case (Quantity(a), Quantity(b)) => b <= a
    case (Exact(a), Exact(b)) => a == b
    case _ => false
  }

  /** The stronger of two requirements, when they can be met together. */
  function Join(kind: MatcherKind, a: CapabilityValue, b: CapabilityValue): Option<CapabilityValue> {
    match (kind, a, b)
    case (MatchBool, Bool(x), Bool(y)) => Some(Bool(x || y))
    case (MatchSet, Set(x), Set(y)) => Some(Set(x + y))
    case (MatchOrdered, Ordered(ag, ar), Ordered(bg, br)) =>
      if ag == bg then Some(Ordered(ag, if ar >= br then ar else br)) else None
    case (MatchQuantity, Quantity(x), Quantity(y)) => Some(Quantity(if x >= y then x else y))
    case (MatchExact, x, y) => if x == y then Some(x) else None
    case _ => None
  }

  /** The join asks for exactly what both requirements ask for together, and is
      missing exactly when nothing can meet both. */
  lemma JoinExact(kind: MatcherKind, a: CapabilityValue, b: CapabilityValue)
    ensures Join(kind, a, b).None? <==> !exists p :: Satisfies(kind, a, p) && Satisfies(kind, b, p)
    ensures Join(kind, a, b).Some? ==>
      forall p :: Satisfies(kind, Join(kind, a, b).value, p) <==> Satisfies(kind, a, p) && Satisfies(kind, b, p)
  {
    if Join(kind, a, b).Some? {
      var j := Join(kind, a, b).value;
      assert Satisfies(kind, a, j) && Satisfies(kind, b, j);
    }
  }

  lemma SatisfiesTransits(kind: MatcherKind, a: CapabilityValue, b: CapabilityValue, c: CapabilityValue)
    requires Satisfies(kind, a, b) && Satisfies(kind, b, c)
    ensures Satisfies(kind, a, c)
  {
  }
}
