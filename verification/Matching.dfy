/** Ranked preselection of existing agents for one task. */
module Matching {
  import opened Options
  import opened Outcomes
  import opened Sorting
  import opened Capability
  import opened Contracts

  datatype Preference = Required | Preferred | NoPreference

  datatype Candidate = Candidate(
    id: string,
    agentType: AgentType,
    partition: string,
    tags: set<string>,
    workstream: Option<string>,
    availableSince: Option<real>,
    createdAt: real)

  datatype Placement = Placement(partition: string, tags: set<string>, workstream: Option<string>,
                                 continuity: Preference)

  datatype TaskAgentRequirement = TaskAgentRequirement(requiredType: Ref, hard: Requirement)

  /** A request: the pinned type, the requirement, where the task sits, and the catalog. */
  datatype Query = Query(required: AgentType, req: TaskAgentRequirement, placement: Placement, catalog: Catalog)

  datatype Relation = ExactType | Narrower | Broader | OtherCompatible

  function RelationRank(r: Relation): nat {
    match r case ExactType => 0 case Narrower => 1 case Broader => 2 case OtherCompatible => 3
  }

  function RelationOf(q: Query, candidate: AgentType): Relation {
    if candidate.ref == q.required.ref then ExactType
    else if MoreSpecificFor(candidate, q.required, q.req.hard, q.catalog) then Narrower
    else if MoreSpecificFor(q.required, candidate, q.req.hard, q.catalog) then Broader
    else OtherCompatible
  }

  predicate CrossRevision(q: Query, candidate: AgentType) {
    candidate.ref != q.required.ref && candidate.ref.id == q.required.ref.id
  }

  predicate StrictlyMoreSpecific(q: Query, a: AgentType, b: AgentType) {
    && a.ref != b.ref
    && MoreSpecificFor(a, b, q.req.hard, q.catalog)
    && !MoreSpecificFor(b, a, q.req.hard, q.catalog)
  }

  predicate SameWorkstream(q: Query, c: Candidate) {
    q.placement.workstream.Some? && c.workstream == q.placement.workstream
  }

  predicate PlacementEligible(c: Candidate, p: Placement) {
    && c.partition == p.partition
    && p.tags <= c.tags
    && (p.continuity.Required? ==> p.workstream.Some? && p.workstream == c.workstream)
  }

  predicate Eligible(q: Query, c: Candidate) {
    && PlacementEligible(c, q.placement)
    && CanExecute(c.agentType, q.req.hard, q.catalog).Pass?
    && !CrossRevision(q, c.agentType)
  }

  /** `other` is preferred to `c` for its narrower authority. */
  predicate Dominates(q: Query, other: Candidate, c: Candidate) {
    && RelationOf(q, other.agentType) == RelationOf(q, c.agentType)
    && StrictlyMoreSpecific(q, other.agentType, c.agentType)
  }

  function Dominators(q: Query, among: seq<Candidate>, c: Candidate): nat {
    |Filter(among, other => Dominates(q, other, c))|
  }

  // -------------------------------------------------------------- the sort key

  datatype Ranked = Ranked(relation: Relation, domination: nat, candidate: Candidate)

  datatype Key = Key(relation: nat, domination: nat, away: nat, weakness: int, since: real, id: string)

  function KeyOf(q: Query, r: Ranked): Key {
    Key(RelationRank(r.relation),
        r.domination,
        if !q.placement.continuity.NoPreference? && !SameWorkstream(q, r.candidate) then 1 else 0,
        1 - ContinuityRank(r.candidate.agentType.contract.continuity),
        if r.candidate.availableSince.Some? then r.candidate.availableSince.value else r.candidate.createdAt,
        r.candidate.id)
  }

  predicate KeyBefore(a: Key, b: Key) {
    if a.relation != b.relation then a.relation < b.relation
    else if a.domination != b.domination then a.domination < b.domination
    else if a.away != b.away then a.away < b.away
    else if a.weakness != b.weakness then a.weakness < b.weakness
    else if a.since != b.since then a.since < b.since
    else TextBefore(a.id, b.id)
  }

  function Order(q: Query): (Ranked, Ranked) -> bool {
    (a, b) => KeyBefore(KeyOf(q, a), KeyOf(q, b))
  }

  lemma KeyOrder(a: Key, b: Key, c: Key)
    ensures KeyBefore(a, b) ==> !KeyBefore(b, a)
    ensures KeyBefore(a, c) ==> KeyBefore(a, b) || KeyBefore(b, c)
  {
    TextAsymmetric(a.id, b.id);
    TextTransits(a.id, b.id, c.id);
  }

  lemma OrderWeak(q: Query)
    ensures StrictWeak(Order(q))
  {
    var less := Order(q);
    forall a, b ensures less(a, b) ==> !less(b, a) { KeyOrder(KeyOf(q, a), KeyOf(q, b), KeyOf(q, b)); }
    forall a, b, c ensures less(a, c) ==> less(a, b) || less(b, c) { KeyOrder(KeyOf(q, a), KeyOf(q, b), KeyOf(q, c)); }
  }

  // --------------------------------------------------------------- the ranking

  function Rated(q: Query, eligible: seq<Candidate>, c: Candidate): Ranked {
    Ranked(RelationOf(q, c.agentType), Dominators(q, eligible, c), c)
  }

  function EligibleAmong(q: Query, candidates: seq<Candidate>): seq<Candidate> {
    Filter(candidates, c => Eligible(q, c))
  }

  function RateAll(q: Query, eligible: seq<Candidate>): (r: seq<Ranked>)
    ensures |r| == |eligible|
    ensures forall i | 0 <= i < |r| :: r[i] == Rated(q, eligible, eligible[i])
  {
    seq(|eligible|, i requires 0 <= i < |eligible| => Rated(q, eligible, eligible[i]))
  }

  function Best(q: Query, candidates: seq<Candidate>): seq<Ranked> {
    Sort(RateAll(q, EligibleAmong(q, candidates)), Order(q))
  }

  function Candidates(ranked: seq<Ranked>): (r: seq<Candidate>)
    ensures |r| == |ranked|
    ensures forall i | 0 <= i < |r| :: r[i] == ranked[i].candidate
  {
    seq(|ranked|, i requires 0 <= i < |ranked| => ranked[i].candidate)
  }

  function Matches(q: Query, candidates: seq<Candidate>): Result<seq<Candidate>> {
    if q.req.requiredType != q.required.ref then Err(InvariantViolation)
    else Ok(Candidates(Best(q, candidates)))
  }

  /** `match_existing_agents`: collect the eligible, count who dominates each, sort. */
  method MatchExistingAgents(q: Query, candidates: seq<Candidate>) returns (r: Result<seq<Candidate>>)
    ensures r == Matches(q, candidates)
  {
    if q.req.requiredType != q.required.ref {
      return Err(InvariantViolation);
    }
    var eligible: seq<Candidate> := [];
    for i := 0 to |candidates|
      invariant eligible == EligibleAmong(q, candidates[..i])
    {
      assert candidates[..i + 1][..i] == candidates[..i];
      if Eligible(q, candidates[i]) {
        eligible := eligible + [candidates[i]];
      }
    }
    assert candidates[..|candidates|] == candidates;
    var indexed: seq<Ranked> := [];
    for i := 0 to |eligible|
      invariant indexed == RateAll(q, eligible)[..i]
    {
      var domination := CountDominators(q, eligible, eligible[i]);
      indexed := indexed + [Ranked(RelationOf(q, eligible[i].agentType), domination, eligible[i])];
    }
    assert RateAll(q, eligible)[..|eligible|] == RateAll(q, eligible);
    indexed := Sort(indexed, Order(q));
    r := Ok(Candidates(indexed));
  }

  method CountDominators(q: Query, among: seq<Candidate>, c: Candidate) returns (n: nat)
    ensures n == Dominators(q, among, c)
  {
    n := 0;
    for i := 0 to |among|
      invariant n == Dominators(q, among[..i], c)
    {
      assert among[..i + 1][..i] == among[..i];
      if Dominates(q, among[i], c) {
        n := n + 1;
      }
    }
    assert among[..|among|] == among;
  }
}
