/** What the ranking guarantees. */
module MatchingProofs {
  import opened Options
  import opened Sorting
  import opened Capability
  import opened Contracts
  import opened Refinement
  import opened Matching

  // ------------------------------------------- specificity is a strict partial order

  /** Two steps of specificity make one, unless they come back to the first type's own
      revision under another contract; a revision that fixes its contract cannot. */
  lemma SpecificityTransits(a: AgentType, b: AgentType, c: AgentType, req: Requirement, catalog: Catalog)
    requires MoreSpecificFor(a, b, req, catalog) && MoreSpecificFor(b, c, req, catalog)
    ensures MoreSpecificFor(a, c, req, catalog) <==> a.ref != c.ref
    ensures (a.ref == c.ref ==> a.contract == c.contract) ==> MoreSpecificFor(a, c, req, catalog)
  {
    AuthorityTransits(a.contract, b.contract, c.contract, catalog);
    if AuthorityNoWider(c.contract, a.contract, catalog) {
      AuthorityTransits(b.contract, c.contract, a.contract, catalog);
    }
  }

  lemma SpecificityStrict(a: AgentType, b: AgentType, req: Requirement, catalog: Catalog)
    ensures !MoreSpecificFor(a, a, req, catalog)
    ensures !(MoreSpecificFor(a, b, req, catalog) && MoreSpecificFor(b, a, req, catalog))
  {
  }

  /** One revision, one contract. */
  ghost predicate RevisionsFixed(candidates: seq<Candidate>) {
    forall i, j | 0 <= i < |candidates| && 0 <= j < |candidates| ::
      candidates[i].agentType.ref == candidates[j].agentType.ref ==>
        candidates[i].agentType.contract == candidates[j].agentType.contract
  }

  /** Domination counts increase strictly along specificity. */
  lemma DominationGrows(q: Query, among: seq<Candidate>, x: Candidate, y: Candidate)
    requires RevisionsFixed(among) && x in among && y in among
    requires Dominates(q, x, y)
    ensures Dominators(q, among, x) < Dominators(q, among, y)
  {
    forall z | z in among && Dominates(q, z, x) ensures Dominates(q, z, y) {
      SpecificityTransits(z.agentType, x.agentType, y.agentType, q.req.hard, q.catalog);
    }
    FilterGrows(among, z => Dominates(q, z, x), z => Dominates(q, z, y));
  }

  // ---------------------------------------------------------------- the ranked list

  lemma CandidatesApart(a: seq<Ranked>, b: seq<Ranked>)
    ensures Candidates(a + b) == Candidates(a) + Candidates(b)
  {
  }

  function Without<T>(list: seq<T>, k: nat): seq<T>
    requires k < |list|
  {
    list[..k] + list[k + 1..]
  }

  lemma WithoutOne<T>(list: seq<T>, k: nat)
    requires k < |list|
    ensures multiset(list) == multiset(Without(list, k)) + multiset{list[k]}
  {
    assert list == list[..k] + [list[k]] + list[k + 1..];
  }

  lemma CandidatesWithout(list: seq<Ranked>, k: nat)
    requires k < |list|
    ensures Candidates(Without(list, k)) == Without(Candidates(list), k)
  {
    CandidatesApart(list[..k], list[k + 1..]);
  }

  lemma Cancel<T(!new)>(a: multiset<T>, b: multiset<T>, x: T)
    requires a + multiset{x} == b + multiset{x}
    ensures a == b
  {
    forall y ensures a[y] == b[y] {
      assert (a + multiset{x})[y] == (b + multiset{x})[y];
    }
  }

  lemma {:induction false} CandidatesOf(a: seq<Ranked>, b: seq<Ranked>)
    requires multiset(a) == multiset(b)
    ensures multiset(Candidates(a)) == multiset(Candidates(b))
    decreases |a|
  {
    if a == [] {
      assert |multiset(b)| == 0;
    } else {
      assert a[0] in multiset(b);
      var k :| 0 <= k < |b| && b[k] == a[0];
      var ra, rb := Without(a, 0), Without(b, k);
      WithoutOne(a, 0);
      WithoutOne(b, k);
      Cancel(multiset(ra), multiset(rb), b[k]);
      CandidatesOf(ra, rb);
      CandidatesWithout(a, 0);
      CandidatesWithout(b, k);
      WithoutOne(Candidates(a), 0);
      WithoutOne(Candidates(b), k);
    }
  }

  /** In the partition, with the tags, with the workstream when continuity is REQUIRED, able to
      execute the requirement, and not another revision of the pinned type. */
  ghost predicate Suitable(q: Query, c: Candidate) {
    && c.partition == q.placement.partition
    && (forall tag | tag in q.placement.tags :: tag in c.tags)
    && (q.placement.continuity == Required ==> Familiar(q, c))
    && Executes(c.agentType, q.req.hard, q.catalog)
    && (c.agentType.ref.id == q.required.ref.id ==> c.agentType.ref == q.required.ref)
  }

  /** The candidate carries the task's workstream. */
  predicate Familiar(q: Query, c: Candidate) {
    q.placement.workstream != None && c.workstream == q.placement.workstream
  }

  lemma SuitableIff(q: Query, c: Candidate)
    ensures Eligible(q, c) <==> Suitable(q, c)
  {
    ExecuteIff(c.agentType, q.req.hard, q.catalog);
  }

  /** The result holds the suitable candidates, each as often as it was offered, and
      nothing else. */
  lemma ReturnsEligible(q: Query, candidates: seq<Candidate>, c: Candidate)
    requires Matches(q, candidates).Ok?
    ensures multiset(Matches(q, candidates).value)[c] == if Suitable(q, c) then multiset(candidates)[c] else 0
  {
    SuitableIff(q, c);
    var eligible := EligibleAmong(q, candidates);
    var rated := RateAll(q, eligible);
    SortKeeps(rated, Order(q));
    CandidatesOf(Best(q, candidates), rated);
    assert Candidates(rated) == eligible;
    FilterExact(candidates, d => Eligible(q, d), c);
  }

  lemma RatedMember(q: Query, candidates: seq<Candidate>, i: nat)
    requires i < |Best(q, candidates)|
    ensures var eligible, r := EligibleAmong(q, candidates), Best(q, candidates)[i];
      r == Rated(q, eligible, r.candidate) && r.candidate in eligible
  {
    var rated := RateAll(q, EligibleAmong(q, candidates));
    SortMembers(rated, Order(q));
    assert Best(q, candidates)[i] in rated;
  }

  lemma BestOrdered(q: Query, candidates: seq<Candidate>, i: nat, j: nat)
    requires i < j < |Best(q, candidates)|
    ensures !KeyBefore(KeyOf(q, Best(q, candidates)[j]), KeyOf(q, Best(q, candidates)[i]))
  {
    OrderWeak(q);
    SortOrders(RateAll(q, EligibleAmong(q, candidates)), Order(q));
    assert !Order(q)(Best(q, candidates)[j], Best(q, candidates)[i]);
  }

  lemma EligibleFixed(q: Query, candidates: seq<Candidate>)
    requires RevisionsFixed(candidates)
    ensures RevisionsFixed(EligibleAmong(q, candidates))
  {
    FilterMembers(candidates, c => Eligible(q, c));
    var eligible := EligibleAmong(q, candidates);
    forall i, j | 0 <= i < |eligible| && 0 <= j < |eligible| && eligible[i].agentType.ref == eligible[j].agentType.ref
      ensures eligible[i].agentType.contract == eligible[j].agentType.contract
    {
      assert eligible[i] in candidates && eligible[j] in candidates;
    }
  }

  // ------------------------------------------------------------------ the order

  /** `a` is granted strictly less than `b`, and both can execute the requirement. */
  ghost predicate Tighter(a: AgentType, b: AgentType, req: Requirement, catalog: Catalog) {
    && a.ref != b.ref && Executes(a, req, catalog) && Executes(b, req, catalog)
    && Narrows(a.contract, b.contract, catalog) && !Narrows(b.contract, a.contract, catalog)
  }

  lemma TighterIff(a: AgentType, b: AgentType, req: Requirement, catalog: Catalog)
    ensures MoreSpecificFor(a, b, req, catalog) <==> Tighter(a, b, req, catalog)
  {
    ExecuteIff(a, req, catalog);
    ExecuteIff(b, req, catalog);
    AuthorityIff(a.contract, b.contract, catalog);
    AuthorityIff(b.contract, a.contract, catalog);
  }

  /** The pinned revision itself, then tighter types, then looser ones, then the rest. */
  ghost function Class(q: Query, t: AgentType): nat {
    if t.ref == q.required.ref then 0
    else if Tighter(t, q.required, q.req.hard, q.catalog) then 1
    else if Tighter(q.required, t, q.req.hard, q.catalog) then 2
    else 3
  }

  lemma ClassIs(q: Query, t: AgentType)
    ensures RelationRank(RelationOf(q, t)) == Class(q, t)
  {
    TighterIff(t, q.required, q.req.hard, q.catalog);
    TighterIff(q.required, t, q.req.hard, q.catalog);
  }

  /** Same class, and granted strictly less. */
  ghost predicate Outranks(q: Query, a: Candidate, b: Candidate) {
    Class(q, a.agentType) == Class(q, b.agentType) && Tighter(a.agentType, b.agentType, q.req.hard, q.catalog)
  }

  lemma OutranksIff(q: Query, a: Candidate, b: Candidate)
    ensures Dominates(q, a, b) <==> Outranks(q, a, b)
  {
    ClassIs(q, a.agentType);
    ClassIs(q, b.agentType);
    TighterIff(a.agentType, b.agentType, q.req.hard, q.catalog);
    TighterIff(b.agentType, a.agentType, q.req.hard, q.catalog);
  }

  /** How many of a list outrank the candidate. */
  ghost function Rivals(q: Query, list: seq<Candidate>, c: Candidate): nat {
    if list == [] then 0
    else Rivals(q, list[..|list| - 1], c) + if Outranks(q, list[|list| - 1], c) then 1 else 0
  }

  lemma {:induction false} RivalsCount(q: Query, list: seq<Candidate>, c: Candidate)
    ensures Rivals(q, list, c) == Dominators(q, list, c)
  {
    if list != [] {
      RivalsCount(q, list[..|list| - 1], c);
      OutranksIff(q, list[|list| - 1], c);
    }
  }

  function Since(c: Candidate): real {
    match c.availableSince case Some(at) => at case None => c.createdAt
  }

  /** Equal so far: the familiar one unless there is no preference, then LOGICAL continuity,
      then longest available, then lower id. */
  predicate Preferred(q: Query, a: Candidate, b: Candidate) {
    var near := q.placement.continuity == NoPreference || Familiar(q, a);
    var rival := q.placement.continuity == NoPreference || Familiar(q, b);
    var lasts, outlasts := a.agentType.contract.continuity == Logical, b.agentType.contract.continuity == Logical;
    || (near && !rival)
    || (near == rival && lasts && !outlasts)
    || (near == rival && lasts == outlasts && Since(a) < Since(b))
    || (near == rival && lasts == outlasts && Since(a) == Since(b) && TextBefore(a.id, b.id))
  }

  /** By class, by how many of the list outrank it, by preference. */
  ghost predicate Comes(q: Query, list: seq<Candidate>, a: Candidate, b: Candidate) {
    var x, y := Class(q, a.agentType), Class(q, b.agentType);
    var m, n := Rivals(q, list, a), Rivals(q, list, b);
    x < y || (x == y && m < n) || (x == y && m == n && Preferred(q, a, b))
  }

  lemma ComesIff(q: Query, eligible: seq<Candidate>, a: Ranked, b: Ranked)
    requires a == Rated(q, eligible, a.candidate) && b == Rated(q, eligible, b.candidate)
    ensures KeyBefore(KeyOf(q, a), KeyOf(q, b)) <==> Comes(q, eligible, a.candidate, b.candidate)
  {
    ClassIs(q, a.candidate.agentType);
    ClassIs(q, b.candidate.agentType);
    RivalsCount(q, eligible, a.candidate);
    RivalsCount(q, eligible, b.candidate);
  }

  /** The result is a rearrangement of the eligible list, so it has the same rivals. */
  lemma SameRivals(q: Query, candidates: seq<Candidate>, c: Candidate)
    ensures Rivals(q, Candidates(Best(q, candidates)), c) == Rivals(q, EligibleAmong(q, candidates), c)
  {
    var eligible := EligibleAmong(q, candidates);
    var rated := RateAll(q, eligible);
    SortKeeps(rated, Order(q));
    CandidatesOf(Best(q, candidates), rated);
    assert Candidates(rated) == eligible;
    SameCount(q, Candidates(Best(q, candidates)), eligible, c);
    RivalsCount(q, Candidates(Best(q, candidates)), c);
    RivalsCount(q, eligible, c);
  }

  /** Nobody stands behind a candidate it comes before. */
  lemma RankedInOrder(q: Query, candidates: seq<Candidate>, i: nat, j: nat)
    requires Matches(q, candidates).Ok? && i < j < |Matches(q, candidates).value|
    ensures var r := Matches(q, candidates).value; !Comes(q, r, r[j], r[i])
  {
    var eligible, best := EligibleAmong(q, candidates), Best(q, candidates);
    BestOrdered(q, candidates, i, j);
    RatedMember(q, candidates, i);
    RatedMember(q, candidates, j);
    ComesIff(q, eligible, best[j], best[i]);
    SameRivals(q, candidates, best[i].candidate);
    SameRivals(q, candidates, best[j].candidate);
  }

  /** The pinned type's own revision comes first, then its refinements, then broader
      types, then the rest; inside a class nobody stands behind a candidate that is
      strictly less specific. */
  lemma SpecificFirst(q: Query, candidates: seq<Candidate>, i: nat, j: nat)
    requires RevisionsFixed(candidates)
    requires Matches(q, candidates).Ok? && i < j < |Matches(q, candidates).value|
    ensures var r := Matches(q, candidates).value;
      Class(q, r[i].agentType) <= Class(q, r[j].agentType) && !Outranks(q, r[j], r[i])
  {
    var eligible, best := EligibleAmong(q, candidates), Best(q, candidates);
    BestOrdered(q, candidates, i, j);
    RatedMember(q, candidates, i);
    RatedMember(q, candidates, j);
    EligibleFixed(q, candidates);
    RanksAgree(q, eligible, best[i], best[j]);
  }

  lemma RanksAgree(q: Query, eligible: seq<Candidate>, a: Ranked, b: Ranked)
    requires RevisionsFixed(eligible)
    requires a == Rated(q, eligible, a.candidate) && a.candidate in eligible
    requires b == Rated(q, eligible, b.candidate) && b.candidate in eligible
    requires !KeyBefore(KeyOf(q, b), KeyOf(q, a))
    ensures Class(q, a.candidate.agentType) <= Class(q, b.candidate.agentType)
    ensures !Outranks(q, b.candidate, a.candidate)
  {
    ClassIs(q, a.candidate.agentType);
    ClassIs(q, b.candidate.agentType);
    OutranksIff(q, b.candidate, a.candidate);
    if Dominates(q, b.candidate, a.candidate) {
      DominationGrows(q, eligible, b.candidate, a.candidate);
    }
  }

  ghost predicate IdsDiffer(candidates: seq<Candidate>) {
    forall i, j | 0 <= i < j < |candidates| :: candidates[i].id != candidates[j].id
  }

  lemma RatedSeparated(q: Query, eligible: seq<Candidate>)
    requires IdsDiffer(eligible)
    ensures Separated(RateAll(q, eligible), Order(q))
  {
    var rated := RateAll(q, eligible);
    forall i, j | 0 <= i < j < |rated| ensures Order(q)(rated[i], rated[j]) || Order(q)(rated[j], rated[i]) {
      TextAsymmetric(rated[i].candidate.id, rated[j].candidate.id);
    }
  }

  lemma {:induction false} FilterDiffers(candidates: seq<Candidate>, keep: Candidate -> bool)
    requires IdsDiffer(candidates)
    ensures IdsDiffer(Filter(candidates, keep))
  {
    if candidates != [] {
      var init, last := candidates[..|candidates| - 1], candidates[|candidates| - 1];
      FilterDiffers(init, keep);
      FilterMembers(init, keep);
      var kept := Filter(init, keep);
      forall i | 0 <= i < |kept| ensures kept[i].id != last.id {
        assert kept[i] in init;
      }
    }
  }

  lemma SameCount(q: Query, a: seq<Candidate>, b: seq<Candidate>, c: Candidate)
    requires multiset(a) == multiset(b)
    ensures Dominators(q, a, c) == Dominators(q, b, c)
  {
    var dominates := other => Dominates(q, other, c);
    SameFilter(a, b, dominates);
    assert |multiset(Filter(a, dominates))| == |multiset(Filter(b, dominates))|;
  }

  lemma SameFilter(a: seq<Candidate>, b: seq<Candidate>, keep: Candidate -> bool)
    requires multiset(a) == multiset(b)
    ensures multiset(Filter(a, keep)) == multiset(Filter(b, keep))
  {
    forall x ensures multiset(Filter(a, keep))[x] == multiset(Filter(b, keep))[x] {
      FilterExact(a, keep, x);
      FilterExact(b, keep, x);
    }
  }

  /** With distinct agent ids the ranking does not depend on the order of the input. */
  lemma OrderIrrelevant(q: Query, a: seq<Candidate>, b: seq<Candidate>)
    requires multiset(a) == multiset(b) && IdsDiffer(a)
    ensures Matches(q, a) == Matches(q, b)
  {
    var ea, eb := EligibleAmong(q, a), EligibleAmong(q, b);
    SameFilter(a, b, c => Eligible(q, c));
    FilterDiffers(a, c => Eligible(q, c));
    StillDiffer(ea, eb);
    RatedSeparated(q, ea);
    RatedSeparated(q, eb);
    RatedAlike(q, ea, eb);
    RatedAlike(q, eb, ea);
    OrderWeak(q);
    SortSame(RateAll(q, ea), RateAll(q, eb), Order(q));
  }

  lemma RatedAlike(q: Query, a: seq<Candidate>, b: seq<Candidate>)
    requires multiset(a) == multiset(b)
    ensures forall r | r in RateAll(q, a) :: r in RateAll(q, b)
  {
    forall r | r in RateAll(q, a) ensures r in RateAll(q, b) {
      SameCount(q, a, b, r.candidate);
      assert r.candidate in multiset(a);
      var k :| 0 <= k < |b| && b[k] == r.candidate;
      assert RateAll(q, b)[k] == r;
    }
  }

  lemma OnceEach(a: seq<Candidate>, x: Candidate)
    requires IdsDiffer(a) && x in a
    ensures multiset(a)[x] == 1
  {
    var k :| 0 <= k < |a| && a[k] == x;
    assert a == a[..k] + [x] + a[k + 1..];
    assert x !in a[..k] && x !in a[k + 1..];
  }

  lemma StillDiffer(a: seq<Candidate>, b: seq<Candidate>)
    requires multiset(a) == multiset(b) && IdsDiffer(a)
    ensures IdsDiffer(b)
  {
    forall i, j | 0 <= i < j < |b| ensures b[i].id != b[j].id {
      assert b == b[..j] + b[j..];
      assert b[i] in b[..j] && b[j] in b[j..];
      assert b[i] in multiset(a) && b[j] in multiset(a);
      OnceEach(a, b[i]);
      var k :| 0 <= k < |a| && a[k] == b[i];
      var m :| 0 <= m < |a| && a[m] == b[j];
      assert k != m;
    }
  }
}
