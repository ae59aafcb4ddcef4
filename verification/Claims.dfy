/** The canonical form of a claim list: one claim per reference, in order of
    reference, with enforced declarations preferred. */
module Claims {
  import opened Outcomes
  import opened Sorting
  import opened Capability
  import opened Contracts
  import opened Sources
  import opened Provisioning

  predicate ClaimBefore(a: Claim, b: Claim) {
    RefBefore(a.ref, b.ref)
  }

  /** How many claims at the head of the list share the first one's reference. */
  function GroupEnd(list: seq<Claim>, end: nat): (r: nat)
    requires 0 < end <= |list|
    ensures end <= r <= |list|
    ensures forall i | end <= i < r :: list[i].ref == list[0].ref
    ensures r < |list| ==> list[r].ref != list[0].ref
    decreases |list| - end
  {
    if end < |list| && list[end].ref == list[0].ref then GroupEnd(list, end + 1) else end
  }

  predicate Contested(group: seq<Claim>)
    requires group != []
  {
    exists c | c in group :: c.provenance != group[0].provenance
  }

  /** The one claim that speaks for its group. Provenance never breaks a tie. */
  function Choose(group: seq<Claim>): Result<Claim>
    requires group != []
  {
    if exists c | c in group :: c.value != group[0].value then Err(InvariantViolation)
    else
      var enforced := Filter(group, (c: Claim) => c.assurance.Enforced?);
      var rivals := if enforced != [] then enforced else group;
      if Contested(rivals) then Err(InvariantViolation) else Ok(rivals[0])
  }

  function ChooseAll(list: seq<Claim>): Result<seq<Claim>>
    decreases |list|
  {
    if list == [] then Ok([])
    else
      var end := GroupEnd(list, 1);
      var chosen :- Choose(list[..end]);
      var rest :- ChooseAll(list[end..]);
      Ok([chosen] + rest)
  }

  function Kept(claims: seq<Claim>): seq<Claim> {
    Filter(claims, (c: Claim) => c.value.Present())
  }

  function CanonicalClaims(claims: seq<Claim>, catalog: Catalog): Result<seq<Claim>> {
    var shapes := CheckEach(claims, (c: Claim) => ShapeCheck(catalog, c.ref, c.value));
    if shapes.Fail? then Err(shapes.error) else ChooseAll(Sort(Kept(claims), ClaimBefore))
  }

  /** `canonicalize_claims`: the list is emptied, checked and filtered claim by claim,
      sorted, and rebuilt group by group; a refusal leaves it empty. */
  method CanonicalizeClaims(claims: seq<Claim>, catalog: Catalog) returns (canonical: seq<Claim>, r: Check)
    ensures match CanonicalClaims(claims, catalog)
      case Ok(list) => r == Pass && canonical == list
      case Err(e) => r == Fail(e) && canonical == []
  {
    ghost var shape := (c: Claim) => ShapeCheck(catalog, c.ref, c.value);
    var kept: seq<Claim> := [];
    canonical := [];
    for i := 0 to |claims|
      invariant CheckEach(claims, shape) == CheckEach(claims[i..], shape)
      invariant kept == Kept(claims[..i])
    {
      assert claims[i..][1..] == claims[i + 1..];
      assert claims[..i + 1][..i] == claims[..i];
      r := ShapeCheck(catalog, claims[i].ref, claims[i].value);
      if r.Fail? {
        return;
      }
      if claims[i].value.Present() {
        kept := kept + [claims[i]];
      }
    }
    assert claims[..|claims|] == claims;
    kept := Sort(kept, ClaimBefore);
    canonical, r := ChooseGroups(kept);
  }

  /** The inner loop: one past the last claim at the reference of `kept[index]`. */
  method FindEnd(kept: seq<Claim>, index: nat) returns (end: nat)
    requires index < |kept|
    ensures index < end <= |kept| && end - index == GroupEnd(kept[index..], 1)
  {
    ghost var tail := kept[index..];
    end := index + 1;
    while end < |kept| && kept[end].ref == kept[index].ref
      invariant index < end <= |kept|
      invariant GroupEnd(tail, end - index) == GroupEnd(tail, 1)
    {
      end := end + 1;
    }
  }

  /** What choosing does with the head group. */
  lemma ChooseStep(list: seq<Claim>)
    requires list != []
    ensures var end := GroupEnd(list, 1);
      var chosen := Choose(list[..end]);
      ChooseAll(list) == if chosen.Err? then Err(chosen.error) else Behind([chosen.value], ChooseAll(list[end..]))
  {
  }

  /** `r` behind what was chosen before. */
  function Behind(canonical: seq<Claim>, r: Result<seq<Claim>>): Result<seq<Claim>> {
    match r case Ok(list) => Ok(canonical + list) case Err(e) => Err(e)
  }

  lemma BehindOne(canonical: seq<Claim>, chosen: Claim, rest: Result<seq<Claim>>)
    ensures Behind(canonical, Behind([chosen], rest)) == Behind(canonical + [chosen], rest)
  {
    if rest.Ok? {
      assert canonical + ([chosen] + rest.value) == canonical + [chosen] + rest.value;
    }
  }

  /** The index loops over the sorted list. */
  method ChooseGroups(kept: seq<Claim>) returns (canonical: seq<Claim>, r: Check)
    ensures match ChooseAll(kept)
      case Ok(list) => r == Pass && canonical == list
      case Err(e) => r == Fail(e) && canonical == []
  {
    canonical := [];
    var index := 0;
    assert kept[0..] == kept && forall list: seq<Claim> :: [] + list == list;
    while index < |kept|
      invariant 0 <= index <= |kept|
      invariant ChooseAll(kept) == Behind(canonical, ChooseAll(kept[index..]))
    {
      ghost var tail := kept[index..];
      var end := FindEnd(kept, index);
      assert tail[..end - index] == kept[index..end] && tail[end - index..] == kept[end..];
      ChooseStep(tail);
      var chosen := Choose(kept[index..end]);
      if chosen.Err? {
        return [], Fail(chosen.error);
      }
      BehindOne(canonical, chosen.value, ChooseAll(kept[end..]));
      canonical := canonical + [chosen.value];
      index := end;
    }
    assert kept[index..] == [];
    r := Pass;
  }

  // -------------------------------------------------- what the canonical form is

  /** `c` speaks for its reference: it is enforced, or nothing there is. */
  ghost predicate Leads(c: Claim, claims: seq<Claim>) {
    && c in claims && c.value.Present()
    && (c.assurance.Enforced? || forall d | d in claims && Declares(d, c.ref) :: d.assurance.Declared?)
  }

  /** One value per reference, and one claim that speaks for it. */
  ghost predicate Agreed(claims: seq<Claim>) {
    && (forall c, d | c in claims && d in claims && c.ref == d.ref && c.value.Present() && d.value.Present() ::
          c.value == d.value)
    && (forall c, d | Leads(c, claims) && Leads(d, claims) && c.ref == d.ref :: c == d)
  }

  ghost predicate AllPresent(claims: seq<Claim>) {
    forall c | c in claims :: c.value.Present()
  }

  ghost predicate OneRef(group: seq<Claim>, ref: Ref) {
    forall c | c in group :: c.ref == ref
  }

  lemma ChooseIff(group: seq<Claim>)
    requires group != [] && AllPresent(group) && OneRef(group, group[0].ref)
    ensures Choose(group).Ok? <==> Agreed(group)
    ensures Choose(group).Ok? ==> forall c :: Leads(c, group) <==> c == Choose(group).value
  {
    var enforced := Filter(group, (c: Claim) => c.assurance.Enforced?);
    FilterMembers(group, (c: Claim) => c.assurance.Enforced?);
    var rivals := if enforced != [] then enforced else group;
    if enforced != [] {
      assert enforced[0] in enforced;
    }
    assert group[0] in group && rivals[0] in rivals;
    assert forall c :: c in enforced ==> c in group && c.assurance.Enforced?;
    EmptyOrNot(enforced);
    forall c ensures c in rivals <==> Leads(c, group) {
    }
    if c :| c in rivals && c.provenance != rivals[0].provenance {
      assert Leads(c, group) && Leads(rivals[0], group) && c != rivals[0];
    }
  }

  lemma ClaimOrder()
    ensures StrictWeak(ClaimBefore)
  {
    RefTotal();
  }

  /** In a sorted list the head group holds every claim at its reference, and the rest
      come after it. */
  lemma HeadGroup(list: seq<Claim>)
    requires list != [] && InOrder(list, ClaimBefore)
    ensures var end := GroupEnd(list, 1);
      && OneRef(list[..end], list[0].ref)
      && (forall c | c in list[end..] :: ClaimBefore(list[0], c))
      && InOrder(list[end..], ClaimBefore)
  {
    var end := GroupEnd(list, 1);
    RefTotal();
    forall i | end <= i < |list| ensures ClaimBefore(list[0], list[i]) {
      assert !ClaimBefore(list[end], list[0]);
      assert i != end ==> !ClaimBefore(list[i], list[end]);
    }
  }

  lemma LeadsApart(c: Claim, head: seq<Claim>, tail: seq<Claim>)
    requires forall d, e | d in head && e in tail :: d.ref != e.ref
    ensures Leads(c, head + tail) <==> Leads(c, head) || Leads(c, tail)
  {
  }

  /** Groups agree together exactly when each agrees by itself. */
  lemma AgreedApart(head: seq<Claim>, tail: seq<Claim>)
    requires forall d, e | d in head && e in tail :: d.ref != e.ref
    ensures Agreed(head + tail) <==> Agreed(head) && Agreed(tail)
  {
    forall c ensures Leads(c, head + tail) <==> Leads(c, head) || Leads(c, tail) {
      LeadsApart(c, head, tail);
    }
  }

  /** `r` lists, in order, the claims that speak in `claims`; it is refused when they disagree. */
  ghost predicate Settles(r: Result<seq<Claim>>, claims: seq<Claim>) {
    && (r.Ok? <==> Agreed(claims))
    && (r.Ok? ==> Increasing(r.value, ClaimBefore) && forall c :: c in r.value <==> Leads(c, claims))
  }

  lemma SettlesApart(head: seq<Claim>, tail: seq<Claim>, ref: Ref, chosen: Claim, rest: Result<seq<Claim>>)
    requires OneRef(head, ref) && forall c | c in tail :: RefBefore(ref, c.ref)
    requires Agreed(head) && (forall c :: Leads(c, head) <==> c == chosen) && Settles(rest, tail)
    ensures Settles(Behind([chosen], rest), head + tail)
  {
    RefTotal();
    AgreedApart(head, tail);
    forall c ensures Leads(c, head + tail) <==> c == chosen || Leads(c, tail) {
      LeadsApart(c, head, tail);
    }
    if rest.Ok? {
      assert Leads(chosen, head);
      HeadFirst(chosen, rest.value, ref);
    }
  }

  lemma {:induction false} ChooseAllIff(list: seq<Claim>)
    requires InOrder(list, ClaimBefore) && AllPresent(list)
    ensures Settles(ChooseAll(list), list)
    decreases |list|
  {
    if list != [] {
      var end := GroupEnd(list, 1);
      var head, tail := list[..end], list[end..];
      HeadGroup(list);
      assert list == head + tail && head[0] == list[0];
      ChooseIff(head);
      ChooseAllIff(tail);
      ChooseStep(list);
      if Choose(head).Ok? {
        SettlesApart(head, tail, list[0].ref, Choose(head).value, ChooseAll(tail));
      } else {
        RefTotal();
        AgreedApart(head, tail);
      }
    }
  }

  lemma HeadFirst(head: Claim, rest: seq<Claim>, ref: Ref)
    requires head.ref == ref && Increasing(rest, ClaimBefore)
    requires forall c | c in rest :: RefBefore(ref, c.ref)
    ensures Increasing([head] + rest, ClaimBefore)
  {
    var all := [head] + rest;
    forall i, j | 0 <= i < j < |all| ensures ClaimBefore(all[i], all[j]) {
      assert all[j] == rest[j - 1] && rest[j - 1] in rest;
    }
  }

  /** A claim list has a canonical form exactly when its shapes are right and every
      reference has one value and one speaker; the form lists the speakers in order. */
  lemma CanonicalIff(claims: seq<Claim>, catalog: Catalog)
    ensures CanonicalClaims(claims, catalog).Ok? <==> ClaimsShaped(claims, catalog) && Agreed(claims)
    ensures CanonicalClaims(claims, catalog).Ok? ==>
      && Increasing(CanonicalClaims(claims, catalog).value, ClaimBefore)
      && forall c :: c in CanonicalClaims(claims, catalog).value <==> Leads(c, claims)
  {
    var sorted := Sort(Kept(claims), ClaimBefore);
    FilterMembers(claims, (c: Claim) => c.value.Present());
    SortMembers(Kept(claims), ClaimBefore);
    ClaimOrder();
    SortOrders(Kept(claims), ClaimBefore);
    ChooseAllIff(sorted);
    PresentDecide(sorted, claims);
  }

  lemma PresentDecide(a: seq<Claim>, b: seq<Claim>)
    requires forall c :: c in a <==> c in b && c.value.Present()
    ensures Agreed(a) <==> Agreed(b)
    ensures forall c :: Leads(c, a) <==> Leads(c, b)
  {
    forall c ensures Leads(c, a) <==> Leads(c, b) {
    }
  }

  /** Neither the order nor the repetition of claims matters. */
  lemma CanonicalUnordered(a: seq<Claim>, b: seq<Claim>, catalog: Catalog)
    requires forall c :: c in a <==> c in b
    ensures CanonicalClaims(a, catalog).Ok? <==> CanonicalClaims(b, catalog).Ok?
    ensures CanonicalClaims(a, catalog).Ok? ==> CanonicalClaims(a, catalog) == CanonicalClaims(b, catalog)
  {
    CanonicalIff(a, catalog);
    CanonicalIff(b, catalog);
    ShapedAlike(a, b, catalog);
    ShapedAlike(b, a, catalog);
    SameLeaders(a, b);
    if CanonicalClaims(a, catalog).Ok? {
      ClaimOrder();
      IncreasingUnique(CanonicalClaims(a, catalog).value, CanonicalClaims(b, catalog).value, ClaimBefore);
    }
  }

  lemma SameLeaders(a: seq<Claim>, b: seq<Claim>)
    requires forall c :: c in a <==> c in b
    ensures Agreed(a) <==> Agreed(b)
    ensures forall c :: Leads(c, a) <==> Leads(c, b)
  {
    forall c ensures Leads(c, a) <==> Leads(c, b) {
    }
  }

  lemma ShapedAlike(a: seq<Claim>, b: seq<Claim>, catalog: Catalog)
    requires forall c :: c in a ==> c in b
    ensures ClaimsShaped(b, catalog) ==> ClaimsShaped(a, catalog)
  {
    if ClaimsShaped(b, catalog) {
      forall i | 0 <= i < |a| ensures ShapeCheck(catalog, a[i].ref, a[i].value).Pass? {
        assert a[i] in b;
      }
    }
  }

  /** Canonicalizing again changes nothing. */
  lemma CanonicalAgain(claims: seq<Claim>, catalog: Catalog)
    requires CanonicalClaims(claims, catalog).Ok?
    ensures CanonicalClaims(CanonicalClaims(claims, catalog).value, catalog) == CanonicalClaims(claims, catalog)
  {
    var list := CanonicalClaims(claims, catalog).value;
    CanonicalIff(claims, catalog);
    ShapedAlike(list, claims, catalog);
    ClaimOrder();
    forall c, d | c in list && d in list && c.ref == d.ref ensures c == d {
      assert Leads(c, claims) && Leads(d, claims);
    }
    assert Agreed(list);
    forall c ensures Leads(c, list) <==> c in list {
    }
    CanonicalIff(list, catalog);
    IncreasingUnique(list, CanonicalClaims(list, catalog).value, ClaimBefore);
  }

  /** The canonical list says what the claims said. */
  lemma CanonicalSays(claims: seq<Claim>, catalog: Catalog)
    requires CanonicalClaims(claims, catalog).Ok?
    ensures Said(CanonicalClaims(claims, catalog).value) == Said(claims)
    ensures Coherent(Said(claims))
    ensures ClaimsShaped(CanonicalClaims(claims, catalog).value, catalog) && ClaimsShaped(claims, catalog)
  {
    var list := CanonicalClaims(claims, catalog).value;
    CanonicalIff(claims, catalog);
    ShapedAlike(list, claims, catalog);
    forall ref, v ensures (ref, v) in Said(list) <==> (ref, v) in Said(claims) {
      SaidBy(list, ref, v);
      SaidBy(claims, ref, v);
      if (ref, v) in Said(claims) {
        var c :| c in claims && Declares(c, ref) && c.value == v;
        var lead := Leader(c, claims);
        assert lead in list && Declares(lead, ref) && lead.value == v;
      }
    }
    SaidOnce(claims);
  }

  lemma SaidOnce(claims: seq<Claim>)
    requires Agreed(claims)
    ensures Coherent(Said(claims))
  {
    var said := Said(claims);
    forall ref, v, w | (ref, v) in said && (ref, w) in said ensures v == w {
      SaidBy(claims, ref, v);
      SaidBy(claims, ref, w);
    }
  }

  /** Somebody speaks for every claim. */
  lemma Leader(c: Claim, claims: seq<Claim>) returns (lead: Claim)
    requires c in claims && c.value.Present() && Agreed(claims)
    ensures Leads(lead, claims) && lead.ref == c.ref && lead.value == c.value
  {
    lead := c;
    if !Leads(c, claims) {
      lead :| lead in claims && Declares(lead, c.ref) && !lead.assurance.Declared?;
    }
  }

  /** Every reference resolves to the value it resolved to before. */
  lemma ResolvesAlike(claims: seq<Claim>, catalog: Catalog, ref: Ref)
    requires CanonicalClaims(claims, catalog).Ok?
    ensures var before, after := ResolveClaim(claims, ref), ResolveClaim(CanonicalClaims(claims, catalog).value, ref);
      && before.Ok? && after.Ok?
      && (before.value.None? <==> after.value.None?)
      && (before.value.Some? ==> before.value.value.value == after.value.value.value)
  {
    CanonicalSays(claims, catalog);
    ResolveIff(claims, ref);
    ResolveIff(CanonicalClaims(claims, catalog).value, ref);
    assert Single(Said(claims), ref);
  }
}
