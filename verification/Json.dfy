/** JSON trees, and the one way a tree is written down. */
module Json {
  import opened Sorting

  /** A tree; the fields of an object have no order. */
  datatype Value =
    | Null
    | Bool(on: bool)
    | Integer(n: int)
    | Number(x: real)
    | Text(text: string)
    | Array(items: seq<Value>)
    | Object(fields: map<string, Value>)

  /** A tree as a map implementation hands it out: the fields come in some order. */
  datatype Written =
    | Atom(value: Value)
    | Items(items: seq<Written>)
    | Fields(fields: seq<Field>)

  datatype Field = Field(name: string, value: Written)

  predicate Proper(w: Written) {
    match w
    case Atom(v) => !v.Array? && !v.Object?
    case Items(list) => forall i | 0 <= i < |list| :: Proper(list[i])
    case Fields(list) =>
      && (forall i | 0 <= i < |list| :: Proper(list[i].value))
      && (forall i, j | 0 <= i < j < |list| :: list[i].name != list[j].name)
  }

  /** The tree behind a written form. */
  function Meaning(w: Written): Value
    requires Proper(w)
  {
    match w
    case Atom(v) => v
    case Items(list) => Array(seq(|list|, i requires 0 <= i < |list| => Meaning(list[i])))
    case Fields(list) => Object(Bound(list))
  }

  function Bound(list: seq<Field>): map<string, Value>
    requires Proper(Fields(list))
    decreases list, 1
  {
    if list == [] then map[]
    else
      var last := |list| - 1;
      Bound(list[..last])[list[last].name := Meaning(list[last].value)]
  }

  /** A name is bound to the meaning of its one field. */
  lemma {:induction false} BoundAt(list: seq<Field>, i: nat)
    requires Proper(Fields(list)) && i < |list|
    ensures list[i].name in Bound(list) && Bound(list)[list[i].name] == Meaning(list[i].value)
  {
    var last := |list| - 1;
    assert Proper(Fields(list[..last]));
    if i < last {
      BoundAt(list[..last], i);
      assert list[..last][i] == list[i];
    }
  }

  lemma {:induction false} BoundFrom(list: seq<Field>, name: string) returns (i: nat)
    requires Proper(Fields(list)) && name in Bound(list)
    ensures i < |list| && list[i].name == name
  {
    i := |list| - 1;
    if list[i].name != name {
      i := BoundFrom(list[..i], name);
    }
  }

  predicate FieldBefore(a: Field, b: Field) {
    TextBefore(a.name, b.name)
  }

  function Each(list: seq<Field>): (r: seq<Field>)
    ensures |r| == |list|
    ensures forall i | 0 <= i < |list| :: r[i] == Field(list[i].name, Canonical(list[i].value))
    decreases list, 1
  {
    seq(|list|, i requires 0 <= i < |list| => Field(list[i].name, Canonical(list[i].value)))
  }

  /** `canonical_json`: every object's fields sorted by name, all the way down. */
  function Canonical(w: Written): Written {
    match w
    case Atom(_) => w
    case Items(list) => Items(seq(|list|, i requires 0 <= i < |list| => Canonical(list[i])))
    case Fields(list) => Fields(Sort(Each(list), FieldBefore))
  }

  lemma FieldOrder()
    ensures StrictWeak(FieldBefore)
  {
    TextTotal();
  }

  lemma SortedFields(list: seq<Field>)
    requires Proper(Fields(list))
    ensures var sorted := Sort(Each(list), FieldBefore);
      && Increasing(sorted, FieldBefore)
      && forall f :: f in sorted <==> f in Each(list)
  {
    FieldOrder();
    TextTotal();
    assert Separated(Each(list), FieldBefore);
    SortIncreases(Each(list), FieldBefore);
    SortMembers(Each(list), FieldBefore);
  }

  /** Sorting names changes no lookup, at any depth. */
  lemma {:induction false} CanonicalKeeps(w: Written)
    requires Proper(w)
    ensures Proper(Canonical(w)) && Meaning(Canonical(w)) == Meaning(w)
  {
    match w
    case Atom(_) =>
    case Items(list) =>
      forall i | 0 <= i < |list| ensures Proper(Canonical(list[i])) && Meaning(Canonical(list[i])) == Meaning(list[i]) {
        CanonicalKeeps(list[i]);
      }
    case Fields(list) =>
      forall i | 0 <= i < |list|
        ensures Proper(Canonical(list[i].value)) && Meaning(Canonical(list[i].value)) == Meaning(list[i].value) {
        CanonicalKeeps(list[i].value);
      }
      FieldsKeep(list);
  }

  lemma PartOf(a: seq<Field>, b: seq<Field>)
    requires Proper(Fields(a)) && Proper(Fields(b))
    requires forall f :: f in a ==> f in b
    ensures forall name | name in Bound(a) :: name in Bound(b) && Bound(b)[name] == Bound(a)[name]
  {
    forall name | name in Bound(a) ensures name in Bound(b) && Bound(b)[name] == Bound(a)[name] {
      var i := BoundFrom(a, name);
      BoundAt(a, i);
      assert a[i] in b;
      var k :| 0 <= k < |b| && b[k] == a[i];
      BoundAt(b, k);
    }
  }

  /** Lists with the same fields mean the same object. */
  lemma SameMembers(a: seq<Field>, b: seq<Field>)
    requires Proper(Fields(a)) && Proper(Fields(b))
    requires forall f :: f in a <==> f in b
    ensures Meaning(Fields(a)) == Meaning(Fields(b))
  {
    PartOf(a, b);
    PartOf(b, a);
    assert Bound(a) == Bound(b);
  }

  lemma SameByIndex(a: seq<Field>, b: seq<Field>)
    requires Proper(Fields(a)) && Proper(Fields(b)) && |a| == |b|
    requires forall i | 0 <= i < |a| :: a[i].name == b[i].name && Meaning(a[i].value) == Meaning(b[i].value)
    ensures Meaning(Fields(a)) == Meaning(Fields(b))
  {
    forall name | name in Bound(a) ensures name in Bound(b) && Bound(b)[name] == Bound(a)[name] {
      var i := BoundFrom(a, name);
      BoundAt(a, i);
      BoundAt(b, i);
    }
    forall name | name in Bound(b) ensures name in Bound(a) {
      var i := BoundFrom(b, name);
      BoundAt(a, i);
    }
    assert Bound(a) == Bound(b);
  }

  lemma FieldsKeep(list: seq<Field>)
    requires Proper(Fields(list))
    requires forall i | 0 <= i < |list| ::
      Proper(Canonical(list[i].value)) && Meaning(Canonical(list[i].value)) == Meaning(list[i].value)
    ensures Proper(Canonical(Fields(list))) && Meaning(Canonical(Fields(list))) == Meaning(Fields(list))
  {
    SortedProper(list);
    SortedFields(list);
    SameByIndex(list, Each(list));
    SameMembers(Each(list), Sort(Each(list), FieldBefore));
  }

  lemma SortedProper(list: seq<Field>)
    requires Proper(Fields(list))
    requires forall i | 0 <= i < |list| :: Proper(Canonical(list[i].value))
    ensures Proper(Fields(Sort(Each(list), FieldBefore)))
  {
    var each, sorted := Each(list), Sort(Each(list), FieldBefore);
    SortedFields(list);
    FieldOrder();
    forall i | 0 <= i < |sorted| ensures Proper(sorted[i].value) {
      assert sorted[i] in each;
    }
    forall i, j | 0 <= i < j < |sorted| ensures sorted[i].name != sorted[j].name {
      assert FieldBefore(sorted[i], sorted[j]);
      TextAsymmetric(sorted[i].name, sorted[j].name);
    }
  }

  /** The field of `b` that answers to field `i` of `a`. */
  lemma Partner(a: seq<Field>, b: seq<Field>, i: nat) returns (k: nat)
    requires Proper(Fields(a)) && Proper(Fields(b)) && Bound(a) == Bound(b) && i < |a|
    ensures k < |b| && b[k].name == a[i].name && Meaning(b[k].value) == Meaning(a[i].value)
  {
    BoundAt(a, i);
    k := BoundFrom(b, a[i].name);
    BoundAt(b, k);
  }

  /** Two written forms of one tree have one canonical form. */
  lemma {:induction false} CanonicalDetermined(a: Written, b: Written)
    requires Proper(a) && Proper(b) && Meaning(a) == Meaning(b)
    ensures Canonical(a) == Canonical(b)
    decreases a
  {
    match a
    case Atom(_) =>
      assert b.Atom?;
    case Items(list) =>
      assert b.Items?;
      assert |Meaning(a).items| == |list| && |Meaning(b).items| == |b.items|;
      forall i | 0 <= i < |list| ensures Canonical(list[i]) == Canonical(b.items[i]) {
        assert Meaning(list[i]) == Meaning(a).items[i] == Meaning(b.items[i]);
        CanonicalDetermined(list[i], b.items[i]);
      }
    case Fields(list) =>
      assert b.Fields?;
      forall i, k | 0 <= i < |list| && 0 <= k < |b.fields| && Meaning(list[i].value) == Meaning(b.fields[k].value)
        ensures Canonical(list[i].value) == Canonical(b.fields[k].value)
      {
        CanonicalDetermined(list[i].value, b.fields[k].value);
      }
      FieldsDetermined(list, b.fields);
  }

  /** Fields that mean the same have the same canonical value. */
  ghost predicate Agree(a: seq<Field>, b: seq<Field>)
    requires Proper(Fields(a)) && Proper(Fields(b))
  {
    forall i, k | 0 <= i < |a| && 0 <= k < |b| && Meaning(a[i].value) == Meaning(b[k].value) ::
      Canonical(a[i].value) == Canonical(b[k].value)
  }

  lemma EachWithin(a: seq<Field>, b: seq<Field>)
    requires Proper(Fields(a)) && Proper(Fields(b)) && Bound(a) == Bound(b) && Agree(a, b)
    ensures forall f | f in Each(a) :: f in Each(b)
  {
    forall f | f in Each(a) ensures f in Each(b) {
      var i :| 0 <= i < |a| && Each(a)[i] == f;
      var k := Partner(a, b, i);
      assert Each(b)[k] == f;
    }
  }

  lemma FieldsDetermined(a: seq<Field>, b: seq<Field>)
    requires Proper(Fields(a)) && Proper(Fields(b)) && Bound(a) == Bound(b) && Agree(a, b)
    ensures Canonical(Fields(a)) == Canonical(Fields(b))
  {
    EachWithin(a, b);
    EachWithin(b, a);
    SortedFields(a);
    SortedFields(b);
    FieldOrder();
    IncreasingUnique(Sort(Each(a), FieldBefore), Sort(Each(b), FieldBefore), FieldBefore);
  }

  /** The canonical form depends on the tree alone, and tells every two trees apart. */
  lemma CanonicalExactly(a: Written, b: Written)
    requires Proper(a) && Proper(b)
    ensures Canonical(a) == Canonical(b) <==> Meaning(a) == Meaning(b)
  {
    CanonicalKeeps(a);
    CanonicalKeeps(b);
    if Meaning(a) == Meaning(b) {
      CanonicalDetermined(a, b);
    }
  }

  lemma CanonicalIdempotent(w: Written)
    requires Proper(w)
    ensures Canonical(Canonical(w)) == Canonical(w)
  {
    CanonicalKeeps(w);
    CanonicalExactly(Canonical(w), w);
  }

  /** Names increase in every object, at every depth. */
  ghost predicate Tidy(w: Written) {
    match w
    case Atom(_) => true
    case Items(list) => forall i | 0 <= i < |list| :: Tidy(list[i])
    case Fields(list) => Increasing(list, FieldBefore) && forall i | 0 <= i < |list| :: Tidy(list[i].value)
  }

  lemma {:induction false} CanonicalTidy(w: Written)
    requires Proper(w)
    ensures Tidy(Canonical(w))
  {
    match w
    case Atom(_) =>
    case Items(list) =>
      forall i | 0 <= i < |list| ensures Tidy(Canonical(list[i])) { CanonicalTidy(list[i]); }
    case Fields(list) =>
      forall i | 0 <= i < |list| ensures Tidy(Canonical(list[i].value)) { CanonicalTidy(list[i].value); }
      SortedFields(list);
      var sorted := Sort(Each(list), FieldBefore);
      forall i | 0 <= i < |sorted| ensures Tidy(sorted[i].value) { assert sorted[i] in Each(list); }
  }

  // ----------------------------------------------------- every tree can be written

  function FieldNames(fields: map<string, Value>): (names: seq<string>)
    ensures Increasing(names, TextBefore)
    ensures forall name :: name in names <==> name in fields
  {
    TextTotal();
    Listing(fields.Keys, TextBefore)
  }

  function Spell(v: Value): Written {
    match v
    case Array(items) => Items(seq(|items|, i requires 0 <= i < |items| => Spell(items[i])))
    case Object(fields) =>
      var names := FieldNames(fields);
      Fields(seq(|names|, i requires 0 <= i < |names| =>
        assert names[i] in names;
        Field(names[i], Spell(fields[names[i]]))))
    case _ => Atom(v)
  }

  lemma {:induction false} Spells(v: Value)
    ensures Proper(Spell(v)) && Meaning(Spell(v)) == v
  {
    match v
    case Array(items) =>
      forall i | 0 <= i < |items| ensures Proper(Spell(items[i])) && Meaning(Spell(items[i])) == items[i] {
        Spells(items[i]);
      }
    case Object(fields) =>
      forall name | name in fields ensures Proper(Spell(fields[name])) && Meaning(Spell(fields[name])) == fields[name] {
        Spells(fields[name]);
      }
      SpellsFields(fields, Spell(v).fields);
    case _ =>
  }

  /** The list names the fields of the object, in order, with their values. */
  ghost predicate Spelt(fields: map<string, Value>, names: seq<string>, list: seq<Field>) {
    |list| == |names| && forall i | 0 <= i < |list| ::
      names[i] in fields && list[i].name == names[i] && Proper(list[i].value)
        && Meaning(list[i].value) == fields[names[i]]
  }

  lemma SpeltProper(fields: map<string, Value>, names: seq<string>, list: seq<Field>)
    requires Spelt(fields, names, list) && Increasing(names, TextBefore)
    ensures Proper(Fields(list))
  {
    forall i, j | 0 <= i < j < |list| ensures list[i].name != list[j].name {
      TextAsymmetric(names[i], names[j]);
    }
  }

  lemma SpeltBound(fields: map<string, Value>, names: seq<string>, list: seq<Field>)
    requires Spelt(fields, names, list) && Proper(Fields(list)) && forall name :: name in names <==> name in fields
    ensures Bound(list) == fields
  {
    forall name | name in fields ensures name in Bound(list) && Bound(list)[name] == fields[name] {
      var i :| 0 <= i < |names| && names[i] == name;
      BoundAt(list, i);
    }
    forall name | name in Bound(list) ensures name in fields {
      var i := BoundFrom(list, name);
    }
  }

  lemma SpellsFields(fields: map<string, Value>, list: seq<Field>)
    requires Spelt(fields, FieldNames(fields), list)
    ensures Proper(Fields(list)) && Bound(list) == fields
  {
    SpeltProper(fields, FieldNames(fields), list);
    SpeltBound(fields, FieldNames(fields), list);
  }
}
